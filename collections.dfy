// `Collection` of `collections.py`: an ordered list of items and operations
// that return new collections. A predicate or key function supplied by the
// caller may raise, so it returns a Result; the first error propagates.
module Collections {
  import opened Wrappers

  // ----- filtering -----

  /** The items satisfying `p`, in their original order. */
  function Filter<T>(xs: seq<T>, p: T -> bool): (r: seq<T>)
    ensures |r| <= |xs|
    ensures forall i :: 0 <= i < |r| ==> p(r[i])
  {
    if xs == [] then []
    else
      (if p(xs[0]) then [xs[0]] else []) + Filter(xs[1..], p)
  }

  /** `a` is `b` with some items left out. */
  predicate SubsequenceOf<T(==)>(a: seq<T>, b: seq<T>)
    decreases |b|
  {
    a == [] || (b != [] && if a[0] == b[0] then SubsequenceOf(a[1..], b[1..]) else SubsequenceOf(a, b[1..]))
  }

  lemma {:induction false} FilterIsSubsequence<T>(xs: seq<T>, p: T -> bool)
    ensures SubsequenceOf(Filter(xs, p), xs)
  {
    if xs != [] {
      FilterIsSubsequence(xs[1..], p);
      if p(xs[0]) {
        assert Filter(xs, p) == [xs[0]] + Filter(xs[1..], p);
        assert Filter(xs, p)[1..] == Filter(xs[1..], p);
      } else {
        assert Filter(xs, p) == Filter(xs[1..], p);
      }
    }
  }

  /** An item is kept exactly when it occurs and satisfies the predicate. */
  lemma {:induction false} FilterMembers<T>(xs: seq<T>, p: T -> bool, x: T)
    ensures x in Filter(xs, p) <==> x in xs && p(x)
  {
    if xs != [] {
      FilterMembers(xs[1..], p, x);
      assert xs == [xs[0]] + xs[1..];
    }
  }

  /** Filtering only drops items. */
  lemma {:induction false} FilterShrinks<T>(xs: seq<T>, p: T -> bool)
    ensures multiset(Filter(xs, p)) <= multiset(xs)
  {
    if xs != [] {
      FilterShrinks(xs[1..], p);
      assert xs == [xs[0]] + xs[1..];
    }
  }

  lemma FilterNil<T>(xs: seq<T>, p: T -> bool)
    requires xs == []
    ensures Filter(xs, p) == []
  {
  }

  lemma FilterCons<T>(x: T, ys: seq<T>, p: T -> bool)
    ensures Filter([x] + ys, p) == (if p(x) then [x] else []) + Filter(ys, p)
  {
    assert ([x] + ys)[0] == x && ([x] + ys)[1..] == ys;
  }

  lemma {:induction false} FilterAppend<T>(a: seq<T>, b: seq<T>, p: T -> bool)
    ensures Filter(a + b, p) == Filter(a, p) + Filter(b, p)
  {
    if a == [] {
      assert a + b == b;
    } else {
      assert (a + b)[0] == a[0] && (a + b)[1..] == a[1..] + b;
      FilterAppend(a[1..], b, p);
    }
  }

  /** Both predicates hold. */
  function Both<T>(p: T -> bool, q: T -> bool): T -> bool
  {
    x => p(x) && q(x)
  }

  /** Filtering twice keeps the items satisfying both predicates. */
  lemma {:induction false} FilterTwice<T>(xs: seq<T>, p: T -> bool, q: T -> bool)
    ensures Filter(Filter(xs, p), q) == Filter(xs, Both(p, q))
  {
    if xs != [] {
      FilterTwice(xs[1..], p, q);
      FilterAppend(if p(xs[0]) then [xs[0]] else [], Filter(xs[1..], p), q);
    }
  }

  /** The predicate "holds", for a predicate that may raise. */
  function Holds<T>(p: T -> Result<bool>): T -> bool
  {
    x => p(x) == Ok(true)
  }

  /** `[x for x in xs if p(x)]` with a predicate that may raise: the first error propagates. */
  function TryFilter<T>(xs: seq<T>, p: T -> Result<bool>): (r: Result<seq<T>>)
    ensures r.Ok? <==> forall i :: 0 <= i < |xs| ==> p(xs[i]).Ok?
    ensures r.Ok? ==> r.value == Filter(xs, Holds(p))
    ensures r.Err? ==> exists i :: 0 <= i < |xs| && p(xs[i]) == Err(r.error) && forall j :: 0 <= j < i ==> p(xs[j]).Ok?
  {
    if xs == [] then Ok([])
    else
      assert forall i :: 0 <= i < |xs[1..]| ==> xs[1..][i] == xs[i + 1];
      match p(xs[0])
      case Err(e) => Err(e)
      case Ok(keep) =>
        match TryFilter(xs[1..], p)
        case Err(e) =>
          assert forall i :: 1 <= i < |xs| ==> xs[i] == xs[1..][i - 1];
          var i :| 0 <= i < |xs[1..]| && p(xs[1..][i]) == Err(e) && forall j :: 0 <= j < i ==> p(xs[1..][j]).Ok?;
          assert p(xs[i + 1]) == Err(e);
          Err(e)
        case Ok(rest) =>
          assert forall i :: 1 <= i < |xs| ==> xs[i] == xs[1..][i - 1];
          Ok((if keep then [xs[0]] else []) + rest)
  }

  /** A predicate that never raises filters like `Filter`. */
  function Lift<T>(p: T -> bool): T -> Result<bool>
  {
    x => Ok(p(x))
  }

  lemma LiftedFilter<T>(xs: seq<T>, p: T -> bool)
    ensures TryFilter(xs, Lift(p)) == Ok(Filter(xs, p))
  {
    FilterSame(xs, Holds(Lift(p)), p);
  }

  /** Predicates that agree on the items filter alike. */
  lemma {:induction false} FilterSame<T>(xs: seq<T>, p: T -> bool, q: T -> bool)
    requires forall x :: x in xs ==> p(x) == q(x)
    ensures Filter(xs, p) == Filter(xs, q)
  {
    if xs != [] {
      assert forall x :: x in xs[1..] ==> x in xs;
      FilterSame(xs[1..], p, q);
    }
  }

  /** A predicate that holds everywhere keeps everything. */
  lemma {:induction false} FilterAll<T>(xs: seq<T>, p: T -> bool)
    requires forall x :: x in xs ==> p(x)
    ensures Filter(xs, p) == xs
  {
    if xs != [] {
      assert forall x :: x in xs[1..] ==> x in xs;
      FilterAll(xs[1..], p);
    }
  }

  // ----- sorting -----

  /** `a` may stand before `b`: keys ascending, or descending with `reverse`. */
  predicate InOrder<T>(key: T -> int, reverse: bool, a: T, b: T)
  {
    if reverse then key(a) >= key(b) else key(a) <= key(b)
  }

  predicate SortedBy<T>(xs: seq<T>, key: T -> int, reverse: bool)
  {
    forall i, j :: 0 <= i < j < |xs| ==> InOrder(key, reverse, xs[i], xs[j])
  }

  /** Insert `x` in front of the first item it may stand before. */
  function Insert<T>(x: T, ys: seq<T>, key: T -> int, reverse: bool): (r: seq<T>)
    ensures |r| == |ys| + 1
  {
    if ys == [] || InOrder(key, reverse, x, ys[0]) then [x] + ys
    else [ys[0]] + Insert(x, ys[1..], key, reverse)
  }

  /**
   * `sorted(xs, key=key, reverse=reverse)`: Python's sort is stable also when
   * reversed, so items with equal keys keep their order. Insertion from the back
   * puts each item in front of the later items of equal key.
   */
  function SortBy<T>(xs: seq<T>, key: T -> int, reverse: bool): (r: seq<T>)
    ensures |r| == |xs|
  {
    if xs == [] then []
    else Insert(xs[0], SortBy(xs[1..], key, reverse), key, reverse)
  }

  lemma {:induction false} InsertPermutes<T>(x: T, ys: seq<T>, key: T -> int, reverse: bool)
    ensures multiset(Insert(x, ys, key, reverse)) == multiset(ys) + multiset{x}
  {
    if ys != [] && !InOrder(key, reverse, x, ys[0]) {
      InsertPermutes(x, ys[1..], key, reverse);
      assert ys == [ys[0]] + ys[1..];
    }
  }

  /** The result is a permutation of the items. */
  lemma {:induction false} SortPermutes<T>(xs: seq<T>, key: T -> int, reverse: bool)
    ensures multiset(SortBy(xs, key, reverse)) == multiset(xs)
  {
    if xs != [] {
      SortPermutes(xs[1..], key, reverse);
      InsertPermutes(xs[0], SortBy(xs[1..], key, reverse), key, reverse);
      assert xs == [xs[0]] + xs[1..];
    }
  }

  lemma {:induction false} InsertMembers<T>(x: T, ys: seq<T>, key: T -> int, reverse: bool, z: T)
    ensures z in Insert(x, ys, key, reverse) <==> z == x || z in ys
  {
    if ys != [] && !InOrder(key, reverse, x, ys[0]) {
      InsertMembers(x, ys[1..], key, reverse, z);
      assert ys == [ys[0]] + ys[1..];
    }
  }

  lemma {:induction false} InsertSorted<T>(x: T, ys: seq<T>, key: T -> int, reverse: bool)
    requires SortedBy(ys, key, reverse)
    ensures SortedBy(Insert(x, ys, key, reverse), key, reverse)
  {
    if ys == [] {
    } else if InOrder(key, reverse, x, ys[0]) {
      var r := [x] + ys;
      forall i, j | 0 <= i < j < |r| ensures InOrder(key, reverse, r[i], r[j]) {
        if i == 0 {
          assert r[j] == ys[j - 1];
          assert j - 1 == 0 || InOrder(key, reverse, ys[0], ys[j - 1]);
        } else {
          assert r[i] == ys[i - 1] && r[j] == ys[j - 1];
        }
      }
    } else {
      var y, tl := ys[0], ys[1..];
      assert SortedBy(tl, key, reverse) by {
        forall i, j | 0 <= i < j < |tl| ensures InOrder(key, reverse, tl[i], tl[j]) {
          assert tl[i] == ys[i + 1] && tl[j] == ys[j + 1];
        }
      }
      InsertSorted(x, tl, key, reverse);
      var rest := Insert(x, tl, key, reverse);
      forall z | z in rest ensures InOrder(key, reverse, y, z) {
        InsertMembers(x, tl, key, reverse, z);
        if z != x {
          var j :| 0 <= j < |tl| && tl[j] == z;
          assert ys[j + 1] == z;
        }
      }
      var r := [y] + rest;
      forall i, j | 0 <= i < j < |r| ensures InOrder(key, reverse, r[i], r[j]) {
        if i == 0 {
          assert r[j] == rest[j - 1];
        } else {
          assert r[i] == rest[i - 1] && r[j] == rest[j - 1];
        }
      }
    }
  }

  /** The result is ordered by key. */
  lemma {:induction false} SortSorted<T>(xs: seq<T>, key: T -> int, reverse: bool)
    ensures SortedBy(SortBy(xs, key, reverse), key, reverse)
  {
    if xs != [] {
      SortSorted(xs[1..], key, reverse);
      InsertSorted(xs[0], SortBy(xs[1..], key, reverse), key, reverse);
    }
  }

  /** The test "has key `k`" that stability is stated with. */
  function KeyEquals<T>(key: T -> int, k: int): T -> bool
  {
    y => key(y) == k
  }

  /** Among the items of key `k`, `x` goes in front. */
  lemma {:induction false} InsertStable<T>(x: T, ys: seq<T>, key: T -> int, reverse: bool, k: int)
    ensures Filter(Insert(x, ys, key, reverse), KeyEquals(key, k))
         == (if key(x) == k then [x] else []) + Filter(ys, KeyEquals(key, k))
  {
    hide Filter, Insert, SortBy;
    InsertStep(x, ys, key, reverse);
    var p := KeyEquals(key, k);
    if ys != [] && !InOrder(key, reverse, x, ys[0]) {
      var y, rest := ys[0], ys[1..];
      assert ys == [y] + rest;
      var ins := Insert(x, rest, key, reverse);
      assert Insert(x, ys, key, reverse) == [y] + ins;
      InsertStable(x, rest, key, reverse, k);
      assert key(y) != key(x);
      FilterCons(y, rest, p);
      FilterCons(y, ins, p);
    } else {
      assert Insert(x, ys, key, reverse) == [x] + ys;
      FilterCons(x, ys, p);
    }
  }

  lemma InsertStep<T>(x: T, ys: seq<T>, key: T -> int, reverse: bool)
    ensures Insert(x, ys, key, reverse) ==
      if ys == [] || InOrder(key, reverse, x, ys[0]) then [x] + ys
      else [ys[0]] + Insert(x, ys[1..], key, reverse)
  {
  }

  /** Stability: the items of any one key come out in the order they went in. */
  lemma {:induction false} SortStable<T>(xs: seq<T>, key: T -> int, reverse: bool, k: int)
    ensures Filter(SortBy(xs, key, reverse), KeyEquals(key, k)) == Filter(xs, KeyEquals(key, k))
  {
    if xs != [] {
      SortStable(xs[1..], key, reverse, k);
      InsertStable(xs[0], SortBy(xs[1..], key, reverse), key, reverse, k);
      assert xs == [xs[0]] + xs[1..];
      FilterCons(xs[0], xs[1..], KeyEquals(key, k));
    }
  }

  lemma SortStableAll<T>(xs: seq<T>, key: T -> int, reverse: bool)
    ensures forall k :: Filter(SortBy(xs, key, reverse), KeyEquals(key, k)) == Filter(xs, KeyEquals(key, k))
  {
    forall k ensures Filter(SortBy(xs, key, reverse), KeyEquals(key, k)) == Filter(xs, KeyEquals(key, k)) {
      SortStable(xs, key, reverse, k);
    }
  }

  /** The keys of a key function that may raise, read once every item is known to have one. */
  function KeyOr<T>(key: T -> Result<int>): T -> int
  {
    x => if key(x).Ok? then key(x).value else 0
  }

  /**
   * `sorted(xs, key=key, reverse=reverse)` with a key function that may raise:
   * Python computes every key first, in order, so the first exception
   * propagates before anything is compared. Otherwise the result is a stable
   * sorted permutation of the items.
   */
  function Sorted<T>(xs: seq<T>, key: T -> Result<int>, reverse: bool): (r: Result<seq<T>>)
    ensures r.Ok? <==> forall i :: 0 <= i < |xs| ==> key(xs[i]).Ok?
    ensures r.Err? ==> exists i :: 0 <= i < |xs| && key(xs[i]) == Err(r.error) && forall k :: 0 <= k < i ==> key(xs[k]).Ok?
    ensures r.Ok? ==> multiset(r.value) == multiset(xs) && SortedBy(r.value, KeyOr(key), reverse)
    ensures r.Ok? ==> forall k :: Filter(r.value, KeyEquals(KeyOr(key), k)) == Filter(xs, KeyEquals(KeyOr(key), k))
  {
    match MapItems(xs, key)
    case Err(e) => Err(e)
    case Ok(_) =>
      SortPermutes(xs, KeyOr(key), reverse);
      SortSorted(xs, KeyOr(key), reverse);
      SortStableAll(xs, KeyOr(key), reverse);
      Ok(SortBy(xs, KeyOr(key), reverse))
  }

  // ----- grouping -----

  /** `groups[k].append(x)`, creating the group `k` at the end when it is new. */
  function AddTo<T, K(==)>(gs: seq<(K, seq<T>)>, k: K, x: T): seq<(K, seq<T>)>
  {
    if gs == [] then [(k, [x])]
    else if gs[0].0 == k then [(k, gs[0].1 + [x])] + gs[1..]
    else [gs[0]] + AddTo(gs[1..], k, x)
  }

  /** What `group_by` returns or raises: items are taken in order and the first failing key propagates. */
  function Grouped<T, K(==)>(xs: seq<T>, key: T -> Result<K>): Result<seq<(K, seq<T>)>>
    decreases |xs|
  {
    if xs == [] then Ok([])
    else
      match Grouped(xs[..|xs| - 1], key)
      case Err(e) => Err(e)
      case Ok(gs) =>
        match key(xs[|xs| - 1])
        case Err(e) => Err(e)
        case Ok(k) => Ok(AddTo(gs, k, xs[|xs| - 1]))
  }

  function GroupKeys<T, K>(gs: seq<(K, seq<T>)>): (ks: seq<K>)
    ensures |ks| == |gs| && forall i :: 0 <= i < |gs| ==> ks[i] == gs[i].0
  {
    if gs == [] then [] else [gs[0].0] + GroupKeys(gs[1..])
  }

  /** The group of key `k`, empty when there is none. */
  function GroupOf<T, K(==)>(gs: seq<(K, seq<T>)>, k: K): seq<T>
  {
    if gs == [] then [] else if gs[0].0 == k then gs[0].1 else GroupOf(gs[1..], k)
  }

  function TotalSize<T, K>(gs: seq<(K, seq<T>)>): nat
  {
    if gs == [] then 0 else |gs[0].1| + TotalSize(gs[1..])
  }

  predicate Distinct<K(==)>(ks: seq<K>)
  {
    forall i, j :: 0 <= i < j < |ks| ==> ks[i] != ks[j]
  }

  /** The distinct values of `ks`, each where it first occurs. */
  function FirstOccurrences<K(==)>(ks: seq<K>): seq<K>
    decreases |ks|
  {
    if ks == [] then []
    else
      var d := FirstOccurrences(ks[..|ks| - 1]);
      if ks[|ks| - 1] in d then d else d + [ks[|ks| - 1]]
  }

  /** The keys of the items, in order, when none of them raises. */
  function KeyValues<T, K>(xs: seq<T>, key: T -> Result<K>): seq<K>
    requires forall i :: 0 <= i < |xs| ==> key(xs[i]).Ok?
  {
    seq(|xs|, i requires 0 <= i < |xs| && key(xs[i]).Ok? => key(xs[i]).value)
  }

  lemma {:induction false} AddToFacts<T, K>(gs: seq<(K, seq<T>)>, k: K, x: T, q: K)
    ensures GroupKeys(AddTo(gs, k, x)) == if k in GroupKeys(gs) then GroupKeys(gs) else GroupKeys(gs) + [k]
    ensures GroupOf(AddTo(gs, k, x), q) == GroupOf(gs, q) + (if q == k then [x] else [])
    ensures TotalSize(AddTo(gs, k, x)) == TotalSize(gs) + 1
  {
    if gs != [] {
      assert GroupKeys(gs) == [gs[0].0] + GroupKeys(gs[1..]);
      if gs[0].0 != k {
        AddToFacts(gs[1..], k, x, q);
      }
    }
  }

  lemma {:induction false} GroupKeysIn<T, K>(gs: seq<(K, seq<T>)>, q: K)
    ensures q !in GroupKeys(gs) ==> GroupOf(gs, q) == []
  {
    if gs != [] {
      assert GroupKeys(gs) == [gs[0].0] + GroupKeys(gs[1..]);
      GroupKeysIn(gs[1..], q);
    }
  }

  /** The test "the key of the item is `q`" that groups are stated with. */
  function KeyIs<T, K(==)>(key: T -> Result<K>, q: K): T -> bool
  {
    x => key(x) == Ok(q)
  }

  /** `group_by` raises exactly when the key of some item raises. */
  lemma {:induction false} GroupedRaises<T, K>(xs: seq<T>, key: T -> Result<K>)
    ensures Grouped(xs, key).Err? <==> exists i :: 0 <= i < |xs| && key(xs[i]).Err?
    decreases |xs|
  {
    if xs != [] {
      var n := |xs| - 1;
      assert forall i :: 0 <= i < n ==> xs[..n][i] == xs[i];
      GroupedRaises(xs[..n], key);
    }
  }

  /** The groups are keyed by the distinct keys, in the order each key first occurs. */
  lemma {:induction false} GroupedKeys<T, K>(xs: seq<T>, key: T -> Result<K>)
    requires Grouped(xs, key).Ok?
    ensures forall i :: 0 <= i < |xs| ==> key(xs[i]).Ok?
    ensures GroupKeys(Grouped(xs, key).value) == FirstOccurrences(KeyValues(xs, key))
    decreases |xs|
  {
    GroupedRaises(xs, key);
    if xs != [] {
      var n := |xs| - 1;
      var init := xs[..n];
      assert forall i :: 0 <= i < n ==> init[i] == xs[i];
      GroupedKeys(init, key);
      var gs := Grouped(init, key).value;
      var k := key(xs[n]).value;
      assert Grouped(xs, key).value == AddTo(gs, k, xs[n]);
      AddToFacts(gs, k, xs[n], k);
      var ks := KeyValues(xs, key);
      assert ks[..n] == KeyValues(init, key);
      assert ks[n] == k;
    }
  }

  /** The group of `q` is the items whose key is `q`, in their original order. */
  lemma {:induction false} GroupedMembers<T, K>(xs: seq<T>, key: T -> Result<K>, q: K)
    requires Grouped(xs, key).Ok?
    ensures GroupOf(Grouped(xs, key).value, q) == Filter(xs, KeyIs(key, q))
    decreases |xs|
  {
    if xs != [] {
      var n := |xs| - 1;
      var init := xs[..n];
      assert xs == init + [xs[n]];
      GroupedMembers(init, key, q);
      FilterAppend(init, [xs[n]], KeyIs(key, q));
      AddToFacts(Grouped(init, key).value, key(xs[n]).value, xs[n], q);
    }
  }

  /** Every item lands in exactly one group: the sizes add up to the number of items. */
  lemma {:induction false} GroupedSize<T, K>(xs: seq<T>, key: T -> Result<K>)
    requires Grouped(xs, key).Ok?
    ensures TotalSize(Grouped(xs, key).value) == |xs|
    decreases |xs|
  {
    if xs != [] {
      var n := |xs| - 1;
      GroupedSize(xs[..n], key);
      AddToFacts(Grouped(xs[..n], key).value, key(xs[n]).value, xs[n], key(xs[n]).value);
    }
  }

  lemma {:induction false} FirstOccurrencesDistinct<K>(ks: seq<K>)
    ensures Distinct(FirstOccurrences(ks))
    ensures forall k :: k in FirstOccurrences(ks) <==> k in ks
    decreases |ks|
  {
    if ks != [] {
      var init := ks[..|ks| - 1];
      FirstOccurrencesDistinct(init);
      assert ks == init + [ks[|ks| - 1]];
    }
  }

  /** `Collection.group_by`: the loop that fills the `groups` dict. */
  method GroupBy<T, K(==)>(xs: seq<T>, key: T -> Result<K>) returns (r: Result<seq<(K, seq<T>)>>)
    ensures r == Grouped(xs, key)
  {
    var groups: seq<(K, seq<T>)> := [];
    for i := 0 to |xs|
      invariant Grouped(xs[..i], key) == Ok(groups)
    {
      assert xs[..i + 1][..i] == xs[..i];
      var k := key(xs[i]);
      if k.Err? {
        GroupedFails(xs, key, i + 1);
        return Err(k.error);
      }
      groups := AddTo(groups, k.value, xs[i]);
    }
    assert xs[..|xs|] == xs;
    r := Ok(groups);
  }

  /** Once a prefix raises, the whole sequence raises the same error. */
  lemma {:induction false} GroupedFails<T, K>(xs: seq<T>, key: T -> Result<K>, n: nat)
    requires n <= |xs| && Grouped(xs[..n], key).Err?
    ensures Grouped(xs, key) == Grouped(xs[..n], key)
    decreases |xs| - n
  {
    if n < |xs| {
      assert xs[..n + 1][..n] == xs[..n];
      GroupedFails(xs, key, n + 1);
    } else {
      assert xs[..n] == xs;
    }
  }

  // ----- slicing, ends, quantifiers, indexing -----

  /** A Python slice bound: negative counts from the end; out-of-range values are clamped. */
  function SliceIndex(n: int, len: nat): (i: nat)
    ensures i <= len
    ensures 0 <= n <= len ==> i == n
    ensures n > len ==> i == len
    ensures n < 0 ==> i == if len + n < 0 then 0 else len + n
  {
    if n < 0 then (if len + n < 0 then 0 else len + n) else if n > len then len else n
  }

  /** `items[:n]`. */
  function Take<T>(xs: seq<T>, n: int): seq<T>
  {
    xs[..SliceIndex(n, |xs|)]
  }

  /** `items[n:]`. */
  function Skip<T>(xs: seq<T>, n: int): seq<T>
  {
    xs[SliceIndex(n, |xs|)..]
  }

  /** `take(n)` and `skip(n)` split the items at the same place, for every `n`. */
  lemma TakeSkip<T>(xs: seq<T>, n: int)
    ensures Take(xs, n) + Skip(xs, n) == xs
    ensures 0 <= n ==> |Take(xs, n)| == if n < |xs| then n else |xs|
    ensures n >= |xs| ==> Take(xs, n) == xs && Skip(xs, n) == []
  {
    assert xs[..SliceIndex(n, |xs|)] + xs[SliceIndex(n, |xs|)..] == xs;
  }

  /** `first()`. */
  function First<T>(xs: seq<T>): (r: Option<T>)
    ensures r.None? <==> xs == []
    ensures r.Some? ==> r.value == xs[0]
  {
    if xs == [] then None else Some(xs[0])
  }

  /** `last()`: `items[-1]`. */
  function Last<T>(xs: seq<T>): (r: Option<T>)
    ensures r.None? <==> xs == []
    ensures r.Some? ==> r.value == xs[|xs| - 1]
  {
    if xs == [] then None else Some(Index(xs, -1).value)
  }

  /**
   * The scan of `any` (`b` false) or `all` (`b` true) is decided by `v`: some
   * item gives `v`, and every item before it gives `Ok(b)`, the result that
   * lets the scan go on.
   */
  predicate DecidedBy<T>(xs: seq<T>, p: T -> Result<bool>, b: bool, v: Result<bool>)
  {
    exists i :: 0 <= i < |xs| && p(xs[i]) == v && forall k :: 0 <= k < i ==> p(xs[k]) == Ok(b)
  }

  /**
   * `any(p(x) for x in xs)`, or non-emptiness when no predicate is given. The
   * scan stops at the first true result, so later items are never tested, and
   * an exception raised before that point propagates.
   */
  function AnyOf<T>(xs: seq<T>, p: Option<T -> Result<bool>>): (r: Result<bool>)
    ensures p.None? ==> r == Ok(|xs| > 0)
    ensures p.Some? ==> (r == Ok(false) <==> forall i :: 0 <= i < |xs| ==> p.value(xs[i]) == Ok(false))
    ensures p.Some? ==> (r == Ok(true) <==> DecidedBy(xs, p.value, false, Ok(true)))
    ensures p.Some? && r.Err? ==> DecidedBy(xs, p.value, false, r)
  {
    match p
    case None => Ok(|xs| > 0)
    case Some(f) => Exists(xs, f)
  }

  /** Python's `any`, scanning from the left with a predicate that may raise. */
  function Exists<T>(xs: seq<T>, p: T -> Result<bool>): (r: Result<bool>)
    ensures r == Ok(false) <==> forall i :: 0 <= i < |xs| ==> p(xs[i]) == Ok(false)
    ensures r == Ok(true) <==> DecidedBy(xs, p, false, Ok(true))
    ensures r.Err? ==> DecidedBy(xs, p, false, r)
  {
    if xs == [] then Ok(false)
    else
      match p(xs[0])
      case Err(e) =>
        assert p(xs[0]) == Err(e);
        Err(e)
      case Ok(b) =>
        if b then
          assert p(xs[0]) == Ok(true);
          Ok(true)
        else
          ShiftedScan(xs, p, false);
          Exists(xs[1..], p)
  }

  /** `all(p(x) for x in xs)`: true on no items; the scan stops at the first false result. */
  function AllOf<T>(xs: seq<T>, p: T -> Result<bool>): (r: Result<bool>)
    ensures r == Ok(true) <==> forall i :: 0 <= i < |xs| ==> p(xs[i]) == Ok(true)
    ensures r == Ok(false) <==> DecidedBy(xs, p, true, Ok(false))
    ensures r.Err? ==> DecidedBy(xs, p, true, r)
  {
    if xs == [] then Ok(true)
    else
      match p(xs[0])
      case Err(e) =>
        assert p(xs[0]) == Err(e);
        Err(e)
      case Ok(b) =>
        if !b then
          assert p(xs[0]) == Ok(false);
          Ok(false)
        else
          ShiftedScan(xs, p, true);
          AllOf(xs[1..], p)
  }

  /** When the first item lets the scan go on, what decides it is what decides the scan of the rest. */
  lemma ShiftedScan<T>(xs: seq<T>, p: T -> Result<bool>, b: bool)
    requires xs != [] && p(xs[0]) == Ok(b)
    ensures (forall i :: 0 <= i < |xs| ==> p(xs[i]) == Ok(b)) <==> (forall i :: 0 <= i < |xs[1..]| ==> p(xs[1..][i]) == Ok(b))
    ensures forall v :: v != Ok(b) ==> (DecidedBy(xs, p, b, v) <==> DecidedBy(xs[1..], p, b, v))
  {
    var tl := xs[1..];
    assert forall i :: 0 <= i < |tl| ==> tl[i] == xs[i + 1];
    forall v | v != Ok(b) ensures DecidedBy(xs, p, b, v) <==> DecidedBy(tl, p, b, v) {
      if DecidedBy(xs, p, b, v) {
        var i :| 0 <= i < |xs| && p(xs[i]) == v && forall k :: 0 <= k < i ==> p(xs[k]) == Ok(b);
        assert i > 0 && tl[i - 1] == xs[i];
        assert forall k :: 0 <= k < i - 1 ==> p(tl[k]) == Ok(b);
      }
      if DecidedBy(tl, p, b, v) {
        var i :| 0 <= i < |tl| && p(tl[i]) == v && forall k :: 0 <= k < i ==> p(tl[k]) == Ok(b);
        forall k | 0 <= k < i + 1 ensures p(xs[k]) == Ok(b) {
          if k > 0 { assert xs[k] == tl[k - 1]; }
        }
      }
    }
  }

  /** `any` stops at a true result: a later item whose predicate raises is never reached. */
  lemma AnyStopsAtTrue<T>(x: T, y: T, p: T -> Result<bool>, e: Error)
    requires p(x) == Ok(true) && p(y) == Err(e)
    ensures AnyOf([x, y], Some(p)) == Ok(true)
  {
  }

  /** `all` stops at a false result in the same way. */
  lemma AllStopsAtFalse<T>(x: T, y: T, p: T -> Result<bool>, e: Error)
    requires p(x) == Ok(false) && p(y) == Err(e)
    ensures AllOf([x, y], p) == Ok(false)
  {
  }

  /** `items[i]`: a negative index counts from the end; IndexError outside `-len <= i < len`. */
  function Index<T>(xs: seq<T>, i: int): (r: Result<T>)
    ensures r.Ok? <==> -|xs| <= i < |xs|
    ensures r.Err? ==> r.error == IndexError
    ensures 0 <= i < |xs| ==> r == Ok(xs[i])
    ensures -|xs| <= i < 0 ==> r == Ok(xs[|xs| + i])
  {
    if 0 <= i < |xs| then Ok(xs[i])
    else if -|xs| <= i < 0 then Ok(xs[|xs| + i])
    else Err(IndexError)
  }

  /** `[f(x) for x in xs]` with a function that cannot raise. */
  function Images<T, U>(xs: seq<T>, f: T -> U): (r: seq<U>)
    ensures |r| == |xs| && forall i :: 0 <= i < |xs| ==> r[i] == f(xs[i])
  {
    seq(|xs|, i requires 0 <= i < |xs| => f(xs[i]))
  }

  /** `map(func)`: the images in order; the first exception `func` raises propagates. */
  function MapItems<T, U>(xs: seq<T>, f: T -> Result<U>): (r: Result<seq<U>>)
    ensures r.Ok? <==> forall i :: 0 <= i < |xs| ==> f(xs[i]).Ok?
    ensures r.Ok? ==> |r.value| == |xs| && forall i :: 0 <= i < |xs| ==> f(xs[i]) == Ok(r.value[i])
    ensures r.Err? ==> exists i :: 0 <= i < |xs| && f(xs[i]) == Err(r.error) && forall k :: 0 <= k < i ==> f(xs[k]).Ok?
  {
    if xs == [] then Ok([])
    else
      assert forall i :: 1 <= i < |xs| ==> xs[i] == xs[1..][i - 1];
      match f(xs[0])
      case Err(e) => Err(e)
      case Ok(y) =>
        match MapItems(xs[1..], f)
        case Err(e) =>
          var i :| 0 <= i < |xs[1..]| && f(xs[1..][i]) == Err(e) && forall k :: 0 <= k < i ==> f(xs[1..][k]).Ok?;
          assert f(xs[i + 1]) == Err(e);
          Err(e)
        case Ok(ys) => Ok([y] + ys)
  }
}
