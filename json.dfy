// JSON values as Python's `json` module hands them over, and the few Python
// operators the core applies to them (truthiness, `len`, `dict.get`, `==`,
// `or 0`, `+`). Objects keep their insertion order, like Python dicts.
module Json {
  import opened Wrappers

  datatype Json =
    | JNull                              // Python None
    | JBool(b: bool)
    | JInt(i: int)
    | JStr(s: string)
    | JList(items: seq<Json>)
    | JObj(fields: seq<(string, Json)>)  // a dict, in insertion order

  /** A value cell as SQLite returns it: NULL, TEXT or BLOB. */
  datatype Cell = CellNull | CellText(text: string) | CellBytes(bytes: seq<bv8>)

  /** The library calls behind decoding: UTF-8 decoding and `json.loads`. */
  datatype Decoder = Decoder(utf8: seq<bv8> -> Option<string>, loads: string -> Option<Json>)

  /** Python truthiness of a JSON value. */
  predicate Truthy(j: Json)
  {
    match j
    case JNull => false
    case JBool(b) => b
    case JInt(i) => i != 0
    case JStr(s) => s != ""
    case JList(xs) => xs != []
    case JObj(fs) => fs != []
  }

  /** `len(j)`; values without a length raise TypeError. */
  function Len(j: Json): Result<nat>
  {
    match j
    case JStr(s) => Ok(|s|)
    case JList(xs) => Ok(|xs|)
    case JObj(fs) => Ok(|fs|)
    case _ => Err(TypeError)
  }

  /** For every value that has a length, truthiness is exactly `len(j) > 0`. */
  lemma LenAgreesWithTruthy(j: Json)
    ensures Len(j).Ok? <==> (j.JStr? || j.JList? || j.JObj?)
    ensures Len(j).Ok? ==> (Truthy(j) <==> Len(j).value > 0)
  {
  }

  // ----- dicts as ordered association lists -----

  function Keys<V>(fs: seq<(string, V)>): (ks: seq<string>)
    ensures |ks| == |fs|
    ensures forall i :: 0 <= i < |fs| ==> ks[i] == fs[i].0
  {
    if fs == [] then [] else [fs[0].0] + Keys(fs[1..])
  }

  predicate DistinctKeys<V>(fs: seq<(string, V)>)
  {
    forall i, j :: 0 <= i < j < |fs| ==> fs[i].0 != fs[j].0
  }

  /** `d[k]` when `k in d`, else None. */
  function Find<V>(fs: seq<(string, V)>, k: string): (r: Option<V>)
    ensures r.None? <==> k !in Keys(fs)
    ensures r.Some? ==> (k, r.value) in fs
  {
    if fs == [] then None
    else if fs[0].0 == k then Some(fs[0].1)
    else Find(fs[1..], k)
  }

  /** `d[k] = v`: an existing key keeps its position, a new key goes last. */
  function Put<V>(fs: seq<(string, V)>, k: string, v: V): (r: seq<(string, V)>)
  {
    if fs == [] then [(k, v)]
    else if fs[0].0 == k then [(k, v)] + fs[1..]
    else [fs[0]] + Put(fs[1..], k, v)
  }

  /** `d.pop(k)` on a present key, keeping only what remains. */
  function Remove<V>(fs: seq<(string, V)>, k: string): (r: seq<(string, V)>)
  {
    if fs == [] then []
    else if fs[0].0 == k then fs[1..]
    else [fs[0]] + Remove(fs[1..], k)
  }

  lemma RemoveStep<V>(fs: seq<(string, V)>, k: string)
    ensures Remove(fs, k) == if fs == [] then [] else if fs[0].0 == k then fs[1..] else [fs[0]] + Remove(fs[1..], k)
  {
  }

  lemma {:induction false} PutFind<V>(fs: seq<(string, V)>, k: string, v: V, q: string)
    ensures Find(Put(fs, k, v), q) == if q == k then Some(v) else Find(fs, q)
  {
    if fs != [] && fs[0].0 != k {
      PutFind(fs[1..], k, v, q);
    }
  }

  lemma {:induction false} PutKeys<V>(fs: seq<(string, V)>, k: string, v: V)
    ensures Keys(Put(fs, k, v)) == if k in Keys(fs) then Keys(fs) else Keys(fs) + [k]
  {
    if fs != [] && fs[0].0 != k {
      PutKeys(fs[1..], k, v);
      assert Keys(fs) == [fs[0].0] + Keys(fs[1..]);
    }
  }

  lemma {:induction false} RemoveFind<V>(fs: seq<(string, V)>, k: string, q: string)
    requires DistinctKeys(fs)
    ensures Find(Remove(fs, k), q) == if q == k then None else Find(fs, q)
  {
    if fs != [] {
      assert DistinctKeys(fs[1..]) by {
        forall i, j | 0 <= i < j < |fs[1..]| ensures fs[1..][i].0 != fs[1..][j].0 {
          assert fs[1..][i] == fs[i + 1] && fs[1..][j] == fs[j + 1];
        }
      }
      if fs[0].0 == k {
        if q == k {
          assert forall i :: 0 <= i < |fs[1..]| ==> fs[1..][i].0 != k by {
            forall i | 0 <= i < |fs[1..]| ensures fs[1..][i].0 != k {
              assert fs[1..][i] == fs[i + 1];
            }
          }
          assert k !in Keys(fs[1..]);
        }
      } else {
        RemoveFind(fs[1..], k, q);
      }
    }
  }

  lemma {:induction false} KeysAppend<V>(a: seq<(string, V)>, b: seq<(string, V)>)
    ensures Keys(a + b) == Keys(a) + Keys(b)
  {
    if a != [] {
      assert (a + b)[0] == a[0] && (a + b)[1..] == a[1..] + b;
      KeysAppend(a[1..], b);
    } else {
      assert a + b == b;
    }
  }

  lemma {:induction false} PutDistinct<V>(fs: seq<(string, V)>, k: string, v: V)
    requires DistinctKeys(fs)
    ensures DistinctKeys(Put(fs, k, v))
  {
    PutKeys(fs, k, v);
    var r := Put(fs, k, v);
    forall i, j | 0 <= i < j < |r| ensures r[i].0 != r[j].0 {
      assert Keys(r)[i] == r[i].0 && Keys(r)[j] == r[j].0;
      if k !in Keys(fs) {
        assert Keys(r) == Keys(fs) + [k];
        if j == |fs| {
          assert Keys(fs)[i] == r[i].0;
        } else {
          assert Keys(fs)[i] == fs[i].0 && Keys(fs)[j] == fs[j].0;
        }
      } else {
        assert Keys(fs)[i] == fs[i].0 && Keys(fs)[j] == fs[j].0;
      }
    }
  }

  lemma {:induction false} RemoveKeys<V>(fs: seq<(string, V)>, k: string, q: string)
    requires DistinctKeys(fs)
    ensures q in Keys(Remove(fs, k)) <==> q in Keys(fs) && q != k
    ensures DistinctKeys(Remove(fs, k))
  {
    hide Remove, Keys, Find, Put;
    RemoveStep(fs, k);
    if fs != [] {
      assert DistinctKeys(fs[1..]) by {
        forall i, j | 0 <= i < j < |fs[1..]| ensures fs[1..][i].0 != fs[1..][j].0 {
          assert fs[1..][i] == fs[i + 1] && fs[1..][j] == fs[j + 1];
        }
      }
      assert Keys(fs) == [fs[0].0] + Keys(fs[1..]);
      if fs[0].0 == k {
        forall i | 0 <= i < |fs[1..]| ensures fs[1..][i].0 != k {
          assert fs[1..][i] == fs[i + 1];
        }
      } else {
        RemoveKeys(fs[1..], k, q);
        var r := Remove(fs, k);
        assert r == [fs[0]] + Remove(fs[1..], k);
        assert Keys(r) == [fs[0].0] + Keys(Remove(fs[1..], k));
        forall i | 0 <= i < |Remove(fs[1..], k)| ensures Remove(fs[1..], k)[i].0 != fs[0].0 {
          var x := Remove(fs[1..], k)[i].0;
          assert x in Keys(Remove(fs[1..], k));
          RemoveKeys(fs[1..], k, x);
          assert x in Keys(fs[1..]);
          var m :| 0 <= m < |fs[1..]| && Keys(fs[1..])[m] == x;
          assert fs[1..][m] == fs[m + 1];
        }
        forall i, j | 0 <= i < j < |r| ensures r[i].0 != r[j].0 {
          if i > 0 {
            assert r[i] == Remove(fs[1..], k)[i - 1] && r[j] == Remove(fs[1..], k)[j - 1];
          } else {
            assert r[j] == Remove(fs[1..], k)[j - 1];
          }
        }
      }
    }
  }

  /** `j.get(k)`: None for a missing key, AttributeError when `j` is not a dict. */
  function Get(j: Json, k: string): (r: Result<Json>)
    ensures r.Ok? <==> j.JObj?
    ensures j.JObj? && k !in Keys(j.fields) ==> r == Ok(JNull)
    ensures j.JObj? && k in Keys(j.fields) ==> (k, r.value) in j.fields
  {
    match j
    case JObj(fs) => Ok(Find(fs, k).GetOr(JNull))
    case _ => Err(AttributeError)
  }

  /** Values that Python can put in a set or use as a dict key. */
  predicate Hashable(j: Json)
  {
    !j.JList? && !j.JObj?
  }

  /** `j == b` for a Python bool `b`: `bool` is a subclass of `int`, so `1 == True`. */
  predicate EqualsBool(j: Json, b: bool)
  {
    match j
    case JBool(c) => c == b
    case JInt(i) => i == (if b then 1 else 0)
    case _ => false
  }

  /** `(j or 0)` used as a number: a falsy value is 0, a truthy non-number raises TypeError. */
  function NumberOrZero(j: Json): (r: Result<int>)
    ensures !Truthy(j) ==> r == Ok(0)
    ensures j.JInt? ==> r == Ok(j.i)
    ensures r.Err? <==> Truthy(j) && (j.JStr? || j.JList? || j.JObj?)
  {
    if !Truthy(j) then Ok(0)
    else match j
      case JBool(b) => Ok(1)
      case JInt(i) => Ok(i)
      case _ => Err(TypeError)
  }

  /** `a + b`: numbers add (a bool counts as 0 or 1), strings and lists concatenate. */
  function Add(a: Json, b: Json): (r: Result<Json>)
    ensures a.JInt? && b.JInt? ==> r == Ok(JInt(a.i + b.i))
    ensures r.Err? <==> !(NumberLike(a) && NumberLike(b)) && !(a.JStr? && b.JStr?) && !(a.JList? && b.JList?)
  {
    if NumberLike(a) && NumberLike(b) then Ok(JInt(AsInt(a) + AsInt(b)))
    else if a.JStr? && b.JStr? then Ok(JStr(a.s + b.s))
    else if a.JList? && b.JList? then Ok(JList(a.items + b.items))
    else Err(TypeError)
  }

  predicate NumberLike(j: Json)
  {
    j.JInt? || j.JBool?
  }

  function AsInt(j: Json): int
    requires NumberLike(j)
  {
    if j.JInt? then j.i else if j.b then 1 else 0
  }
}
