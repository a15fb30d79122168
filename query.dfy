// `query.py`: the fluent query builders. A builder keeps a limit, an offset,
// an optional id narrowing the key selection and a list of predicates;
// `execute` fetches the items through the client, pages them and runs the
// predicates over them one after the other.
module Query {
  import opened Wrappers
  import opened Json
  import opened Naming
  import opened KeyPattern
  import opened Utils
  import opened Records
  import opened Groups
  import opened Tracking
  import opened Collections
  import opened DomainCollections
  import opened Client

  // ----- running the predicates -----

  /** Every predicate holds for `x`. */
  predicate Passes<T>(fs: seq<T -> Result<bool>>, x: T)
  {
    forall k :: 0 <= k < |fs| ==> fs[k](x) == Ok(true)
  }

  function PassesAll<T>(fs: seq<T -> Result<bool>>): T -> bool
  {
    x => Passes(fs, x)
  }

  /** `for f in filters: items = [x for x in items if f(x)]`; an exception ends the loop. */
  function Filtered<T>(xs: seq<T>, fs: seq<T -> Result<bool>>): Result<seq<T>>
    decreases |fs|
  {
    if fs == [] then Ok(xs)
    else
      match Filtered(xs, fs[..|fs| - 1])
      case Err(e) => Err(e)
      case Ok(ys) => TryFilter(ys, fs[|fs| - 1])
  }

  /** One list comprehension `[x for x in xs if p(x)]`. */
  method Comprehension<T>(xs: seq<T>, p: T -> Result<bool>) returns (r: Result<seq<T>>)
    ensures r == TryFilter(xs, p)
  {
    var kept := [];
    for i := 0 to |xs|
      invariant forall j :: 0 <= j < i ==> p(xs[j]).Ok?
      invariant kept == Filter(xs[..i], Holds(p))
    {
      var keep := p(xs[i]);
      if keep.Err? {
        var t := TryFilter(xs, p);
        var k :| 0 <= k < |xs| && p(xs[k]) == Err(t.error) && forall j :: 0 <= j < k ==> p(xs[j]).Ok?;
        assert k == i;
        return Err(keep.error);
      }
      assert xs[..i + 1] == xs[..i] + [xs[i]];
      FilterAppend(xs[..i], [xs[i]], Holds(p));
      FilterCons(xs[i], [], Holds(p));
      assert [xs[i]] + [] == [xs[i]];
      if keep.value {
        kept := kept + [xs[i]];
      }
    }
    assert xs[..|xs|] == xs;
    r := Ok(kept);
  }

  /** The predicate loop of every `execute`. */
  method ApplyFilters<T>(xs: seq<T>, fs: seq<T -> Result<bool>>) returns (r: Result<seq<T>>)
    ensures r == Filtered(xs, fs)
  {
    var items := xs;
    for i := 0 to |fs|
      invariant Filtered(xs, fs[..i]) == Ok(items)
    {
      assert fs[..i + 1][..i] == fs[..i] && fs[..i + 1][i] == fs[i];
      var next := Comprehension(items, fs[i]);
      if next.Err? {
        FilteredPrefixFails(xs, fs, i + 1);
        return next;
      }
      items := next.value;
    }
    assert fs[..|fs|] == fs;
    r := Ok(items);
  }

  /** Once a prefix of the predicates raises, so does the whole list, with the same error. */
  lemma {:induction false} FilteredPrefixFails<T>(xs: seq<T>, fs: seq<T -> Result<bool>>, k: nat)
    requires k <= |fs| && Filtered(xs, fs[..k]).Err?
    ensures Filtered(xs, fs) == Filtered(xs, fs[..k])
    decreases |fs|
  {
    if k == |fs| {
      assert fs[..k] == fs;
    } else {
      var n := |fs| - 1;
      assert fs[..n][..k] == fs[..k];
      FilteredPrefixFails(xs, fs[..n], k);
    }
  }

  /** The result is the items that satisfy every predicate, in their original order. */
  lemma {:induction false} FilteredKeeps<T>(xs: seq<T>, fs: seq<T -> Result<bool>>)
    requires Filtered(xs, fs).Ok?
    ensures Filtered(xs, fs).value == Filter(xs, PassesAll(fs))
    decreases |fs|
  {
    if fs == [] {
      FilterAll(xs, PassesAll(fs));
    } else {
      var n := |fs| - 1;
      var init := fs[..n];
      FilteredKeeps(xs, init);
      FilterTwice(xs, PassesAll(init), Holds(fs[n]));
      forall x | x in xs
        ensures Both(PassesAll(init), Holds(fs[n]))(x) == PassesAll(fs)(x)
      {
        assert forall k :: 0 <= k < n ==> init[k] == fs[k];
      }
      FilterSame(xs, Both(PassesAll(init), Holds(fs[n])), PassesAll(fs));
    }
  }

  /**
   * The loop raises exactly when some predicate raises on an item that
   * passed the predicates before it: a predicate never sees an item an
   * earlier one dropped.
   */
  lemma {:induction false} FilteredRaises<T>(xs: seq<T>, fs: seq<T -> Result<bool>>)
    ensures Filtered(xs, fs).Ok? <==>
              forall k, x :: 0 <= k < |fs| && x in Filter(xs, PassesAll(fs[..k])) ==> fs[k](x).Ok?
    decreases |fs|
  {
    hide Filtered, Filter, PassesAll, TryFilter;
    FilteredStep(xs, fs);
    if fs != [] {
      var n := |fs| - 1;
      var init := fs[..n];
      FilteredRaises(xs, init);
      assert fs[..n] == init;
      assert forall k :: 0 <= k < n ==> fs[..k] == init[..k] && init[k] == fs[k];
      var earlier := forall k, x :: 0 <= k < n && x in Filter(xs, PassesAll(fs[..k])) ==> fs[k](x).Ok?;
      var last := forall x :: x in Filter(xs, PassesAll(fs[..n])) ==> fs[n](x).Ok?;
      assert (forall k, x :: 0 <= k < |fs| && x in Filter(xs, PassesAll(fs[..k])) ==> fs[k](x).Ok?) <==> earlier && last;
      if Filtered(xs, init).Ok? {
        FilteredKeeps(xs, init);
        var ys := Filtered(xs, init).value;
        assert TryFilter(ys, fs[n]).Ok? <==> forall i :: 0 <= i < |ys| ==> fs[n](ys[i]).Ok?;
        assert (forall i :: 0 <= i < |ys| ==> fs[n](ys[i]).Ok?) <==> last;
      }
    }
  }

  lemma FilteredStep<T>(xs: seq<T>, fs: seq<T -> Result<bool>>)
    ensures fs == [] ==> Filtered(xs, fs) == Ok(xs)
    ensures fs != [] ==>
              Filtered(xs, fs) == match Filtered(xs, fs[..|fs| - 1])
                                  case Err(e) => Err(e)
                                  case Ok(ys) => TryFilter(ys, fs[|fs| - 1])
  {
  }

  /** Predicates that raise on none of the items keep the items satisfying all of them, in any registration order. */
  lemma FilteredTotal<T>(xs: seq<T>, fs: seq<T -> Result<bool>>)
    requires forall k, i :: 0 <= k < |fs| && 0 <= i < |xs| ==> fs[k](xs[i]).Ok?
    ensures Filtered(xs, fs) == Ok(Filter(xs, PassesAll(fs)))
  {
    FilteredRaises(xs, fs);
    forall k, x | 0 <= k < |fs| && x in Filter(xs, PassesAll(fs[..k])) ensures fs[k](x).Ok? {
      FilterMembers(xs, PassesAll(fs[..k]), x);
    }
    FilteredKeeps(xs, fs);
  }

  // ----- pagination of the tracking and session queries -----

  /** `items[offset:]` when the offset is positive, then `items[:limit]` when the limit is truthy. */
  function Paginated<T>(xs: seq<T>, offset: int, limit: Option<int>): seq<T>
  {
    var rest := if offset > 0 then Skip(xs, offset) else xs;
    if limit.Some? && limit.value != 0 then Take(rest, limit.value) else rest
  }

  /**
   * The page is one contiguous run of the items: it starts at the offset
   * (none when it is not positive), a positive limit caps its length, a
   * negative one leaves out that many items at the end.
   */
  lemma PaginatedSlice<T>(xs: seq<T>, offset: int, limit: Option<int>)
    ensures var start := if offset <= 0 then 0 else if offset < |xs| then offset else |xs|;
            var rest := |xs| - start;
            var count := if limit.None? || limit.value == 0 then rest
                         else if limit.value > 0 then (if limit.value < rest then limit.value else rest)
                         else (if rest + limit.value < 0 then 0 else rest + limit.value);
            Paginated(xs, offset, limit) == xs[start..start + count]
  {
  }

  /** With offset `o >= 0` and limit `L > 0` the page is `items[o:o+L]`, of length `min(L, max(0, N - o))`. */
  lemma PageLength<T>(xs: seq<T>, o: int, l: int)
    requires o >= 0 && l > 0
    ensures |Paginated(xs, o, Some(l))| == (if |xs| - o <= 0 then 0 else if l < |xs| - o then l else |xs| - o)
    ensures o <= |xs| ==> Paginated(xs, o, Some(l)) == xs[o..if o + l < |xs| then o + l else |xs|]
  {
    PaginatedSlice(xs, o, Some(l));
  }

  /** `page(p, s)` and `page(p + 1, s)` together are the page of twice the size starting where page `p` does. */
  lemma PagesAdjacent<T>(xs: seq<T>, p: int, s: int)
    requires p >= 1 && s > 0
    ensures Paginated(xs, (p - 1) * s, Some(s)) + Paginated(xs, p * s, Some(s)) == Paginated(xs, (p - 1) * s, Some(2 * s))
  {
    var o := (p - 1) * s;
    assert p * s == o + s;
    WindowsAdjacent(xs, o, s);
  }

  lemma WindowsAdjacent<T>(xs: seq<T>, o: int, s: int)
    requires o >= 0 && s > 0
    ensures Paginated(xs, o, Some(s)) + Paginated(xs, o + s, Some(s)) == Paginated(xs, o, Some(2 * s))
  {
    hide *;
    PageLength(xs, o, s);
    PageLength(xs, o + s, s);
    PageLength(xs, o, 2 * s);
    if o < |xs| {
      var b := if o + s < |xs| then o + s else |xs|;
      var c := if o + 2 * s < |xs| then o + 2 * s else |xs|;
      assert xs[o..b] + xs[b..c] == xs[o..c];
    }
  }

  // ----- the builder state -----

  /**
   * `BaseQuery` and its subclasses' id field (`_bubble_id` of the bubble,
   * checkpoint and message-context queries, `_composer_id` of the
   * composer-data query; the session and tracking queries have none).
   */
  class BaseQuery<T> {
    const client: CursorDataClient
    var limit: Option<int>
    var offset: int
    var filters: seq<T -> Result<bool>>
    var id: Option<string>

    /** `QueryBuilder.bubbles()` and its siblings: no limit, offset 0, no predicates, no id. */
    constructor(client: CursorDataClient)
      ensures this.client == client
      ensures limit == None && offset == 0 && filters == [] && id == None
    {
      this.client := client;
      limit := None;
      offset := 0;
      filters := [];
      id := None;
    }

    /** `limit(n)`: stores `n` as given, 0 and negatives included. */
    method Limit(n: int) returns (self: BaseQuery<T>)
      modifies this
      ensures self == this
      ensures limit == Some(n) && offset == old(offset) && filters == old(filters) && id == old(id)
    {
      limit := Some(n);
      self := this;
    }

    /** `offset(n)`: stores `n` as given. */
    method Offset(n: int) returns (self: BaseQuery<T>)
      modifies this
      ensures self == this
      ensures offset == n && limit == old(limit) && filters == old(filters) && id == old(id)
    {
      offset := n;
      self := this;
    }

    /** `page(p, s)`: pages are numbered from 1; page 0 or below gives a non-positive offset. */
    method Page(pageNum: int, pageSize: int) returns (self: BaseQuery<T>)
      modifies this
      ensures self == this
      ensures offset == (pageNum - 1) * pageSize && limit == Some(pageSize)
      ensures filters == old(filters) && id == old(id)
    {
      offset := (pageNum - 1) * pageSize;
      limit := Some(pageSize);
      self := this;
    }

    /** `filter(predicate)`: one more predicate, after those already registered. */
    method Filter(p: T -> Result<bool>) returns (self: BaseQuery<T>)
      modifies this
      ensures self == this
      ensures filters == old(filters) + [p]
      ensures limit == old(limit) && offset == old(offset) && id == old(id)
    {
      filters := filters + [p];
      self := this;
    }

    /** `filter_by_bubble_id` / `filter_by_composer_id`. */
    method FilterById(id: string) returns (self: BaseQuery<T>)
      modifies this
      ensures self == this
      ensures this.id == Some(id)
      ensures limit == old(limit) && offset == old(offset) && filters == old(filters)
    {
      this.id := Some(id);
      self := this;
    }
  }

  // ----- `where` criteria -----

  /** The one predicate of a criterion group, when the group is given. */
  function When<T>(given: bool, p: T -> Result<bool>): seq<T -> Result<bool>>
  {
    if given then [p] else []
  }

  function Count(given: bool): nat
  {
    if given then 1 else 0
  }

  /** No predicate of the list raises on `x`. */
  predicate Total<T>(fs: seq<T -> Result<bool>>, x: T)
  {
    forall k :: 0 <= k < |fs| ==> fs[k](x).Ok?
  }

  /** A given group's predicate holds; an absent group asks nothing. */
  lemma PassesWhen<T>(given: bool, p: T -> Result<bool>, x: T)
    ensures Passes(When(given, p), x) <==> (given ==> p(x) == Ok(true))
    ensures Total(When(given, p), x) <==> (given ==> p(x).Ok?)
  {
    if given {
      var fs := When(given, p);
      assert fs == [p] && fs[0] == p;
      assert Passes(fs, x) ==> fs[0](x) == Ok(true);
      assert Total(fs, x) ==> fs[0](x).Ok?;
    }
  }

  /** All of two predicate lists hold exactly when each list does. */
  lemma PassesAppend<T>(a: seq<T -> Result<bool>>, b: seq<T -> Result<bool>>, x: T)
    ensures Passes(a + b, x) <==> Passes(a, x) && Passes(b, x)
    ensures Total(a + b, x) <==> Total(a, x) && Total(b, x)
  {
    assert forall k :: 0 <= k < |a| ==> (a + b)[k] == a[k];
    assert forall k :: 0 <= k < |b| ==> (a + b)[|a| + k] == b[k];
  }

  /**
   * The arguments of `BubbleQuery.where`. The `date_filter` closure is taken
   * as given: it is present exactly when either date bound is set.
   */
  datatype BubbleCriteria = BubbleCriteria(
    dateFilter: Option<Record -> Result<bool>>,
    modelName: Option<string>,
    minInputTokens: Option<int>, minOutputTokens: Option<int>,
    hasCodeBlocks: Option<bool>, hasDiffs: Option<bool>, hasLintErrors: Option<bool>,
    isAgentic: Option<bool>)

  const CodeBlockFields := ["suggested_code_blocks"]
  const DiffFields := ["assistant_suggested_diffs", "diffs_since_last_apply"]
  const LintErrorFields := ["lints", "multi_file_linter_errors"]

  /** `model_filter`: `conv.model_name == model_name`. */
  function ModelIs(name: string): Record -> Result<bool>
  {
    EqualTo(ModelName, JStr(name))
  }

  /** `token_filter`: each given minimum is met by the count, a missing count being 0. */
  function TokensFilter(minInput: Option<int>, minOutput: Option<int>): Record -> Result<bool>
  {
    b => TokensAtLeast(b, minInput, minOutput)
  }

  /** `code_filter`, `diff_filter`, `lint_filter`: whether one of the lists is non-empty equals the flag. */
  function PresenceIs(names: seq<string>, flag: bool): Record -> Result<bool>
  {
    b => match AnyNonEmpty(Fields(b, names)) case Err(e) => Err(e) case Ok(has) => Ok(has == flag)
  }

  /** `agentic_filter`: `conv.is_agentic == is_agentic`. */
  function AgenticIs(flag: bool): Record -> Result<bool>
  {
    b => Ok(EqualsBool(Field(b, "is_agentic"), flag))
  }

  /** The predicates `BubbleQuery.where` registers, in its order. */
  function BubbleFilters(c: BubbleCriteria): seq<Record -> Result<bool>>
  {
    (if c.dateFilter.Some? then [c.dateFilter.value] else [])
    + When(IdGiven(c.modelName), ModelIs(c.modelName.GetOr("")))
    + When(c.minInputTokens.Some? || c.minOutputTokens.Some?, TokensFilter(c.minInputTokens, c.minOutputTokens))
    + When(c.hasCodeBlocks.Some?, PresenceIs(CodeBlockFields, c.hasCodeBlocks.GetOr(false)))
    + When(c.hasDiffs.Some?, PresenceIs(DiffFields, c.hasDiffs.GetOr(false)))
    + When(c.hasLintErrors.Some?, PresenceIs(LintErrorFields, c.hasLintErrors.GetOr(false)))
    + When(c.isAgentic.Some?, AgenticIs(c.isAgentic.GetOr(false)))
  }

  /**
   * One predicate per criterion group: the dates share one, the token
   * minimums share one, a flag counts when it is given (False included),
   * the model name only when it is non-empty.
   */
  lemma BubbleFiltersCount(c: BubbleCriteria)
    ensures |BubbleFilters(c)| == Count(c.dateFilter.Some?) + Count(IdGiven(c.modelName))
                                 + Count(c.minInputTokens.Some? || c.minOutputTokens.Some?)
                                 + Count(c.hasCodeBlocks.Some?) + Count(c.hasDiffs.Some?)
                                 + Count(c.hasLintErrors.Some?) + Count(c.isAgentic.Some?)
  {
  }

  /** A bubble passes the `where` predicates exactly when it meets every given criterion. */
  lemma BubbleCriteriaMet(c: BubbleCriteria, b: Record)
    ensures Passes(BubbleFilters(c), b) <==>
              (c.dateFilter.Some? ==> c.dateFilter.value(b) == Ok(true))
              && (IdGiven(c.modelName) ==> ModelName(b) == Ok(JStr(c.modelName.value)))
              && TokensAtLeast(b, c.minInputTokens, c.minOutputTokens) == Ok(true)
              && (c.hasCodeBlocks.Some? ==> AnyNonEmpty(Fields(b, CodeBlockFields)) == Ok(c.hasCodeBlocks.value))
              && (c.hasDiffs.Some? ==> AnyNonEmpty(Fields(b, DiffFields)) == Ok(c.hasDiffs.value))
              && (c.hasLintErrors.Some? ==> AnyNonEmpty(Fields(b, LintErrorFields)) == Ok(c.hasLintErrors.value))
              && (c.isAgentic.Some? ==> EqualsBool(Field(b, "is_agentic"), c.isAgentic.value))
  {
    hide *;
    BubbleFiltersIs(c);
    var d := if c.dateFilter.Some? then [c.dateFilter.value] else [];
    var m := When(IdGiven(c.modelName), ModelIs(c.modelName.GetOr("")));
    var t := When(c.minInputTokens.Some? || c.minOutputTokens.Some?, TokensFilter(c.minInputTokens, c.minOutputTokens));
    var cb := When(c.hasCodeBlocks.Some?, PresenceIs(CodeBlockFields, c.hasCodeBlocks.GetOr(false)));
    var df := When(c.hasDiffs.Some?, PresenceIs(DiffFields, c.hasDiffs.GetOr(false)));
    var lt := When(c.hasLintErrors.Some?, PresenceIs(LintErrorFields, c.hasLintErrors.GetOr(false)));
    var ag := When(c.isAgentic.Some?, AgenticIs(c.isAgentic.GetOr(false)));
    DateGroup(c.dateFilter, b);
    ModelGroup(c.modelName, b);
    TokenGroup(c.minInputTokens, c.minOutputTokens, b);
    PresenceGroup(CodeBlockFields, c.hasCodeBlocks, b);
    PresenceGroup(DiffFields, c.hasDiffs, b);
    PresenceGroup(LintErrorFields, c.hasLintErrors, b);
    AgenticGroup(c.isAgentic, b);
    PassesAppend(d + m + t + cb + df + lt, ag, b);
    PassesAppend(d + m + t + cb + df, lt, b);
    PassesAppend(d + m + t + cb, df, b);
    PassesAppend(d + m + t, cb, b);
    PassesAppend(d + m, t, b);
    PassesAppend(d, m, b);
  }

  lemma DateGroup(f: Option<Record -> Result<bool>>, b: Record)
    ensures Passes(if f.Some? then [f.value] else [], b) <==> (f.Some? ==> f.value(b) == Ok(true))
  {
    if f.Some? {
      PassesWhen(true, f.value, b);
    }
  }

  lemma ModelGroup(name: Option<string>, b: Record)
    ensures Passes(When(IdGiven(name), ModelIs(name.GetOr(""))), b) <==> (IdGiven(name) ==> ModelName(b) == Ok(JStr(name.value)))
  {
    PassesWhen(IdGiven(name), ModelIs(name.GetOr("")), b);
  }

  lemma TokenGroup(minInput: Option<int>, minOutput: Option<int>, b: Record)
    ensures Passes(When(minInput.Some? || minOutput.Some?, TokensFilter(minInput, minOutput)), b)
        <==> TokensAtLeast(b, minInput, minOutput) == Ok(true)
  {
    PassesWhen(minInput.Some? || minOutput.Some?, TokensFilter(minInput, minOutput), b);
  }

  lemma PresenceGroup(names: seq<string>, flag: Option<bool>, b: Record)
    ensures Passes(When(flag.Some?, PresenceIs(names, flag.GetOr(false))), b)
        <==> (flag.Some? ==> AnyNonEmpty(Fields(b, names)) == Ok(flag.value))
  {
    PassesWhen(flag.Some?, PresenceIs(names, flag.GetOr(false)), b);
  }

  lemma AgenticGroup(flag: Option<bool>, b: Record)
    ensures Passes(When(flag.Some?, AgenticIs(flag.GetOr(false))), b) <==> (flag.Some? ==> EqualsBool(Field(b, "is_agentic"), flag.value))
  {
    PassesWhen(flag.Some?, AgenticIs(flag.GetOr(false)), b);
  }

  /** `if <group given>: self.filter(<its predicate>)`. */
  method RegisterIf<T>(q: BaseQuery<T>, given: bool, p: T -> Result<bool>)
    modifies q
    ensures q.filters == old(q.filters) + When(given, p)
    ensures q.limit == old(q.limit) && q.offset == old(q.offset) && q.id == old(q.id)
  {
    if given {
      var _ := q.Filter(p);
    }
  }

  lemma Assoc<T>(a: seq<T>, b: seq<T>, c: seq<T>)
    ensures a + b + c == a + (b + c)
  {
  }

  /** `BubbleQuery.where`. */
  method WhereBubbles(q: BaseQuery<Record>, c: BubbleCriteria)
    modifies q
    ensures q.filters == old(q.filters) + BubbleFilters(c)
    ensures q.limit == old(q.limit) && q.offset == old(q.offset) && q.id == old(q.id)
  {
    hide *;
    ghost var start := q.filters;
    var d := When(c.dateFilter.Some?, c.dateFilter.GetOr(_ => Ok(true)));
    var m := When(IdGiven(c.modelName), ModelIs(c.modelName.GetOr("")));
    var t := When(c.minInputTokens.Some? || c.minOutputTokens.Some?, TokensFilter(c.minInputTokens, c.minOutputTokens));
    var cb := When(c.hasCodeBlocks.Some?, PresenceIs(CodeBlockFields, c.hasCodeBlocks.GetOr(false)));
    var df := When(c.hasDiffs.Some?, PresenceIs(DiffFields, c.hasDiffs.GetOr(false)));
    var lt := When(c.hasLintErrors.Some?, PresenceIs(LintErrorFields, c.hasLintErrors.GetOr(false)));
    RegisterIf(q, c.dateFilter.Some?, c.dateFilter.GetOr(_ => Ok(true)));
    RegisterIf(q, IdGiven(c.modelName), ModelIs(c.modelName.GetOr("")));
    Assoc(start, d, m);
    RegisterIf(q, c.minInputTokens.Some? || c.minOutputTokens.Some?, TokensFilter(c.minInputTokens, c.minOutputTokens));
    Assoc(start, d + m, t);
    RegisterIf(q, c.hasCodeBlocks.Some?, PresenceIs(CodeBlockFields, c.hasCodeBlocks.GetOr(false)));
    Assoc(start, d + m + t, cb);
    RegisterIf(q, c.hasDiffs.Some?, PresenceIs(DiffFields, c.hasDiffs.GetOr(false)));
    Assoc(start, d + m + t + cb, df);
    RegisterIf(q, c.hasLintErrors.Some?, PresenceIs(LintErrorFields, c.hasLintErrors.GetOr(false)));
    Assoc(start, d + m + t + cb + df, lt);
    RegisterIf(q, c.isAgentic.Some?, AgenticIs(c.isAgentic.GetOr(false)));
    Assoc(start, d + m + t + cb + df + lt, When(c.isAgentic.Some?, AgenticIs(c.isAgentic.GetOr(false))));
    BubbleFiltersIs(c);
    OptionListIs(c.dateFilter);
  }

  lemma OptionListIs<T>(o: Option<T -> Result<bool>>)
    ensures (if o.Some? then [o.value] else []) == When(o.Some?, o.GetOr(_ => Ok(true)))
  {
  }

  lemma BubbleFiltersIs(c: BubbleCriteria)
    ensures BubbleFilters(c) ==
              (if c.dateFilter.Some? then [c.dateFilter.value] else [])
              + When(IdGiven(c.modelName), ModelIs(c.modelName.GetOr("")))
              + When(c.minInputTokens.Some? || c.minOutputTokens.Some?, TokensFilter(c.minInputTokens, c.minOutputTokens))
              + When(c.hasCodeBlocks.Some?, PresenceIs(CodeBlockFields, c.hasCodeBlocks.GetOr(false)))
              + When(c.hasDiffs.Some?, PresenceIs(DiffFields, c.hasDiffs.GetOr(false)))
              + When(c.hasLintErrors.Some?, PresenceIs(LintErrorFields, c.hasLintErrors.GetOr(false)))
              + When(c.isAgentic.Some?, AgenticIs(c.isAgentic.GetOr(false)))
  {
  }

  /** The arguments of `ComposerSessionQuery.where`. */
  datatype SessionCriteria = SessionCriteria(fileExtension: Option<string>, minFiles: Option<int>, maxFiles: Option<int>)

  /** The predicates `ComposerSessionQuery.where` registers; neither can raise. */
  function SessionFilters(c: SessionCriteria): seq<ComposerSession -> Result<bool>>
  {
    When(IdGiven(c.fileExtension), Lift(HasExtension(JStr(c.fileExtension.GetOr("")))))
    + When(c.minFiles.Some? || c.maxFiles.Some?, Lift(FileCountWithin(c.minFiles, c.maxFiles)))
  }

  /** A session passes exactly when it touched the extension (if one is given) and its file count is within the bounds. */
  lemma SessionCriteriaMet(c: SessionCriteria, s: ComposerSession)
    ensures |SessionFilters(c)| == Count(IdGiven(c.fileExtension)) + Count(c.minFiles.Some? || c.maxFiles.Some?)
    ensures Total(SessionFilters(c), s)
    ensures Passes(SessionFilters(c), s) <==>
              (IdGiven(c.fileExtension) ==> JStr(c.fileExtension.value) in s.fileExtensions)
              && (c.minFiles.Some? ==> |s.filesModified| >= c.minFiles.value)
              && (c.maxFiles.Some? ==> |s.filesModified| <= c.maxFiles.value)
  {
    var e := When(IdGiven(c.fileExtension), Lift(HasExtension(JStr(c.fileExtension.GetOr("")))));
    var n := When(c.minFiles.Some? || c.maxFiles.Some?, Lift(FileCountWithin(c.minFiles, c.maxFiles)));
    PassesWhen(IdGiven(c.fileExtension), Lift(HasExtension(JStr(c.fileExtension.GetOr("")))), s);
    PassesWhen(c.minFiles.Some? || c.maxFiles.Some?, Lift(FileCountWithin(c.minFiles, c.maxFiles)), s);
    PassesAppend(e, n, s);
  }

  /** `ComposerSessionQuery.where`. */
  method WhereSessions(q: BaseQuery<ComposerSession>, c: SessionCriteria)
    modifies q
    ensures q.filters == old(q.filters) + SessionFilters(c)
    ensures q.limit == old(q.limit) && q.offset == old(q.offset) && q.id == old(q.id)
  {
    RegisterIf(q, IdGiven(c.fileExtension), Lift(HasExtension(JStr(c.fileExtension.GetOr("")))));
    RegisterIf(q, c.minFiles.Some? || c.maxFiles.Some?, Lift(FileCountWithin(c.minFiles, c.maxFiles)));
  }

  /** The arguments of `TrackingQuery.where`. */
  datatype TrackingCriteria = TrackingCriteria(source: Option<string>, fileExtension: Option<string>, composerId: Option<string>)

  /** The predicates `TrackingQuery.where` registers: an equality on a metadata attribute per non-empty argument. */
  function TrackingFilters(c: TrackingCriteria): seq<TrackingEntry -> Result<bool>>
  {
    When(IdGiven(c.source), EqualTo(EntrySource, JStr(c.source.GetOr(""))))
    + When(IdGiven(c.fileExtension), EqualTo(EntryFileExtension, JStr(c.fileExtension.GetOr(""))))
    + When(IdGiven(c.composerId), EqualTo(EntryComposerId, JStr(c.composerId.GetOr(""))))
  }

  /**
   * An entry passes exactly when each non-empty argument equals the
   * attribute; any predicate raises on an entry whose metadata is not a dict.
   */
  lemma TrackingCriteriaMet(c: TrackingCriteria, e: TrackingEntry)
    ensures |TrackingFilters(c)| == Count(IdGiven(c.source)) + Count(IdGiven(c.fileExtension)) + Count(IdGiven(c.composerId))
    ensures TrackingFilters(c) != [] ==> (Total(TrackingFilters(c), e) <==> e.metadata.JObj?)
    ensures Passes(TrackingFilters(c), e) <==>
              (IdGiven(c.source) ==> EntrySource(e) == Ok(JStr(c.source.value)))
              && (IdGiven(c.fileExtension) ==> EntryFileExtension(e) == Ok(JStr(c.fileExtension.value)))
              && (IdGiven(c.composerId) ==> EntryComposerId(e) == Ok(JStr(c.composerId.value)))
  {
    var a := When(IdGiven(c.source), EqualTo(EntrySource, JStr(c.source.GetOr(""))));
    var b := When(IdGiven(c.fileExtension), EqualTo(EntryFileExtension, JStr(c.fileExtension.GetOr(""))));
    var d := When(IdGiven(c.composerId), EqualTo(EntryComposerId, JStr(c.composerId.GetOr(""))));
    PassesWhen(IdGiven(c.source), EqualTo(EntrySource, JStr(c.source.GetOr(""))), e);
    PassesWhen(IdGiven(c.fileExtension), EqualTo(EntryFileExtension, JStr(c.fileExtension.GetOr(""))), e);
    PassesWhen(IdGiven(c.composerId), EqualTo(EntryComposerId, JStr(c.composerId.GetOr(""))), e);
    PassesAppend(a + b, d, e);
    PassesAppend(a, b, e);
    EqualToOk(EntrySource, JStr(c.source.GetOr("")), e);
    EqualToOk(EntryFileExtension, JStr(c.fileExtension.GetOr("")), e);
    EqualToOk(EntryComposerId, JStr(c.composerId.GetOr("")), e);
  }

  lemma EqualToOk<T>(attr: T -> Result<Json>, v: Json, x: T)
    ensures EqualTo(attr, v)(x).Ok? <==> attr(x).Ok?
  {
  }

  /** `TrackingQuery.where`. */
  method WhereTracking(q: BaseQuery<TrackingEntry>, c: TrackingCriteria)
    modifies q
    ensures q.filters == old(q.filters) + TrackingFilters(c)
    ensures q.limit == old(q.limit) && q.offset == old(q.offset) && q.id == old(q.id)
  {
    ghost var start := q.filters;
    RegisterIf(q, IdGiven(c.source), EqualTo(EntrySource, JStr(c.source.GetOr(""))));
    RegisterIf(q, IdGiven(c.fileExtension), EqualTo(EntryFileExtension, JStr(c.fileExtension.GetOr(""))));
    RegisterIf(q, IdGiven(c.composerId), EqualTo(EntryComposerId, JStr(c.composerId.GetOr(""))));
  }

  // ----- `execute` -----

  const BubblePrefix := "bubbleId:"
  const CheckpointPrefix := "checkpointId:"
  const CheckpointPattern := "checkpointId:{bubble_id}:{checkpoint_id}"
  const ContextPrefix := "messageRequestContext:"
  const ComposerDataPrefix := "composerData:"

  /** A `from_dict` that raises makes the factory raise. */
  function Produced(r: Result<Record>): Result<Option<Record>>
  {
    match r case Ok(x) => Ok(Some(x)) case Err(e) => Err(e)
  }

  /** The factory of `BubbleQuery.execute`: the key parts supply the two ids. */
  function BubbleFactory(): Factory<Record>
  {
    (data, parts) => Produced(BubbleOf(data, PartOf(parts, "bubble_id"), PartOf(parts, "conversation_id")))
  }

  /** The factories of the other record queries: `from_dict(data)`, the key parts unused. */
  function PlainFactory(kind: Kind): Factory<Record>
    requires kind != Bubble
  {
    (data, parts) => Produced(PlainFromDict(kind, data))
  }

  /** The factory of `ComposerDataQuery.execute`. */
  function ComposerDataFactory(): Factory<Record>
  {
    PlainFactory(ComposerData)
  }

  /** `BubbleQuery.execute`: the window goes to SQL, the predicates run afterwards. */
  method ExecuteBubbles(q: BaseQuery<Record>) returns (r: Result<seq<Record>>)
    modifies q.client
    ensures q.client.Reused()
    ensures r == Filtered(DiskRecords(q.client.store, q.client.dec, BubblePrefix, BubbleFactory(), Some(BubblePattern),
                                      q.id, q.limit, q.offset, false), q.filters)
  {
    hide *;
    var bubbles := q.client.QueryDiskKV(BubblePrefix, BubbleFactory(), Some(BubblePattern), q.id, q.limit, q.offset, false);
    r := ApplyFilters(bubbles, q.filters);
  }

  /** `CheckpointQuery.execute`. */
  method ExecuteCheckpoints(q: BaseQuery<Record>) returns (r: Result<seq<Record>>)
    modifies q.client
    ensures q.client.Reused()
    ensures r == Filtered(DiskRecords(q.client.store, q.client.dec, CheckpointPrefix, PlainFactory(Checkpoint), Some(CheckpointPattern),
                                      q.id, q.limit, q.offset, false), q.filters)
  {
    hide *;
    var checkpoints := q.client.QueryDiskKV(CheckpointPrefix, PlainFactory(Checkpoint), Some(CheckpointPattern), q.id, q.limit, q.offset, false);
    r := ApplyFilters(checkpoints, q.filters);
  }

  /** `MessageContextQuery.execute`: no key pattern. */
  method ExecuteMessageContexts(q: BaseQuery<Record>) returns (r: Result<seq<Record>>)
    modifies q.client
    ensures q.client.Reused()
    ensures r == Filtered(DiskRecords(q.client.store, q.client.dec, ContextPrefix, PlainFactory(MessageRequestContext), None,
                                      q.id, q.limit, q.offset, false), q.filters)
  {
    hide *;
    var contexts := q.client.QueryDiskKV(ContextPrefix, PlainFactory(MessageRequestContext), None, q.id, q.limit, q.offset, false);
    r := ApplyFilters(contexts, q.filters);
  }

  /** `ComposerDataQuery.execute`: an exact key match exactly when a composer id was set. */
  method ExecuteComposerData(q: BaseQuery<Record>) returns (r: Result<seq<Record>>)
    modifies q.client
    ensures q.client.Reused()
    ensures r == Filtered(DiskRecords(q.client.store, q.client.dec, ComposerDataPrefix, ComposerDataFactory(), None,
                                      q.id, q.limit, q.offset, q.id.Some?), q.filters)
  {
    hide *;
    var data := q.client.QueryDiskKV(ComposerDataPrefix, ComposerDataFactory(), None, q.id, q.limit, q.offset, q.id.Some?);
    r := ApplyFilters(data, q.filters);
  }

  /** What `ComposerSessionQuery.execute` returns for the stored entries. */
  function SessionResults(es: seq<TrackingEntry>, offset: int, limit: Option<int>, fs: seq<ComposerSession -> Result<bool>>)
    : Result<seq<ComposerSession>>
  {
    match ComposerSessions(es)
    case Err(e) => Err(e)
    case Ok(ss) => Filtered(Paginated(ss, offset, limit), fs)
  }

  /** `ComposerSessionQuery.execute`: group, build, page, then run the predicates. */
  method ExecuteSessions(q: BaseQuery<ComposerSession>) returns (r: Result<seq<ComposerSession>>)
    modifies q.client
    ensures q.client.Reused()
    ensures r == SessionResults(TrackingEntries(StoredJson(q.client.store, q.client.dec, TrackingLinesKey)), q.offset, q.limit, q.filters)
  {
    var entries := q.client.GetTrackingEntries();
    var built := GroupSessions(entries);
    if built.Err? {
      return Err(built.error);
    }
    var sessions := built.value;
    if q.offset > 0 {
      sessions := sessions[SliceIndex(q.offset, |sessions|)..];
    }
    if q.limit.Some? && q.limit.value != 0 {
      sessions := sessions[..SliceIndex(q.limit.value, |sessions|)];
    }
    r := ApplyFilters(sessions, q.filters);
  }

  /** A session query with no window and no predicates returns what `get_composer_sessions` does. */
  lemma PlainSessionQuery(es: seq<TrackingEntry>)
    ensures SessionResults(es, 0, None, []) == ComposerSessions(es)
  {
  }

  /** What `TrackingQuery.execute` returns for the stored entries. */
  function TrackingResults(es: seq<TrackingEntry>, offset: int, limit: Option<int>, fs: seq<TrackingEntry -> Result<bool>>)
    : Result<seq<TrackingEntry>>
  {
    Filtered(Paginated(es, offset, limit), fs)
  }

  /** `TrackingQuery.execute`: page, then run the predicates. */
  method ExecuteTracking(q: BaseQuery<TrackingEntry>) returns (r: Result<seq<TrackingEntry>>)
    modifies q.client
    ensures q.client.Reused()
    ensures r == TrackingResults(TrackingEntries(StoredJson(q.client.store, q.client.dec, TrackingLinesKey)), q.offset, q.limit, q.filters)
  {
    var entries := q.client.GetTrackingEntries();
    if q.offset > 0 {
      entries := entries[SliceIndex(q.offset, |entries|)..];
    }
    if q.limit.Some? && q.limit.value != 0 {
      entries := entries[..SliceIndex(q.limit.value, |entries|)];
    }
    r := ApplyFilters(entries, q.filters);
  }

  /** With offset `o >= 0`, limit `L > 0` and no predicates, the tracking query returns `entries[o:o+L]`. */
  lemma TrackingWindow(es: seq<TrackingEntry>, o: int, l: int)
    requires 0 <= o <= |es| && l > 0
    ensures TrackingResults(es, o, Some(l), []) == Ok(es[o..if o + l < |es| then o + l else |es|])
  {
    PageLength(es, o, l);
  }

  /** `key` starts with `stem`, ASCII letters compared without case. */
  predicate StartsIgnoringCase(key: string, stem: string)
  {
    |stem| <= |key| && Lower(stem) == Lower(key[..|stem|])
  }

  /** A record a disk query returns was built from a row whose key its `WHERE` clause admits. */
  lemma DiskResultSelected<T>(store: Store, dec: Decoder, prefix: string, factory: Factory<T>, keyPattern: Option<string>,
                              id: Option<string>, limit: Option<int>, offset: int, exact: bool,
                              fs: seq<T -> Result<bool>>, x: T)
    requires Faithful(store)
    requires Filtered(DiskRecords(store, dec, prefix, factory, keyPattern, id, limit, offset, exact), fs).Ok?
    requires x in Filtered(DiskRecords(store, dec, prefix, factory, keyPattern, id, limit, offset, exact), fs).value
    ensures exists row :: row in store.diskRows(SelectionFor(prefix, id, exact), WindowFor(limit, offset))
                       && Selects(SelectionFor(prefix, id, exact), row.key)
                       && RowRecord(row, dec, factory, None, keyPattern) == Some(x)
  {
    var xs := DiskRecords(store, dec, prefix, factory, keyPattern, id, limit, offset, exact);
    var rows := store.diskRows(SelectionFor(prefix, id, exact), WindowFor(limit, offset));
    FilteredKeeps(xs, fs);
    FilterMembers(xs, PassesAll(fs), x);
    ParsedFromRows(rows, dec, factory, None, keyPattern);
    var i :| 0 <= i < |rows| && RowRecord(rows[i], dec, factory, None, keyPattern) == Some(x);
    assert rows[i] in rows;
  }

  /**
   * With a bubble id set, every bubble returned comes from a key that
   * starts, up to ASCII case, with `bubbleId:<id>:`.
   */
  lemma BubblesUnderId(store: Store, dec: Decoder, id: string, limit: Option<int>, offset: int,
                       fs: seq<Record -> Result<bool>>, x: Record)
    requires Faithful(store) && id != "" && NoWildcards(id)
    requires Filtered(DiskRecords(store, dec, BubblePrefix, BubbleFactory(), Some(BubblePattern), Some(id), limit, offset, false), fs).Ok?
    requires x in Filtered(DiskRecords(store, dec, BubblePrefix, BubbleFactory(), Some(BubblePattern), Some(id), limit, offset, false), fs).value
    ensures exists row :: RowRecord(row, dec, BubbleFactory(), None, Some(BubblePattern)) == Some(x)
                       && StartsIgnoringCase(row.key, BubblePrefix + id + ":")
  {
    hide DiskRecords, Filtered, RowRecord, BubbleFactory, Parsed, Like, Lower;
    DiskResultSelected(store, dec, BubblePrefix, BubbleFactory(), Some(BubblePattern), Some(id), limit, offset, false, fs, x);
    var row :| row in store.diskRows(SelectionFor(BubblePrefix, Some(id), false), WindowFor(limit, offset))
            && Selects(SelectionFor(BubblePrefix, Some(id), false), row.key)
            && RowRecord(row, dec, BubbleFactory(), None, Some(BubblePattern)) == Some(x);
    assert NoWildcards(BubblePrefix);
    SelectionKeys(BubblePrefix, Some(id), false, row.key);
    assert Stem(BubblePrefix, Some(id)) == BubblePrefix + id + ":";
  }

  /** A row under `bubbleId:<b>:<c>` holding a dict gives the bubble `from_dict` builds with both ids, or nothing if it raises. */
  lemma BubbleRowIds(b: string, c: string, value: Cell, dec: Decoder, data: seq<(string, Json)>)
    requires b != "" && ':' !in b && '\n' !in c && DecodeJsonValue(value, dec) == JObj(data)
    ensures RowRecord(Row(BubblePrefix + b + ":" + c, value), dec, BubbleFactory(), None, Some(BubblePattern))
         == match BubbleOf(data, Some(b), Some(c)) case Ok(r) => Some(r) case Err(_) => None
  {
    hide BubbleOf, KeyParts, DecodeJsonValue;
    BubbleKeyIds(b, c);
    BubbleIdsOfParts(b, c);
    BubbleLiterals();
    var parts := map["bubble_id" := b, "conversation_id" := c];
    assert "bubble_id" in parts;
    assert Given(Some(parts)) == Some(parts);
  }

  /**
   * With a composer id set, even an empty one, the composer-data query
   * returns only the record stored under exactly `composerData:<id>`;
   * without one, records under keys starting with `composerData:` up to case.
   */
  lemma ComposerDataKeys(store: Store, dec: Decoder, id: Option<string>, limit: Option<int>, offset: int,
                         fs: seq<Record -> Result<bool>>, x: Record)
    requires Faithful(store)
    requires Filtered(DiskRecords(store, dec, ComposerDataPrefix, ComposerDataFactory(), None, id, limit, offset, id.Some?), fs).Ok?
    requires x in Filtered(DiskRecords(store, dec, ComposerDataPrefix, ComposerDataFactory(), None, id, limit, offset, id.Some?), fs).value
    ensures exists row :: RowRecord(row, dec, ComposerDataFactory(), None, None) == Some(x)
                       && (id.Some? ==> row.key == ComposerDataPrefix + id.value)
                       && (id.None? ==> StartsIgnoringCase(row.key, ComposerDataPrefix))
  {
    hide DiskRecords, Filtered, RowRecord, ComposerDataFactory, PlainFactory, Parsed, Like, Lower;
    DiskResultSelected(store, dec, ComposerDataPrefix, ComposerDataFactory(), None, id, limit, offset, id.Some?, fs, x);
    var sel := SelectionFor(ComposerDataPrefix, id, id.Some?);
    var row :| row in store.diskRows(sel, WindowFor(limit, offset)) && Selects(sel, row.key)
            && RowRecord(row, dec, ComposerDataFactory(), None, None) == Some(x);
    if id.Some? {
      assert !IdGiven(id) ==> id.value == "" && ComposerDataPrefix + id.value == ComposerDataPrefix;
    } else {
      assert NoWildcards(ComposerDataPrefix);
      SelectionKeys(ComposerDataPrefix, id, false, row.key);
    }
  }
}
