// The domain collections of `collections.py`: `BubbleCollection`,
// `ComposerSessionCollection` and `AICodeTrackingCollection`. Their filters
// and groupers are `Collection.filter` and `Collection.group_by` with
// predicates and keys read from the items; a read that raises propagates.
module DomainCollections {
  import opened Wrappers
  import opened Json
  import opened Records
  import opened Groups
  import opened Tracking
  import opened Collections

  /** The predicate `attr(x) == v`, for an attribute read that may raise. */
  function EqualTo<T>(attr: T -> Result<Json>, v: Json): T -> Result<bool>
  {
    x => match attr(x) case Err(e) => Err(e) case Ok(a) => Ok(a == v)
  }

  /**
   * The key `attr(x) or "unknown"`: every falsy value falls into the group
   * "unknown", and a truthy list or dict raises `TypeError` when `group_by`
   * looks it up in its dict of groups.
   */
  function OrUnknown<T>(attr: T -> Result<Json>): T -> Result<Json>
  {
    x => match attr(x)
         case Err(e) => Err(e)
         case Ok(a) => if !Truthy(a) then Ok(JStr("unknown")) else if Hashable(a) then Ok(a) else Err(TypeError)
  }

  /** Every truthy attribute value that reads can serve as a dict key. */
  predicate HashableKeys<T>(xs: seq<T>, attr: T -> Result<Json>)
  {
    forall i :: 0 <= i < |xs| && attr(xs[i]).Ok? && Truthy(attr(xs[i]).value) ==> Hashable(attr(xs[i]).value)
  }

  /** Filtering by `attr == v` keeps exactly the items whose attribute is `v`. */
  lemma FilterEqualTo<T>(xs: seq<T>, attr: T -> Result<Json>, v: Json)
    ensures TryFilter(xs, EqualTo(attr, v)).Ok? <==> forall i :: 0 <= i < |xs| ==> attr(xs[i]).Ok?
    ensures TryFilter(xs, EqualTo(attr, v)).Ok? ==> TryFilter(xs, EqualTo(attr, v)).value == Filter(xs, KeyIs(attr, v))
  {
    FilterSame(xs, Holds(EqualTo(attr, v)), KeyIs(attr, v));
  }

  /**
   * For a truthy value other than "unknown", the group of `v` among the
   * groups keyed by `attr or "unknown"` is what filtering by `attr == v` keeps.
   */
  lemma GroupIsFilter<T>(xs: seq<T>, attr: T -> Result<Json>, v: Json)
    requires Truthy(v) && v != JStr("unknown")
    ensures Grouped(xs, OrUnknown(attr)).Ok? <==> TryFilter(xs, EqualTo(attr, v)).Ok? && HashableKeys(xs, attr)
    ensures Grouped(xs, OrUnknown(attr)).Ok? ==>
              GroupOf(Grouped(xs, OrUnknown(attr)).value, v) == TryFilter(xs, EqualTo(attr, v)).value
  {
    GroupedRaises(xs, OrUnknown(attr));
    FilterEqualTo(xs, attr, v);
    if Grouped(xs, OrUnknown(attr)).Ok? {
      assert HashableKeys(xs, attr) by {
        forall i | 0 <= i < |xs| && attr(xs[i]).Ok? && Truthy(attr(xs[i]).value)
          ensures Hashable(attr(xs[i]).value)
        {
          assert OrUnknown(attr)(xs[i]).Ok?;
        }
      }
      GroupedMembers(xs, OrUnknown(attr), v);
      forall x | x in xs ensures KeyIs(OrUnknown(attr), v)(x) == KeyIs(attr, v)(x) {
        var i :| 0 <= i < |xs| && xs[i] == x;
        assert OrUnknown(attr)(xs[i]).Ok?;
      }
      FilterSame(xs, KeyIs(OrUnknown(attr), v), KeyIs(attr, v));
    } else if TryFilter(xs, EqualTo(attr, v)).Ok? {
      var i :| 0 <= i < |xs| && OrUnknown(attr)(xs[i]).Err?;
      assert attr(xs[i]).Ok?;
    }
  }

  /** The group "unknown" holds the items whose attribute is falsy or is "unknown" itself. */
  lemma UnknownGroup<T>(xs: seq<T>, attr: T -> Result<Json>)
    requires Grouped(xs, OrUnknown(attr)).Ok?
    ensures GroupOf(Grouped(xs, OrUnknown(attr)).value, JStr("unknown"))
         == Filter(xs, x => attr(x).Ok? && (!Truthy(attr(x).value) || attr(x).value == JStr("unknown")))
  {
    GroupedMembers(xs, OrUnknown(attr), JStr("unknown"));
    FilterSame(xs, KeyIs(OrUnknown(attr), JStr("unknown")),
               x => attr(x).Ok? && (!Truthy(attr(x).value) || attr(x).value == JStr("unknown")));
  }

  // ----- BubbleCollection -----

  /** `filter_by_model`: the bubbles whose `model_name` equals the name. */
  function FilterByModel(bs: seq<Record>, name: string): (r: Result<seq<Record>>)
    ensures r.Ok? <==> forall i :: 0 <= i < |bs| ==> ModelName(bs[i]).Ok?
    ensures r.Err? ==> r.error == AttributeError
    ensures r.Ok? ==> r.value == Filter(bs, KeyIs(ModelName, JStr(name)))
  {
    FilterEqualTo(bs, ModelName, JStr(name));
    TryFilter(bs, EqualTo(ModelName, JStr(name)))
  }

  /** `(count or 0) >= min`, when a minimum is given. */
  predicate CountAtLeast(count: Result<Json>, min: int)
  {
    count.Ok? && NumberOrZero(count.value).Ok? && NumberOrZero(count.value).value >= min
  }

  /** The predicate of `filter_by_token_count`; the output count is read only when the input check passes. */
  function TokensAtLeast(b: Record, minInput: Option<int>, minOutput: Option<int>): (r: Result<bool>)
    ensures minInput.None? && minOutput.None? ==> r == Ok(true)
    ensures r == Ok(true) <==>
              (minInput.Some? ==> CountAtLeast(InputTokens(b), minInput.value)) &&
              (minOutput.Some? ==> CountAtLeast(OutputTokens(b), minOutput.value))
    ensures r.Err? ==> r.error in {TypeError, AttributeError}
  {
    var input :=
      if minInput.None? then Ok(true)
      else match InputTokens(b)
        case Err(e) => Err(e)
        case Ok(v) => match NumberOrZero(v) case Err(e) => Err(e) case Ok(n) => Ok(n >= minInput.value);
    match input
    case Err(e) => Err(e)
    case Ok(false) => Ok(false)
    case Ok(true) =>
      if minOutput.None? then Ok(true)
      else match OutputTokens(b)
        case Err(e) => Err(e)
        case Ok(v) => match NumberOrZero(v) case Err(e) => Err(e) case Ok(n) => Ok(n >= minOutput.value)
  }

  /** A token count that is absent from `token_count` counts as 0. */
  lemma MissingCountIsZero(b: Record, minInput: int)
    requires Field(b, "token_count").JObj? && "inputTokens" !in Keys(Field(b, "token_count").fields)
    ensures TokensAtLeast(b, Some(minInput), None) == Ok(0 >= minInput)
  {
  }

  /** The bubbles that meet every given minimum. */
  function MeetsMinimums(minInput: Option<int>, minOutput: Option<int>): Record -> bool
  {
    b => (minInput.Some? ==> CountAtLeast(InputTokens(b), minInput.value))
         && (minOutput.Some? ==> CountAtLeast(OutputTokens(b), minOutput.value))
  }

  /** `filter_by_token_count`. */
  function FilterByTokenCount(bs: seq<Record>, minInput: Option<int>, minOutput: Option<int>): (r: Result<seq<Record>>)
    ensures minInput.None? && minOutput.None? ==> r == Ok(bs)
    ensures r.Ok? <==> forall i :: 0 <= i < |bs| ==> TokensAtLeast(bs[i], minInput, minOutput).Ok?
    ensures r.Ok? ==> r.value == Filter(bs, MeetsMinimums(minInput, minOutput))
    ensures r.Ok? ==> forall i :: 0 <= i < |r.value| ==>
              (minInput.Some? ==> CountAtLeast(InputTokens(r.value[i]), minInput.value))
              && (minOutput.Some? ==> CountAtLeast(OutputTokens(r.value[i]), minOutput.value))
  {
    FilterSame(bs, Holds((b: Record) => TokensAtLeast(b, minInput, minOutput)), MeetsMinimums(minInput, minOutput));
    var p := (b: Record) => TokensAtLeast(b, minInput, minOutput);
    if minInput.None? && minOutput.None? then
      FilterSame(bs, Holds(p), _ => true);
      FilterAll(bs, _ => true);
      TryFilter(bs, p)
    else TryFilter(bs, p)
  }

  /** `len(attr0) > 0 or len(attr1) > 0 or ...` as a predicate on bubbles. */
  function AnyNonEmptyOf(names: seq<string>): Record -> Result<bool>
  {
    b => AnyNonEmpty(Fields(b, names))
  }

  /** Some field among `names` is non-empty. */
  function HasNonEmpty(names: seq<string>): Record -> bool
  {
    b => exists j :: 0 <= j < |names| && NonEmpty(Field(b, names[j]))
  }

  predicate AllSized(bs: seq<Record>, names: seq<string>)
  {
    forall i, j :: 0 <= i < |bs| && 0 <= j < |names| ==> Sized(Field(bs[i], names[j]))
  }

  /** Filtering by "some field is non-empty": it only raises on a field without a length. */
  lemma FilterNonEmpty(bs: seq<Record>, names: seq<string>)
    ensures TryFilter(bs, AnyNonEmptyOf(names)).Ok? ==>
              forall i :: 0 <= i < |TryFilter(bs, AnyNonEmptyOf(names)).value| ==>
                HasNonEmpty(names)(TryFilter(bs, AnyNonEmptyOf(names)).value[i])
    ensures AllSized(bs, names) ==> TryFilter(bs, AnyNonEmptyOf(names)) == Ok(Filter(bs, HasNonEmpty(names)))
  {
    if AllSized(bs, names) {
      forall b | b in bs ensures Holds(AnyNonEmptyOf(names))(b) == HasNonEmpty(names)(b) {
        var i :| 0 <= i < |bs| && bs[i] == b;
        assert forall j :: 0 <= j < |names| ==> Sized(Fields(b, names)[j]);
      }
      FilterSame(bs, Holds(AnyNonEmptyOf(names)), HasNonEmpty(names));
    }
  }

  /** `with_code_blocks`. */
  function WithCodeBlocks(bs: seq<Record>): (r: Result<seq<Record>>)
    ensures r.Ok? ==> forall i :: 0 <= i < |r.value| ==> NonEmpty(Field(r.value[i], "suggested_code_blocks"))
    ensures AllSized(bs, ["suggested_code_blocks"]) ==> r == Ok(Filter(bs, HasNonEmpty(["suggested_code_blocks"])))
  {
    FilterNonEmpty(bs, ["suggested_code_blocks"]);
    TryFilter(bs, AnyNonEmptyOf(["suggested_code_blocks"]))
  }

  /** `with_diffs`. */
  function WithDiffs(bs: seq<Record>): (r: Result<seq<Record>>)
    ensures r.Ok? ==> forall i :: 0 <= i < |r.value| ==>
              NonEmpty(Field(r.value[i], "assistant_suggested_diffs")) || NonEmpty(Field(r.value[i], "diffs_since_last_apply"))
    ensures AllSized(bs, ["assistant_suggested_diffs", "diffs_since_last_apply"]) ==>
              r == Ok(Filter(bs, HasNonEmpty(["assistant_suggested_diffs", "diffs_since_last_apply"])))
  {
    FilterNonEmpty(bs, ["assistant_suggested_diffs", "diffs_since_last_apply"]);
    TryFilter(bs, AnyNonEmptyOf(["assistant_suggested_diffs", "diffs_since_last_apply"]))
  }

  /** `with_lint_errors`. */
  function WithLintErrors(bs: seq<Record>): (r: Result<seq<Record>>)
    ensures r.Ok? ==> forall i :: 0 <= i < |r.value| ==>
              NonEmpty(Field(r.value[i], "lints")) || NonEmpty(Field(r.value[i], "multi_file_linter_errors"))
    ensures AllSized(bs, ["lints", "multi_file_linter_errors"]) ==>
              r == Ok(Filter(bs, HasNonEmpty(["lints", "multi_file_linter_errors"])))
  {
    FilterNonEmpty(bs, ["lints", "multi_file_linter_errors"]);
    TryFilter(bs, AnyNonEmptyOf(["lints", "multi_file_linter_errors"]))
  }

  function IsAgentic(b: Record): bool
  {
    Truthy(Field(b, "is_agentic"))
  }

  /** `agentic_only`: the bubbles whose `is_agentic` is truthy, in order. */
  function AgenticOnly(bs: seq<Record>): (r: seq<Record>)
    ensures r == Filter(bs, IsAgentic)
    ensures forall b :: b in r <==> b in bs && Truthy(Field(b, "is_agentic"))
  {
    var p := IsAgentic;
    assert forall b :: b in Filter(bs, p) <==> b in bs && p(b) by {
      forall b ensures b in Filter(bs, p) <==> b in bs && p(b) { FilterMembers(bs, p, b); }
    }
    Filter(bs, p)
  }

  /** `group_by_model`: bubbles grouped by `model_name or "unknown"`. */
  method GroupByModel(bs: seq<Record>) returns (r: Result<seq<(Json, seq<Record>)>>)
    ensures r == Grouped(bs, OrUnknown(ModelName))
  {
    r := GroupBy(bs, OrUnknown(ModelName));
  }

  /** The group of a model name is what `filter_by_model` keeps for it. */
  lemma ModelGroupIsFilter(bs: seq<Record>, name: string)
    requires name != "" && name != "unknown"
    ensures Grouped(bs, OrUnknown(ModelName)).Ok? <==> FilterByModel(bs, name).Ok? && HashableKeys(bs, ModelName)
    ensures Grouped(bs, OrUnknown(ModelName)).Ok? ==>
              GroupOf(Grouped(bs, OrUnknown(ModelName)).value, JStr(name)) == FilterByModel(bs, name).value
  {
    GroupIsFilter(bs, ModelName, JStr(name));
  }

  // ----- ComposerSessionCollection -----

  function HasExtension(e: Json): ComposerSession -> bool
  {
    (s: ComposerSession) => e in s.fileExtensions
  }

  /** `filter_by_extension`: the sessions that touched a file with the extension. */
  function SessionsWithExtension(ss: seq<ComposerSession>, ext: string): (r: seq<ComposerSession>)
    ensures r == Filter(ss, HasExtension(JStr(ext)))
    ensures forall s :: s in r <==> s in ss && JStr(ext) in s.fileExtensions
  {
    assert forall s :: s in Filter(ss, HasExtension(JStr(ext))) <==> s in ss && JStr(ext) in s.fileExtensions by {
      forall s ensures s in Filter(ss, HasExtension(JStr(ext))) <==> s in ss && JStr(ext) in s.fileExtensions {
        FilterMembers(ss, HasExtension(JStr(ext)), s);
      }
    }
    Filter(ss, HasExtension(JStr(ext)))
  }

  /** The number of modified files lies within the given bounds, both inclusive (`file_count_filter` too). */
  function FileCountWithin(minFiles: Option<int>, maxFiles: Option<int>): ComposerSession -> bool
  {
    (s: ComposerSession) => (minFiles.None? || |s.filesModified| >= minFiles.value)
                            && (maxFiles.None? || |s.filesModified| <= maxFiles.value)
  }

  /** `filter_by_file_count`: both bounds are inclusive and either may be left out. */
  function FilterByFileCount(ss: seq<ComposerSession>, minFiles: Option<int>, maxFiles: Option<int>): (r: seq<ComposerSession>)
    ensures r == Filter(ss, FileCountWithin(minFiles, maxFiles))
    ensures forall s :: s in r <==> s in ss && (minFiles.None? || |s.filesModified| >= minFiles.value)
                                           && (maxFiles.None? || |s.filesModified| <= maxFiles.value)
  {
    var p := FileCountWithin(minFiles, maxFiles);
    assert forall s :: s in Filter(ss, p) <==> s in ss && p(s) by {
      forall s ensures s in Filter(ss, p) <==> s in ss && p(s) { FilterMembers(ss, p, s); }
    }
    Filter(ss, p)
  }

  /** Every extension of every session. */
  function AllExtensions(ss: seq<ComposerSession>): (es: set<Json>)
    ensures forall e :: e in es <==> exists i :: 0 <= i < |ss| && e in ss[i].fileExtensions
    decreases |ss|
  {
    if ss == [] then {}
    else
      var init := ss[..|ss| - 1];
      assert forall i :: 0 <= i < |init| ==> init[i] == ss[i];
      AllExtensions(init) + ss[|ss| - 1].fileExtensions
  }

  /** What `group_by_extension` builds: each extension maps to the sessions that have it, in order. */
  function ExtensionGroups(ss: seq<ComposerSession>): map<Json, seq<ComposerSession>>
  {
    map e | e in AllExtensions(ss) :: Filter(ss, HasExtension(e))
  }

  /** The groups after the extensions in `done` of the next session `s` are added. */
  ghost function PartlyGrouped(prefix: seq<ComposerSession>, s: ComposerSession, done: set<Json>): map<Json, seq<ComposerSession>>
  {
    map e | e in AllExtensions(prefix) + done :: Filter(prefix, HasExtension(e)) + (if e in done then [s] else [])
  }

  lemma {:induction false} NoExtensionNoSessions(ss: seq<ComposerSession>, e: Json)
    requires e !in AllExtensions(ss)
    ensures Filter(ss, HasExtension(e)) == []
  {
    if ss != [] {
      assert e !in ss[0].fileExtensions;
      assert forall i :: 0 <= i < |ss[1..]| ==> ss[1..][i] == ss[i + 1];
      NoExtensionNoSessions(ss[1..], e);
    }
  }

  /** `result.setdefault(ext, []).append(s)`. */
  function AddSession(m: map<Json, seq<ComposerSession>>, ext: Json, s: ComposerSession): map<Json, seq<ComposerSession>>
  {
    m[ext := (if ext in m then m[ext] else []) + [s]]
  }

  lemma PartlyStart(prefix: seq<ComposerSession>, s: ComposerSession)
    ensures PartlyGrouped(prefix, s, {}) == ExtensionGroups(prefix)
  {
    assert forall e | e in AllExtensions(prefix) :: Filter(prefix, HasExtension(e)) + [] == Filter(prefix, HasExtension(e));
  }

  lemma PartlyStep(prefix: seq<ComposerSession>, s: ComposerSession, done: set<Json>, ext: Json)
    requires ext !in done
    ensures PartlyGrouped(prefix, s, done + {ext}) == AddSession(PartlyGrouped(prefix, s, done), ext, s)
  {
    var before := PartlyGrouped(prefix, s, done);
    var after := PartlyGrouped(prefix, s, done + {ext});
    var added := AddSession(before, ext, s);
    PartlyAt(prefix, s, done, ext);
    PartlyOthers(prefix, s, done, ext);
    assert after.Keys == added.Keys;
    assert forall e | e in after.Keys :: after[e] == added[e];
  }

  lemma PartlyAt(prefix: seq<ComposerSession>, s: ComposerSession, done: set<Json>, ext: Json)
    requires ext !in done
    ensures PartlyGrouped(prefix, s, done + {ext})[ext] == AddSession(PartlyGrouped(prefix, s, done), ext, s)[ext]
  {
    var g := Filter(prefix, HasExtension(ext));
    assert PartlyGrouped(prefix, s, done + {ext})[ext] == g + [s];
    if ext in AllExtensions(prefix) {
      assert PartlyGrouped(prefix, s, done)[ext] == g + [];
    } else {
      NoExtensionNoSessions(prefix, ext);
      assert ext !in PartlyGrouped(prefix, s, done).Keys;
    }
  }

  lemma PartlyOthers(prefix: seq<ComposerSession>, s: ComposerSession, done: set<Json>, ext: Json)
    ensures forall e :: e != ext && e in PartlyGrouped(prefix, s, done + {ext}) ==>
              e in PartlyGrouped(prefix, s, done) && PartlyGrouped(prefix, s, done + {ext})[e] == PartlyGrouped(prefix, s, done)[e]
  {
  }

  lemma PartlyEnd(prefix: seq<ComposerSession>, s: ComposerSession)
    ensures PartlyGrouped(prefix, s, s.fileExtensions) == ExtensionGroups(prefix + [s])
  {
    forall e ensures Filter(prefix + [s], HasExtension(e)) == Filter(prefix, HasExtension(e)) + (if e in s.fileExtensions then [s] else []) {
      FilterAppend(prefix, [s], HasExtension(e));
    }
    assert (prefix + [s])[..|prefix|] == prefix;
    assert AllExtensions(prefix + [s]) == AllExtensions(prefix) + s.fileExtensions;
  }

  /**
   * `ComposerSessionCollection.group_by_extension`. The extensions of a session
   * come from a Python set, so they are taken in an unspecified order, and the
   * result is a map rather than a dict in insertion order.
   */
  method GroupByExtension(ss: seq<ComposerSession>) returns (result: map<Json, seq<ComposerSession>>)
    ensures result == ExtensionGroups(ss)
  {
    result := map[];
    for i := 0 to |ss|
      invariant result == ExtensionGroups(ss[..i])
    {
      assert ss[..i + 1] == ss[..i] + [ss[i]];
      result := AddExtensions(result, ss[..i], ss[i]);
    }
    assert ss[..|ss|] == ss;
  }

  /** The inner loop of `group_by_extension`: session `s` joins the group of each of its extensions. */
  method AddExtensions(groups: map<Json, seq<ComposerSession>>, prefix: seq<ComposerSession>, s: ComposerSession)
      returns (result: map<Json, seq<ComposerSession>>)
    requires groups == ExtensionGroups(prefix)
    ensures result == ExtensionGroups(prefix + [s])
  {
    result := groups;
    PartlyStart(prefix, s);
    var rest := s.fileExtensions;
    ghost var done: set<Json> := {};
    while rest != {}
      invariant done !! rest && done + rest == s.fileExtensions
      invariant result == PartlyGrouped(prefix, s, done)
      decreases |rest|
    {
      var ext :| ext in rest;
      PartlyStep(prefix, s, done, ext);
      result := AddSession(result, ext, s);
      rest := rest - {ext};
      done := done + {ext};
    }
    PartlyEnd(prefix, s);
  }

  /** A session belongs to the group of each of its extensions, and to no other group. */
  lemma ExtensionGroupMembers(ss: seq<ComposerSession>, e: Json, s: ComposerSession)
    ensures e in ExtensionGroups(ss) <==> exists i :: 0 <= i < |ss| && e in ss[i].fileExtensions
    ensures e in ExtensionGroups(ss) ==> (s in ExtensionGroups(ss)[e] <==> s in ss && e in s.fileExtensions)
  {
    FilterMembers(ss, HasExtension(e), s);
  }

  /** For a string extension, the group is what `filter_by_extension` keeps. */
  lemma ExtensionGroupIsFilter(ss: seq<ComposerSession>, ext: string)
    requires JStr(ext) in ExtensionGroups(ss)
    ensures ExtensionGroups(ss)[JStr(ext)] == SessionsWithExtension(ss, ext)
  {
  }

  // ----- AICodeTrackingCollection -----

  /** `filter_by_source`. */
  function FilterBySource(es: seq<TrackingEntry>, source: string): (r: Result<seq<TrackingEntry>>)
    ensures r.Ok? <==> forall i :: 0 <= i < |es| ==> es[i].metadata.JObj?
    ensures r.Err? ==> r.error == AttributeError
    ensures r.Ok? ==> r.value == Filter(es, KeyIs(EntrySource, JStr(source)))
  {
    FilterEqualTo(es, EntrySource, JStr(source));
    TryFilter(es, EqualTo(EntrySource, JStr(source)))
  }

  /** `filter_by_extension`. */
  function FilterByExtension(es: seq<TrackingEntry>, extension: string): (r: Result<seq<TrackingEntry>>)
    ensures r.Ok? <==> forall i :: 0 <= i < |es| ==> es[i].metadata.JObj?
    ensures r.Err? ==> r.error == AttributeError
    ensures r.Ok? ==> r.value == Filter(es, KeyIs(EntryFileExtension, JStr(extension)))
  {
    FilterEqualTo(es, EntryFileExtension, JStr(extension));
    TryFilter(es, EqualTo(EntryFileExtension, JStr(extension)))
  }

  /** `filter_by_composer_id`. */
  function FilterByComposerId(es: seq<TrackingEntry>, composerId: string): (r: Result<seq<TrackingEntry>>)
    ensures r.Ok? <==> forall i :: 0 <= i < |es| ==> es[i].metadata.JObj?
    ensures r.Err? ==> r.error == AttributeError
    ensures r.Ok? ==> r.value == Filter(es, KeyIs(EntryComposerId, JStr(composerId)))
  {
    FilterEqualTo(es, EntryComposerId, JStr(composerId));
    TryFilter(es, EqualTo(EntryComposerId, JStr(composerId)))
  }

  /** `group_by_source`: entries grouped by `source or "unknown"`. */
  method GroupBySource(es: seq<TrackingEntry>) returns (r: Result<seq<(Json, seq<TrackingEntry>)>>)
    ensures r == Grouped(es, OrUnknown(EntrySource))
  {
    r := GroupBy(es, OrUnknown(EntrySource));
  }

  /** `group_by_extension`: entries grouped by `file_extension or "unknown"`. */
  method GroupByFileExtension(es: seq<TrackingEntry>) returns (r: Result<seq<(Json, seq<TrackingEntry>)>>)
    ensures r == Grouped(es, OrUnknown(EntryFileExtension))
  {
    r := GroupBy(es, OrUnknown(EntryFileExtension));
  }

  /** The group of a source is what `filter_by_source` keeps for it. */
  lemma SourceGroupIsFilter(es: seq<TrackingEntry>, source: string)
    requires source != "" && source != "unknown"
    ensures Grouped(es, OrUnknown(EntrySource)).Ok? <==> FilterBySource(es, source).Ok? && HashableKeys(es, EntrySource)
    ensures Grouped(es, OrUnknown(EntrySource)).Ok? ==>
              GroupOf(Grouped(es, OrUnknown(EntrySource)).value, JStr(source)) == FilterBySource(es, source).value
  {
    GroupIsFilter(es, EntrySource, JStr(source));
  }

  /** The group of an extension is what `filter_by_extension` keeps for it. */
  lemma ExtensionEntryGroupIsFilter(es: seq<TrackingEntry>, extension: string)
    requires extension != "" && extension != "unknown"
    ensures Grouped(es, OrUnknown(EntryFileExtension)).Ok? <==> FilterByExtension(es, extension).Ok? && HashableKeys(es, EntryFileExtension)
    ensures Grouped(es, OrUnknown(EntryFileExtension)).Ok? ==>
              GroupOf(Grouped(es, OrUnknown(EntryFileExtension)).value, JStr(extension)) == FilterByExtension(es, extension).value
  {
    GroupIsFilter(es, EntryFileExtension, JStr(extension));
  }
}
