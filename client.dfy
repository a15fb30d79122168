// `client.py`: the CursorDataClient reading the two tables of Cursor's SQLite
// store. The database is a value handed to the client: its answer to each of
// the few statements the client issues is a function of that statement.
module Client {
  import opened Wrappers
  import opened Json
  import opened Naming
  import opened KeyPattern
  import opened Utils
  import opened Records
  import opened Tracking
  import opened Collections

  // ----- the store and the statements run against it -----

  /** The `ItemTable` keys the client reads (`ItemTableKey`). */
  const TrackingLinesKey := "aiCodeTrackingLines"
  const ScoredCommitsKey := "aiCodeTrackingScoredCommits"

  /** The `WHERE` clause over `cursorDiskKV.key`, with its parameter: `key = ?` or `key LIKE ?`. */
  datatype Selection = ExactKey(key: string) | LikeKey(pattern: string)

  /** A `LIMIT <limit> OFFSET <offset>` suffix. */
  datatype Window = Window(limit: int, offset: int)

  /**
   * The database as the client sees it: `SELECT value FROM ItemTable WHERE key = ?`,
   * `SELECT key, value FROM cursorDiskKV WHERE ...`, `SELECT key FROM <table> WHERE key LIKE ?`
   * and `SELECT key FROM <table>`.
   */
  datatype Store = Store(
    itemValue: string -> Option<Cell>,
    diskRows: (Selection, Option<Window>) -> seq<Row>,
    keysLike: (string, string) -> seq<string>,
    allKeys: string -> seq<string>)

  predicate Wildcard(c: char)
  {
    c == '%' || c == '_'
  }

  predicate NoWildcards(s: string)
  {
    forall i :: 0 <= i < |s| ==> !Wildcard(s[i])
  }

  /** SQLite's `LIKE` without `ESCAPE`: `%` is any run, `_` any one character, ASCII letters match either case. */
  predicate Like(p: string, s: string)
    decreases |p| + |s|
  {
    if p == [] then s == []
    else if p[0] == '%' then Like(p[1..], s) || (s != [] && Like(p, s[1..]))
    else s != [] && (p[0] == '_' || LowerChar(p[0]) == LowerChar(s[0])) && Like(p[1..], s[1..])
  }

  /** The keys a `WHERE` clause admits. */
  predicate Selects(sel: Selection, key: string)
  {
    match sel
    case ExactKey(k) => key == k
    case LikeKey(p) => Like(p, key)
  }

  /** A store whose `cursorDiskKV` answers hold only rows that the `WHERE` clause admits. */
  ghost predicate Faithful(store: Store)
  {
    forall sel, w, i :: 0 <= i < |store.diskRows(sel, w)| ==> Selects(sel, store.diskRows(sel, w)[i].key)
  }

  lemma {:induction false} LikeAnything(s: string)
    ensures Like("%", s)
    decreases |s|
  {
    if s != [] {
      LikeAnything(s[1..]);
    }
  }

  lemma LowerCons(a: string)
    requires a != []
    ensures Lower(a) == [LowerChar(a[0])] + Lower(a[1..])
  {
    assert forall i :: 0 <= i < |a| ==> Lower(a)[i] == ([LowerChar(a[0])] + Lower(a[1..]))[i];
  }

  /** A pattern `q%` without other wildcards admits exactly the keys that start with `q`, up to ASCII case. */
  lemma {:induction false} LikePrefix(q: string, s: string)
    requires NoWildcards(q)
    ensures Like(q + "%", s) <==> |q| <= |s| && Lower(q) == Lower(s[..|q|])
    decreases |q|
  {
    if q == [] {
      assert q + "%" == "%";
      LikeAnything(s);
      assert Lower(q) == Lower(s[..0]);
    } else {
      var p := q + "%";
      assert p[0] == q[0] && p[1..] == q[1..] + "%";
      assert !Wildcard(q[0]);
      if s != [] {
        LikePrefix(q[1..], s[1..]);
        if |q| <= |s| {
          assert s[..|q|][0] == s[0] && s[..|q|][1..] == s[1..][..|q| - 1];
          LowerCons(q);
          LowerCons(s[..|q|]);
        }
      }
    }
  }

  /** The `WHERE` clause `_query_cursordiskkv` builds; a falsy id is no id. */
  function SelectionFor(prefix: string, filterId: Option<string>, exact: bool): Selection
  {
    if IdGiven(filterId) then
      if exact then ExactKey(prefix + filterId.value) else LikeKey(prefix + filterId.value + ":%")
    else if exact then ExactKey(prefix) else LikeKey(prefix + "%")
  }

  /** The key stem a selection is about: the prefix, followed by the id and a colon when an id is given. */
  function Stem(prefix: string, filterId: Option<string>): string
  {
    if IdGiven(filterId) then prefix + filterId.value + ":" else prefix
  }

  /**
   * What the selection admits: with `exact_match` the one key `prefix + id` (or the bare prefix),
   * otherwise every key starting with the stem, up to ASCII case.
   */
  lemma SelectionKeys(prefix: string, filterId: Option<string>, exact: bool, key: string)
    requires NoWildcards(prefix) && (IdGiven(filterId) ==> NoWildcards(filterId.value))
    ensures exact ==> (Selects(SelectionFor(prefix, filterId, exact), key) <==>
                        key == if IdGiven(filterId) then prefix + filterId.value else prefix)
    ensures !exact ==> (Selects(SelectionFor(prefix, filterId, exact), key) <==>
                         |Stem(prefix, filterId)| <= |key| && Lower(Stem(prefix, filterId)) == Lower(key[..|Stem(prefix, filterId)|]))
  {
    var stem := Stem(prefix, filterId);
    if IdGiven(filterId) {
      assert stem + "%" == prefix + filterId.value + ":%";
      assert forall i :: 0 <= i < |stem| ==> stem[i] in prefix || stem[i] in filterId.value || stem[i] == ':' by {
        forall i | 0 <= i < |stem| ensures stem[i] in prefix || stem[i] in filterId.value || stem[i] == ':' {
          if i < |prefix| {
            assert stem[i] == prefix[i];
          } else if i < |prefix| + |filterId.value| {
            assert stem[i] == filterId.value[i - |prefix|];
          }
        }
      }
    }
    assert NoWildcards(stem);
    LikePrefix(stem, key);
  }

  /** The `LIMIT ... OFFSET ...` suffix, added only for a truthy limit: an offset alone is ignored. */
  function WindowFor(limit: Option<int>, offset: int): (w: Option<Window>)
    ensures w.Some? <==> limit.Some? && limit.value != 0
    ensures w.Some? ==> w.value.offset == offset
  {
    if limit.Some? && limit.value != 0 then Some(Window(limit.value, offset)) else None
  }

  /** What `_query_cursordiskkv` returns: the selected rows, parsed in order. */
  function DiskRecords<T>(store: Store, dec: Decoder, prefix: string, factory: Factory<T>, keyPattern: Option<string>,
                          filterId: Option<string>, limit: Option<int>, offset: int, exact: bool): seq<T>
  {
    Parsed(store.diskRows(SelectionFor(prefix, filterId, exact), WindowFor(limit, offset)), dec, factory, None, keyPattern)
  }

  /** `get_json_value`: None for a missing key, else the decoded value. */
  function StoredJson(store: Store, dec: Decoder, key: string): Json
  {
    match store.itemValue(key)
    case None => JNull
    case Some(cell) => DecodeJsonValue(cell, dec)
  }

  // ----- get_ai_code_tracking_entries -----

  /** A list element that yields an entry: a dict with a `hash`. */
  predicate Trackable(j: Json)
  {
    j.JObj? && "hash" in Keys(j.fields)
  }

  /** The entries built from the elements, in order; elements that are not dicts, or lack a hash, are skipped. */
  function EntriesOf(items: seq<Json>): seq<TrackingEntry>
    decreases |items|
  {
    if items == [] then []
    else
      var rest := EntriesOf(items[..|items| - 1]);
      var last := items[|items| - 1];
      if last.JObj? then
        match EntryFromDict(last.fields)
        case Ok(e) => rest + [e]
        case Err(_) => rest
      else rest
  }

  /** The entries of the stored value: none unless it is a non-empty list. */
  function TrackingEntries(data: Json): seq<TrackingEntry>
  {
    if !Truthy(data) || !data.JList? then [] else EntriesOf(data.items)
  }

  /** The loop of `get_ai_code_tracking_entries`. */
  method CollectEntries(data: Json) returns (entries: seq<TrackingEntry>)
    ensures entries == TrackingEntries(data)
  {
    entries := [];
    if !Truthy(data) || !data.JList? {
      return;
    }
    var items := data.items;
    for i := 0 to |items|
      invariant entries == EntriesOf(items[..i])
    {
      assert items[..i + 1][..i] == items[..i];
      var item := items[i];
      if item.JObj? {
        var e := EntryFromDict(item.fields);
        if e.Ok? {
          entries := entries + [e.value];
        }
      }
    }
    assert items[..|items|] == items;
  }

  /** The entries are `from_dict` of the trackable elements, one each, in order. */
  lemma {:induction false} EntriesAreTrackable(items: seq<Json>)
    ensures |EntriesOf(items)| == |Filter(items, Trackable)|
    ensures forall i :: 0 <= i < |EntriesOf(items)| ==>
              EntryFromDict(Filter(items, Trackable)[i].fields) == Ok(EntriesOf(items)[i])
    decreases |items|
  {
    if items != [] {
      var n := |items| - 1;
      var init, last := items[..n], items[n];
      assert items == init + [last];
      EntriesAreTrackable(init);
      FilterAppend(init, [last], Trackable);
      assert Filter([last], Trackable) == if Trackable(last) then [last] else [];
    }
  }

  // ----- get_ai_scored_commits -----

  /** `str(c)`: a string is itself; `render` stands for `str` on any other value. */
  function CommitText(c: Json, render: Json -> string): string
  {
    if c.JStr? then c.s else render(c)
  }

  /** `get_ai_scored_commits`: the text of each truthy element of a stored list, in order; anything else gives none. */
  function ScoredCommits(data: Json, render: Json -> string): (r: seq<string>)
    ensures !data.JList? ==> r == []
    ensures data.JList? ==> |r| == |Filter(data.items, Truthy)|
    ensures data.JList? ==> forall i :: 0 <= i < |r| ==> r[i] == CommitText(Filter(data.items, Truthy)[i], render)
  {
    if data.JList? then Images(Filter(data.items, Truthy), c => CommitText(c, render)) else []
  }

  /** A stored list of non-empty hash strings comes back as those hashes. */
  lemma HashesKept(hashes: seq<string>, render: Json -> string)
    requires forall i :: 0 <= i < |hashes| ==> hashes[i] != ""
    ensures ScoredCommits(JList(seq(|hashes|, i requires 0 <= i < |hashes| => JStr(hashes[i]))), render) == hashes
  {
    var items := seq(|hashes|, i requires 0 <= i < |hashes| => JStr(hashes[i]));
    assert forall x :: x in items ==> Truthy(x);
    FilterAll(items, Truthy);
  }

  // ----- get_usage_stats -----

  /** The two tallies of the loop: `extension_counts` in insertion order, and the `composer_sessions` set. */
  datatype Tally = Tally(counts: seq<(Json, nat)>, composers: set<Json>)

  /** `counts[k] = counts.get(k, 0) + 1`: a known key is bumped in place, a new one is added last with 1. */
  function Bump(counts: seq<(Json, nat)>, k: Json): seq<(Json, nat)>
  {
    if counts == [] then [(k, 1)]
    else if counts[0].0 == k then [(k, counts[0].1 + 1)] + counts[1..]
    else [counts[0]] + Bump(counts[1..], k)
  }

  /** The count recorded for `k`. */
  function CountOf(counts: seq<(Json, nat)>, k: Json): nat
  {
    if counts == [] then 0 else (if counts[0].0 == k then counts[0].1 else 0) + CountOf(counts[1..], k)
  }

  function SumCounts(counts: seq<(Json, nat)>): nat
  {
    if counts == [] then 0 else counts[0].1 + SumCounts(counts[1..])
  }

  function CountKeys(counts: seq<(Json, nat)>): (ks: seq<Json>)
    ensures |ks| == |counts| && forall i :: 0 <= i < |counts| ==> ks[i] == counts[i].0
  {
    if counts == [] then [] else [counts[0].0] + CountKeys(counts[1..])
  }

  lemma {:induction false} BumpFacts(counts: seq<(Json, nat)>, k: Json, q: Json)
    ensures CountOf(Bump(counts, k), q) == CountOf(counts, q) + (if q == k then 1 else 0)
    ensures SumCounts(Bump(counts, k)) == SumCounts(counts) + 1
    ensures CountKeys(Bump(counts, k)) == if k in CountKeys(counts) then CountKeys(counts) else CountKeys(counts) + [k]
  {
    hide Bump, CountOf, SumCounts, CountKeys;
    BumpStep(counts, k);
    CountsStep(counts, q);
    CountsStep(Bump(counts, k), q);
    if counts == [] {
      CountsStep([], q);
    } else {
      assert CountKeys(counts) == [counts[0].0] + CountKeys(counts[1..]);
      if counts[0].0 != k {
        BumpFacts(counts[1..], k, q);
      }
    }
  }

  lemma BumpStep(counts: seq<(Json, nat)>, k: Json)
    ensures Bump(counts, k) ==
      if counts == [] then [(k, 1)]
      else if counts[0].0 == k then [(k, counts[0].1 + 1)] + counts[1..]
      else [counts[0]] + Bump(counts[1..], k)
  {
  }

  lemma CountsStep(counts: seq<(Json, nat)>, q: Json)
    ensures counts == [] ==> CountOf(counts, q) == 0 && SumCounts(counts) == 0 && CountKeys(counts) == []
    ensures counts != [] ==>
      CountOf(counts, q) == (if counts[0].0 == q then counts[0].1 else 0) + CountOf(counts[1..], q) &&
      SumCounts(counts) == counts[0].1 + SumCounts(counts[1..]) &&
      CountKeys(counts) == [counts[0].0] + CountKeys(counts[1..])
  {
  }

  /** One pass of the loop: `entry.file_extension`, then `entry.composer_id`; an unhashable value raises TypeError. */
  function TallyStep(t: Tally, e: TrackingEntry): Result<Tally>
  {
    match EntryFileExtension(e)
    case Err(x) => Err(x)
    case Ok(ext) =>
      if Truthy(ext) && !Hashable(ext) then Err(TypeError)
      else
        match EntryComposerId(e)
        case Err(x) => Err(x)
        case Ok(id) =>
          if Truthy(id) && !Hashable(id) then Err(TypeError)
          else Ok(Tally(if Truthy(ext) then Bump(t.counts, ext) else t.counts,
                        if Truthy(id) then t.composers + {id} else t.composers))
  }

  /** The tallies after the loop has run over `es`, or the error it raised. */
  function Tallied(es: seq<TrackingEntry>): Result<Tally>
    decreases |es|
  {
    if es == [] then Ok(Tally([], {}))
    else
      match Tallied(es[..|es| - 1])
      case Err(x) => Err(x)
      case Ok(t) => TallyStep(t, es[|es| - 1])
  }

  /** The counting loop of `get_usage_stats`. */
  method CountUsage(es: seq<TrackingEntry>) returns (r: Result<Tally>)
    ensures r == Tallied(es)
  {
    var counts: seq<(Json, nat)> := [];
    var composers: set<Json> := {};
    for i := 0 to |es|
      invariant Tallied(es[..i]) == Ok(Tally(counts, composers))
    {
      assert es[..i + 1][..i] == es[..i];
      var ext := EntryFileExtension(es[i]);
      if ext.Err? || (Truthy(ext.value) && !Hashable(ext.value)) {
        TalliedFails(es, i + 1);
        return Tallied(es[..i + 1]);
      }
      var id := EntryComposerId(es[i]);
      if id.Err? || (Truthy(id.value) && !Hashable(id.value)) {
        TalliedFails(es, i + 1);
        return Tallied(es[..i + 1]);
      }
      if Truthy(ext.value) {
        counts := Bump(counts, ext.value);
      }
      if Truthy(id.value) {
        composers := composers + {id.value};
      }
    }
    assert es[..|es|] == es;
    r := Ok(Tally(counts, composers));
  }

  /** Once a prefix raises, the whole loop raises the same error. */
  lemma {:induction false} TalliedFails(es: seq<TrackingEntry>, n: nat)
    requires n <= |es| && Tallied(es[..n]).Err?
    ensures Tallied(es) == Tallied(es[..n])
    decreases |es| - n
  {
    if n < |es| {
      assert es[..n + 1][..n] == es[..n];
      TalliedFails(es, n + 1);
    } else {
      assert es[..n] == es;
    }
  }

  /** An entry the counting loop gets past: dict metadata whose truthy extension and composer id are hashable. */
  predicate Countable(e: TrackingEntry)
  {
    e.metadata.JObj?
    && (Truthy(EntryFileExtension(e).value) ==> Hashable(EntryFileExtension(e).value))
    && (Truthy(EntryComposerId(e).value) ==> Hashable(EntryComposerId(e).value))
  }

  /** The tally raises exactly when some entry is not countable. */
  lemma {:induction false} TalliedRaises(es: seq<TrackingEntry>)
    ensures Tallied(es).Ok? <==> forall i :: 0 <= i < |es| ==> Countable(es[i])
    decreases |es|
  {
    hide *;
    TalliedStep(es);
    if es != [] {
      var n := |es| - 1;
      assert forall i :: 0 <= i < n ==> es[..n][i] == es[i];
      TalliedRaises(es[..n]);
      if Tallied(es[..n]).Ok? {
        StepOk(Tallied(es[..n]).value, es[n]);
      }
    }
  }

  lemma TalliedStep(es: seq<TrackingEntry>)
    ensures es == [] ==> Tallied(es) == Ok(Tally([], {}))
    ensures es != [] ==>
      Tallied(es) == match Tallied(es[..|es| - 1]) case Err(x) => Err(x) case Ok(t) => TallyStep(t, es[|es| - 1])
  {
  }

  /** A pass gets through exactly the countable entries. */
  lemma StepOk(t: Tally, e: TrackingEntry)
    ensures TallyStep(t, e).Ok? <==> Countable(e)
  {
  }

  /** What one pass adds to the counts. */
  lemma StepCounts(t: Tally, e: TrackingEntry)
    requires TallyStep(t, e).Ok?
    ensures EntryFileExtension(e).Ok?
    ensures TallyStep(t, e).value.counts
         == if Truthy(EntryFileExtension(e).value) then Bump(t.counts, EntryFileExtension(e).value) else t.counts
  {
  }

  /** An entry with a truthy file extension. */
  predicate HasFileExtension(e: TrackingEntry)
  {
    EntryFileExtension(e).Ok? && Truthy(EntryFileExtension(e).value)
  }

  /** Each truthy extension is counted once per entry that has it, and the counts add up to those entries. */
  lemma {:induction false} TalliedCounts(es: seq<TrackingEntry>, k: Json)
    requires Tallied(es).Ok? && Truthy(k)
    ensures CountOf(Tallied(es).value.counts, k) == |Filter(es, KeyIs(EntryFileExtension, k))|
    ensures SumCounts(Tallied(es).value.counts) == |Filter(es, HasFileExtension)|
    ensures Distinct(CountKeys(Tallied(es).value.counts))
    decreases |es|
  {
    hide Tallied, TallyStep, Bump, CountOf, SumCounts, Filter, EntryFileExtension, EntryComposerId, MetadataGet;
    TalliedStep(es);
    if es == [] {
      FilterNil(es, KeyIs(EntryFileExtension, k));
      FilterNil(es, HasFileExtension);
      CountsNil();
    } else {
      var n := |es| - 1;
      var init, last := es[..n], es[n];
      assert es == init + [last];
      TalliedCounts(init, k);
      var t := Tallied(init).value;
      StepCounts(t, last);
      FilterCons(last, [], KeyIs(EntryFileExtension, k));
      FilterCons(last, [], HasFileExtension);
      FilterNil([], KeyIs(EntryFileExtension, k));
      FilterNil([], HasFileExtension);
      assert [last] + [] == [last];
      FilterAppend(init, [last], KeyIs(EntryFileExtension, k));
      FilterAppend(init, [last], HasFileExtension);
      assert Filter([last], KeyIs(EntryFileExtension, k)) == if KeyIs(EntryFileExtension, k)(last) then [last] else [];
      assert Filter([last], HasFileExtension) == if HasFileExtension(last) then [last] else [];
      var ext := EntryFileExtension(last).value;
      if Truthy(ext) {
        BumpFacts(t.counts, ext, k);
        var ks := CountKeys(t.counts);
        if ext !in ks {
          assert forall i :: 0 <= i < |ks| ==> (ks + [ext])[i] == ks[i];
        }
      }
    }
  }

  lemma CountsNil()
    ensures forall k :: CountOf([], k) == 0
    ensures SumCounts([]) == 0
  {
  }

  /** What one pass adds to the composer sessions. */
  lemma StepComposers(t: Tally, e: TrackingEntry)
    requires TallyStep(t, e).Ok?
    ensures EntryComposerId(e).Ok?
    ensures TallyStep(t, e).value.composers
         == t.composers + if Truthy(EntryComposerId(e).value) then {EntryComposerId(e).value} else {}
  {
  }

  /** The composer sessions are the truthy composer ids of the entries. */
  lemma {:induction false} TalliedComposers(es: seq<TrackingEntry>, v: Json)
    requires Tallied(es).Ok?
    ensures v in Tallied(es).value.composers <==> Truthy(v) && exists i :: 0 <= i < |es| && EntryComposerId(es[i]) == Ok(v)
    decreases |es|
  {
    hide *;
    TalliedStep(es);
    if es == [] {
      assert Tallied(es).value.composers == {};
    } else {
      var n := |es| - 1;
      var init, e := es[..n], es[n];
      assert Tallied(init).Ok?;
      var t := Tallied(init).value;
      assert Tallied(es) == TallyStep(t, e);
      TalliedComposers(init, v);
      StepComposers(t, e);
      if v in Tallied(es).value.composers {
        if v in t.composers {
          var i :| 0 <= i < n && EntryComposerId(init[i]) == Ok(v);
          assert es[i] == init[i];
        } else {
          assert EntryComposerId(es[n]) == Ok(v);
        }
      }
      if Truthy(v) && exists i :: 0 <= i < |es| && EntryComposerId(es[i]) == Ok(v) {
        var i :| 0 <= i < |es| && EntryComposerId(es[i]) == Ok(v);
        if i < n {
          assert EntryComposerId(init[i]) == Ok(v);
        }
      }
    }
  }

  /** `UsageStats`, without the tracking start time. */
  datatype UsageStats = UsageStats(totalTrackingEntries: nat, totalScoredCommits: nat,
                                   mostUsedFileExtensions: seq<(Json, nat)>, composerSessions: nat)

  /** What `get_usage_stats` returns for the entries and commits it read, or the error the loop raised. */
  function UsageOf(es: seq<TrackingEntry>, commits: seq<string>): Result<UsageStats>
  {
    match Tallied(es)
    case Err(x) => Err(x)
    case Ok(t) => Ok(UsageStats(|es|, |commits|, t.counts, |t.composers|))
  }

  // ----- get_composer_sessions -----

  /** An entry the grouping loop looks further at: its `composer_id` is truthy, or reading it raises. */
  predicate ForSession(e: TrackingEntry)
  {
    EntryComposerId(e).Err? || Truthy(EntryComposerId(e).value)
  }

  /** The dict key of an entry: its composer id, which must be hashable. */
  function SessionKey(e: TrackingEntry): Result<Json>
  {
    match EntryComposerId(e)
    case Err(x) => Err(x)
    case Ok(id) => if Hashable(id) then Ok(id) else Err(TypeError)
  }

  /** `sessions_dict`: the entries with a truthy composer id, grouped by it in the order the ids first occur. */
  function SessionGroups(es: seq<TrackingEntry>): Result<seq<(Json, seq<TrackingEntry>)>>
  {
    Grouped(Filter(es, ForSession), SessionKey)
  }

  /** `[ComposerSession.from_entries(k, v) for k, v in sessions_dict.items()]`: the first error propagates. */
  function BuildSessions(gs: seq<(Json, seq<TrackingEntry>)>): (r: Result<seq<ComposerSession>>)
    ensures r.Ok? <==> forall i :: 0 <= i < |gs| ==> SessionFromEntries(gs[i].0, Some(gs[i].1)).Ok?
    ensures r.Ok? ==> |r.value| == |gs| && forall i :: 0 <= i < |gs| ==> SessionFromEntries(gs[i].0, Some(gs[i].1)) == Ok(r.value[i])
  {
    if gs == [] then Ok([])
    else
      assert forall i :: 0 <= i < |gs[1..]| ==> gs[1..][i] == gs[i + 1];
      match SessionFromEntries(gs[0].0, Some(gs[0].1))
      case Err(x) => Err(x)
      case Ok(s) =>
        match BuildSessions(gs[1..])
        case Err(x) => Err(x)
        case Ok(rest) => Ok([s] + rest)
  }

  /** The sessions `get_composer_sessions` returns, or the error it raises. */
  function ComposerSessions(es: seq<TrackingEntry>): Result<seq<ComposerSession>>
  {
    match SessionGroups(es)
    case Err(x) => Err(x)
    case Ok(gs) => BuildSessions(gs)
  }

  /** The grouping loop of `get_composer_sessions` (and of the session query), then the sessions built from it. */
  method GroupSessions(es: seq<TrackingEntry>) returns (r: Result<seq<ComposerSession>>)
    ensures r == ComposerSessions(es)
  {
    var groups: seq<(Json, seq<TrackingEntry>)> := [];
    for i := 0 to |es|
      invariant Grouped(Filter(es[..i], ForSession), SessionKey) == Ok(groups)
    {
      SessionStep(es, i, groups);
      var id := EntryComposerId(es[i]);
      if id.Err? || Truthy(id.value) {
        if id.Err? || !Hashable(id.value) {
          return Err(if id.Err? then id.error else TypeError);
        }
        groups := AddTo(groups, id.value, es[i]);
      }
    }
    assert es[..|es|] == es;
    r := BuildSessions(groups);
  }

  /** One pass of the grouping loop: an entry is skipped, added to its group, or raises for the whole loop. */
  lemma SessionStep(es: seq<TrackingEntry>, i: nat, groups: seq<(Json, seq<TrackingEntry>)>)
    requires i < |es| && Grouped(Filter(es[..i], ForSession), SessionKey) == Ok(groups)
    ensures !ForSession(es[i]) ==> Grouped(Filter(es[..i + 1], ForSession), SessionKey) == Ok(groups)
    ensures ForSession(es[i]) && SessionKey(es[i]).Ok? ==>
              Grouped(Filter(es[..i + 1], ForSession), SessionKey) == Ok(AddTo(groups, SessionKey(es[i]).value, es[i]))
    ensures ForSession(es[i]) && SessionKey(es[i]).Err? ==> SessionGroups(es) == Err(SessionKey(es[i]).error)
  {
    assert es[..i + 1] == es[..i] + [es[i]];
    GroupedFilterStep(es[..i], es[i], ForSession, SessionKey, groups);
    if ForSession(es[i]) && SessionKey(es[i]).Err? {
      SessionGroupsFail(es, i + 1);
    }
  }

  /** Grouping the items that pass a filter, one more item at a time. */
  lemma GroupedFilterStep<T, K>(xs: seq<T>, x: T, p: T -> bool, key: T -> Result<K>, groups: seq<(K, seq<T>)>)
    requires Grouped(Filter(xs, p), key) == Ok(groups)
    ensures !p(x) ==> Grouped(Filter(xs + [x], p), key) == Ok(groups)
    ensures p(x) && key(x).Ok? ==> Grouped(Filter(xs + [x], p), key) == Ok(AddTo(groups, key(x).value, x))
    ensures p(x) && key(x).Err? ==> Grouped(Filter(xs + [x], p), key) == Err(key(x).error)
  {
    var done := Filter(xs, p);
    FilterAppend(xs, [x], p);
    assert Filter([x], p) == if p(x) then [x] else [];
    if p(x) {
      var next := done + [x];
      assert next[..|next| - 1] == done;
    } else {
      assert done + [] == done;
    }
  }

  /** Once the groups of a prefix raise, the groups of the whole sequence raise the same error. */
  lemma SessionGroupsFail(es: seq<TrackingEntry>, n: nat)
    requires n <= |es| && Grouped(Filter(es[..n], ForSession), SessionKey).Err?
    ensures SessionGroups(es) == Grouped(Filter(es[..n], ForSession), SessionKey)
  {
    var head := Filter(es[..n], ForSession);
    assert es == es[..n] + es[n..];
    FilterAppend(es[..n], es[n..], ForSession);
    var all := Filter(es, ForSession);
    assert all[..|head|] == head;
    GroupedFails(all, SessionKey, |head|);
  }

  function SessionId(s: ComposerSession): Json
  {
    s.composerId
  }

  /** With distinct keys, the group stored at position `i` is the group of its key. */
  lemma {:induction false} GroupOfAt<T, K>(gs: seq<(K, seq<T>)>, i: nat)
    requires i < |gs| && Distinct(GroupKeys(gs))
    ensures GroupOf(gs, gs[i].0) == gs[i].1
  {
    if i > 0 {
      assert GroupKeys(gs)[0] != GroupKeys(gs)[i];
      assert GroupKeys(gs[1..]) == GroupKeys(gs)[1..];
      GroupOfAt(gs[1..], i - 1);
    }
  }

  /** Every key of the session groups is a truthy, hashable composer id of some entry. */
  lemma SessionKeyFacts(es: seq<TrackingEntry>, q: Json)
    requires SessionGroups(es).Ok? && q in GroupKeys(SessionGroups(es).value)
    ensures Truthy(q) && Hashable(q)
    ensures exists j :: 0 <= j < |es| && EntryComposerId(es[j]) == Ok(q)
  {
    hide Grouped, FirstOccurrences, Filter, GroupKeys, AddTo;
    var f := Filter(es, ForSession);
    GroupedKeys(f, SessionKey);
    var ks := KeyValues(f, SessionKey);
    FirstOccurrencesDistinct(ks);
    var j :| 0 <= j < |ks| && ks[j] == q;
    assert ForSession(f[j]) && SessionKey(f[j]) == Ok(q);
    FilterMembers(es, ForSession, f[j]);
  }

  /** One session per distinct truthy composer id, in the order the ids first occur, and none missing. */
  lemma SessionIds(es: seq<TrackingEntry>)
    requires ComposerSessions(es).Ok?
    ensures Images(ComposerSessions(es).value, SessionId) == GroupKeys(SessionGroups(es).value)
    ensures Distinct(Images(ComposerSessions(es).value, SessionId))
    ensures forall j :: 0 <= j < |es| && EntryComposerId(es[j]).Ok? && Truthy(EntryComposerId(es[j]).value) ==>
              EntryComposerId(es[j]).value in Images(ComposerSessions(es).value, SessionId)
  {
    var f := Filter(es, ForSession);
    var gs := SessionGroups(es).value;
    var ss := ComposerSessions(es).value;
    GroupedKeys(f, SessionKey);
    var ks := KeyValues(f, SessionKey);
    FirstOccurrencesDistinct(ks);
    assert Images(ss, SessionId) == GroupKeys(gs);
    forall j | 0 <= j < |es| && EntryComposerId(es[j]).Ok? && Truthy(EntryComposerId(es[j]).value)
      ensures EntryComposerId(es[j]).value in GroupKeys(gs)
    {
      FilterMembers(es, ForSession, es[j]);
      var k :| 0 <= k < |f| && f[k] == es[j];
      assert ks[k] == EntryComposerId(es[j]).value;
    }
  }

  /** Each session counts exactly the entries that carry its composer id. */
  lemma SessionCounts(es: seq<TrackingEntry>, i: nat)
    requires ComposerSessions(es).Ok? && i < |ComposerSessions(es).value|
    ensures ComposerSessions(es).value[i].entriesCount
         == |Filter(es, KeyIs(EntryComposerId, ComposerSessions(es).value[i].composerId))|
  {
    var gs := SessionGroups(es).value;
    var q := gs[i].0;
    SessionIds(es);
    assert q == GroupKeys(gs)[i];
    SessionKeyFacts(es, q);
    GroupOfAt(gs, i);
    SessionGroupMembers(es, q);
  }

  /** The group of a truthy, hashable composer id holds exactly the entries that carry it. */
  lemma SessionGroupMembers(es: seq<TrackingEntry>, q: Json)
    requires SessionGroups(es).Ok? && Truthy(q) && Hashable(q)
    ensures GroupOf(SessionGroups(es).value, q) == Filter(es, KeyIs(EntryComposerId, q))
  {
    var f := Filter(es, ForSession);
    GroupedMembers(f, SessionKey, q);
    FilterTwice(es, ForSession, KeyIs(SessionKey, q));
    forall x | x in es
      ensures Both(ForSession, KeyIs(SessionKey, q))(x) == KeyIs(EntryComposerId, q)(x)
    {
      SessionKeyIs(x, q);
    }
    FilterSame(es, Both(ForSession, KeyIs(SessionKey, q)), KeyIs(EntryComposerId, q));
  }

  lemma SessionKeyIs(e: TrackingEntry, q: Json)
    requires Truthy(q) && Hashable(q)
    ensures (ForSession(e) && SessionKey(e) == Ok(q)) <==> EntryComposerId(e) == Ok(q)
  {
  }

  // ----- get_cursordiskkv_entry -----

  /** What `get_cursordiskkv_entry` returns: nothing, the raw value, a typed record, or the inline diffs. */
  datatype Entry = NoEntry | Raw(value: Json) | Model(record: Record) | Inline(diffs: InlineDiffs)

  const BubblePattern := "bubbleId:{bubble_id}:{conversation_id}"
  const InlinePrefix := "inlineDiffs-"

  /** The key prefix each record kind is stored under. */
  function KindPrefix(kind: Kind): string
  {
    match kind
    case Bubble => "bubbleId:"
    case MessageRequestContext => "messageRequestContext:"
    case Checkpoint => "checkpointId:"
    case CodeBlockDiff => "codeBlockDiff:"
    case ComposerData => "composerData:"
  }

  /** A key that no known prefix claims. */
  predicate Unrouted(key: string)
  {
    (forall kind: Kind :: !(KindPrefix(kind) <= key)) && !(InlinePrefix <= key)
  }

  /** `s.replace(pat, "")`: every occurrence, found left to right without overlap. */
  function RemoveAll(s: string, pat: string): string
    requires pat != ""
    decreases |s|
  {
    if |s| < |pat| then s
    else if s[..|pat|] == pat then RemoveAll(s[|pat|..], pat)
    else [s[0]] + RemoveAll(s[1..], pat)
  }

  /** `key_parts.get(name) if key_parts else None`. */
  function PartOf(parts: Option<KeyMap>, name: string): Option<string>
  {
    if parts.Some? && name in parts.value then Some(parts.value[name]) else None
  }

  function ModelEntry(r: Result<Record>): Result<Entry>
  {
    match r
    case Ok(x) => Ok(Model(x))
    case Err(e) => Err(e)
  }

  /** A bubble key, once parsed: its ids handed to `from_dict`. */
  function BubbleEntry(keyParts: Result<Option<KeyMap>>, fields: seq<(string, Json)>): Result<Entry>
  {
    match keyParts
    case Err(e) => Err(e)
    case Ok(parts) => ModelEntry(BubbleOf(fields, PartOf(parts, "bubble_id"), PartOf(parts, "conversation_id")))
  }

  /** An `inlineDiffs-` key: the workspace id is the key with every `inlineDiffs-` removed. */
  function InlineEntry(key: string, fields: seq<(string, Json)>): Result<Entry>
  {
    Ok(Inline(InlineDiffsFromDict(RemoveAll(key, InlinePrefix), fields)))
  }

  /** The first record kind, in the order the source tries them, whose prefix the key carries. */
  function RoutedKind(key: string): (r: Option<Kind>)
    ensures r.Some? ==> KindPrefix(r.value) <= key
    ensures r.None? <==> forall kind: Kind :: !(KindPrefix(kind) <= key)
  {
    if KindPrefix(Bubble) <= key then Some(Bubble)
    else if KindPrefix(MessageRequestContext) <= key then Some(MessageRequestContext)
    else if KindPrefix(Checkpoint) <= key then Some(Checkpoint)
    else if KindPrefix(CodeBlockDiff) <= key then Some(CodeBlockDiff)
    else if KindPrefix(ComposerData) <= key then Some(ComposerData)
    else None
  }

  /** The routing of `get_cursordiskkv_entry` once the stored value is decoded. */
  function EntryOf(key: string, data: Json): Result<Entry>
  {
    if !data.JObj? then (if data == JNull then Ok(NoEntry) else Ok(Raw(data)))
    else match RoutedKind(key)
      case Some(kind) =>
        if kind == Bubble then BubbleEntry(KeyParts(key, BubblePattern), data.fields) else ModelEntry(PlainFromDict(kind, data.fields))
      case None =>
        if InlinePrefix <= key then InlineEntry(key, data.fields) else Ok(Raw(data))
  }

  /** None and values that are not dicts are returned as they are. */
  lemma EntryOfNonDict(key: string, data: Json)
    requires !data.JObj?
    ensures EntryOf(key, data) == if data == JNull then Ok(NoEntry) else Ok(Raw(data))
  {
  }

  /** A dict under a key no prefix claims is returned as the raw dict. */
  lemma EntryOfUnrouted(key: string, data: Json)
    requires data.JObj? && Unrouted(key)
    ensures EntryOf(key, data) == Ok(Raw(data))
  {
    hide *;
    EntryOfStep(key, data);
    UnroutedIs(key);
  }

  /** A bubble entry holds a bubble record. */
  lemma BubbleEntryKind(keyParts: Result<Option<KeyMap>>, fields: seq<(string, Json)>)
    requires BubbleEntry(keyParts, fields).Ok? && BubbleEntry(keyParts, fields).value.Model?
    ensures BubbleEntry(keyParts, fields).value.record.kind == Bubble
  {
    hide *;
    BubbleEntryStep(keyParts, fields);
    var parts := keyParts.value;
    var r := BubbleOf(fields, PartOf(parts, "bubble_id"), PartOf(parts, "conversation_id"));
    BubbleOfKind(fields, PartOf(parts, "bubble_id"), PartOf(parts, "conversation_id"));
    ModelEntryKind(r, Bubble);
  }

  /** A typed record is of the kind whose prefix the key carries. */
  lemma EntryOfKind(key: string, data: Json)
    requires EntryOf(key, data).Ok? && EntryOf(key, data).value.Model?
    ensures KindPrefix(EntryOf(key, data).value.record.kind) <= key
  {
    hide *;
    EntryOfStep(key, data);
    InlineEntryIsInline(key, data);
    var kind := RoutedKind(key).value;
    if kind == Bubble {
      BubbleEntryKind(KeyParts(key, BubblePattern), data.fields);
    } else {
      PlainOfKind(kind, data.fields);
      ModelEntryKind(PlainFromDict(kind, data.fields), kind);
    }
  }

  lemma EntryOfStep(key: string, data: Json)
    ensures EntryOf(key, data) ==
      if !data.JObj? then (if data == JNull then Ok(NoEntry) else Ok(Raw(data)))
      else match RoutedKind(key)
        case Some(kind) =>
          if kind == Bubble then BubbleEntry(KeyParts(key, BubblePattern), data.fields) else ModelEntry(PlainFromDict(kind, data.fields))
        case None =>
          if InlinePrefix <= key then InlineEntry(key, data.fields) else Ok(Raw(data))
  {
  }

  lemma UnroutedIs(key: string)
    ensures Unrouted(key) <==> (forall kind: Kind :: !(KindPrefix(kind) <= key)) && !(InlinePrefix <= key)
  {
  }

  lemma BubbleEntryStep(keyParts: Result<Option<KeyMap>>, fields: seq<(string, Json)>)
    ensures BubbleEntry(keyParts, fields) ==
      match keyParts
      case Err(e) => Err(e)
      case Ok(parts) => ModelEntry(BubbleOf(fields, PartOf(parts, "bubble_id"), PartOf(parts, "conversation_id")))
  {
  }

  lemma ModelEntryKind(r: Result<Record>, kind: Kind)
    requires r.Ok? ==> r.value.kind == kind
    ensures ModelEntry(r).Ok? && ModelEntry(r).value.Model? ==> ModelEntry(r).value.record.kind == kind
  {
  }

  lemma InlineEntryIsInline(key: string, fields: Json)
    requires fields.JObj?
    ensures InlineEntry(key, fields.fields).Ok? && InlineEntry(key, fields.fields).value.Inline?
  {
  }

  /** `from_dict` of a bubble builds a bubble. */
  lemma BubbleOfKind(data: seq<(string, Json)>, bubbleId: Option<string>, conversationId: Option<string>)
    ensures BubbleOf(data, bubbleId, conversationId).Ok? ==> BubbleOf(data, bubbleId, conversationId).value.kind == Bubble
  {
    hide FieldNames, Default, BubbleKwargs, AutoMapped;
  }

  /** `from_dict` of any other kind builds a record of that kind. */
  lemma PlainOfKind(kind: Kind, data: seq<(string, Json)>)
    requires kind != Bubble
    ensures PlainFromDict(kind, data).Ok? ==> PlainFromDict(kind, data).value.kind == kind
  {
    hide FieldNames, Default, AutoMapped, Put;
  }

  /** The entry stored under `key`: its value decoded and routed, or nothing when no row has that key. */
  function StoredEntry(store: Store, dec: Decoder, key: string): Result<Entry>
  {
    var rows := store.diskRows(ExactKey(key), None);
    if rows == [] then Ok(NoEntry) else EntryOf(key, DecodeJsonValue(rows[0].value, dec))
  }

  /** A bubble key `bubbleId:<b>:<c>` parses into both of its ids. */
  lemma BubbleKeyIds(bubbleId: string, conversationId: string)
    requires bubbleId != "" && ':' !in bubbleId && '\n' !in conversationId
    ensures KeyParts("bubbleId:" + bubbleId + ":" + conversationId, BubblePattern)
         == Ok(Some(map["bubble_id" := bubbleId, "conversation_id" := conversationId]))
  {
    hide *;
    BubbleNames();
    BubbleStrings();
    BubbleLiterals();
    TwoGroupKeyParts("bubbleId:", "bubble_id", bubbleId, ":", "conversation_id", conversationId);
  }

  lemma BubbleLiterals()
    ensures BubblePattern == "bubbleId:{bubble_id}:{conversation_id}"
    ensures '{' !in "bubbleId:" && '{' !in ":" && ":" != "" && ":"[0] == ':' && "bubble_id" != "conversation_id"
  {
  }

  /** Both ids of a parsed bubble key reach `from_dict`. */
  lemma BubbleEntryOfIds(data: seq<(string, Json)>, bubbleId: string, conversationId: string)
    ensures BubbleEntry(Ok(Some(map["bubble_id" := bubbleId, "conversation_id" := conversationId])), data)
         == ModelEntry(BubbleOf(data, Some(bubbleId), Some(conversationId)))
  {
    var parts := map["bubble_id" := bubbleId, "conversation_id" := conversationId];
    BubbleIdsOfParts(bubbleId, conversationId);
    SameIds(data, PartOf(Some(parts), "bubble_id"), PartOf(Some(parts), "conversation_id"), Some(bubbleId), Some(conversationId));
  }

  lemma BubbleIdsOfParts(bubbleId: string, conversationId: string)
    ensures PartOf(Some(map["bubble_id" := bubbleId, "conversation_id" := conversationId]), "bubble_id") == Some(bubbleId)
    ensures PartOf(Some(map["bubble_id" := bubbleId, "conversation_id" := conversationId]), "conversation_id") == Some(conversationId)
  {
  }

  lemma SameIds(data: seq<(string, Json)>, b1: Option<string>, c1: Option<string>, b2: Option<string>, c2: Option<string>)
    requires b1 == b2 && c1 == c2
    ensures ModelEntry(BubbleOf(data, b1, c1)) == ModelEntry(BubbleOf(data, b2, c2))
  {
  }

  /** A bubble key hands both of its ids to `from_dict`. */
  lemma BubbleEntryIds(bubbleId: string, conversationId: string, data: seq<(string, Json)>)
    requires bubbleId != "" && ':' !in bubbleId && '\n' !in conversationId
    ensures EntryOf("bubbleId:" + bubbleId + ":" + conversationId, JObj(data))
         == ModelEntry(BubbleOf(data, Some(bubbleId), Some(conversationId)))
  {
    hide *;
    var key := "bubbleId:" + bubbleId + ":" + conversationId;
    BubbleKeyIds(bubbleId, conversationId);
    BubbleEntryOfIds(data, bubbleId, conversationId);
    BubbleKeyRouted(bubbleId, conversationId);
    EntryOfBubble(key, JObj(data));
  }

  lemma BubbleKeyRouted(bubbleId: string, conversationId: string)
    ensures RoutedKind("bubbleId:" + bubbleId + ":" + conversationId) == Some(Bubble)
  {
    assert KindPrefix(Bubble) <= "bubbleId:" + bubbleId + ":" + conversationId;
  }

  lemma EntryOfBubble(key: string, data: Json)
    requires data.JObj? && RoutedKind(key) == Some(Bubble)
    ensures EntryOf(key, data) == BubbleEntry(KeyParts(key, BubblePattern), data.fields)
  {
    hide *;
    EntryOfStep(key, data);
  }

  /** `pat` occurs in `s` starting at position `i`. */
  predicate OccursAt(s: string, pat: string, i: nat)
  {
    i + |pat| <= |s| && s[i..i + |pat|] == pat
  }

  /** A string without the pattern is left as it is. */
  lemma {:induction false} RemoveNothing(s: string, pat: string)
    requires pat != "" && forall i: nat :: !OccursAt(s, pat, i)
    ensures RemoveAll(s, pat) == s
    decreases |s|
  {
    if |s| >= |pat| {
      assert s[..|pat|] == s[0..0 + |pat|];
      assert !OccursAt(s, pat, 0);
      forall i: nat ensures !OccursAt(s[1..], pat, i) {
        assert !OccursAt(s, pat, i + 1);
        if i + |pat| <= |s[1..]| {
          assert s[1..][i..i + |pat|] == s[i + 1..i + 1 + |pat|];
        }
      }
      RemoveNothing(s[1..], pat);
      assert s == [s[0]] + s[1..];
    }
  }

  /** Text before an inner `inlineDiffs-` that holds no `i` is kept, and the marker itself is dropped. */
  lemma {:induction false} RemoveInnerMarker(a: string, b: string)
    requires 'i' !in a
    ensures RemoveAll(a + InlinePrefix + b, InlinePrefix) == a + RemoveAll(b, InlinePrefix)
    decreases |a|
  {
    var s := a + InlinePrefix + b;
    if a == [] {
      assert s == InlinePrefix + b;
      assert s[..|InlinePrefix|] == InlinePrefix && s[|InlinePrefix|..] == b;
    } else {
      assert s[0] == a[0] != 'i';
      assert s[..|InlinePrefix|] != InlinePrefix by {
        assert s[..|InlinePrefix|][0] == s[0];
      }
      assert s[1..] == a[1..] + InlinePrefix + b;
      assert 'i' !in a[1..] by {
        assert forall c :: c in a[1..] ==> c in a;
      }
      RemoveInnerMarker(a[1..], b);
      assert a == [a[0]] + a[1..];
    }
  }

  /** A string without `i` holds no `inlineDiffs-` to remove. */
  lemma NoMarker(s: string)
    requires 'i' !in s
    ensures RemoveAll(s, InlinePrefix) == s
  {
    forall i: nat ensures !OccursAt(s, InlinePrefix, i) {
      if i + |InlinePrefix| <= |s| {
        assert s[i..i + |InlinePrefix|][0] == s[i];
      }
    }
    RemoveNothing(s, InlinePrefix);
  }

  /** No record prefix starts with `i`. */
  lemma NoKindStartsWithI(key: string)
    requires key != [] && key[0] == 'i'
    ensures RoutedKind(key) == None
  {
    forall kind: Kind ensures !(KindPrefix(kind) <= key) {
      assert KindPrefix(kind)[0] != 'i';
    }
  }

  /** The workspace id of `inlineDiffs-<w>` is `<w>` with every further `inlineDiffs-` removed as well. */
  lemma InlineEntryId(w: string, data: seq<(string, Json)>)
    ensures EntryOf(InlinePrefix + w, JObj(data)) == Ok(Inline(InlineDiffs(RemoveAll(w, InlinePrefix), data)))
  {
    hide *;
    var key := InlinePrefix + w;
    InlinePrefixIs();
    EntryOfStep(key, JObj(data));
    assert key[..|InlinePrefix|] == InlinePrefix && key[|InlinePrefix|..] == w;
    NoKindStartsWithI(key);
    RemoveAllStep(key, InlinePrefix);
    InlineEntryStep(key, data);
  }

  lemma InlinePrefixIs()
    ensures InlinePrefix == "inlineDiffs-"
  {
  }

  lemma RemoveAllStep(s: string, pat: string)
    requires pat != ""
    ensures RemoveAll(s, pat) ==
      if |s| < |pat| then s
      else if s[..|pat|] == pat then RemoveAll(s[|pat|..], pat)
      else [s[0]] + RemoveAll(s[1..], pat)
  {
  }

  lemma InlineEntryStep(key: string, fields: seq<(string, Json)>)
    ensures InlineEntry(key, fields) == Ok(Inline(InlineDiffs(RemoveAll(key, InlinePrefix), fields)))
  {
  }

  /**
   * So `inlineDiffs-<a>inlineDiffs-<b>` (for example `inlineDiffs-ws-inlineDiffs-1`) is filed under
   * the workspace `<a><b>` (`ws-1`), not `<a>inlineDiffs-<b>`.
   */
  lemma InlineIdDropsInnerMarker(a: string, b: string, data: seq<(string, Json)>)
    requires 'i' !in a && 'i' !in b
    ensures EntryOf(InlinePrefix + a + InlinePrefix + b, JObj(data)) == Ok(Inline(InlineDiffs(a + b, data)))
  {
    hide *;
    assert InlinePrefix + a + InlinePrefix + b == InlinePrefix + (a + InlinePrefix + b);
    InlineEntryId(a + InlinePrefix + b, data);
    RemoveInnerMarker(a, b);
    NoMarker(b);
  }

  // ----- the client -----

  /** The tables `search_keys` and `iterate_all_keys` accept. */
  predicate KnownTable(table: string)
  {
    table == "ItemTable" || table == "cursorDiskKV"
  }

  /** `CursorDataClient`: the store it reads and its lazily opened connection. */
  class CursorDataClient {
    const store: Store
    const dec: Decoder
    /** Whether `_connection` holds an open connection. */
    var connected: bool
    /** How many connections have been opened so far. */
    ghost var openings: nat

    constructor(store: Store, dec: Decoder)
      ensures this.store == store && this.dec == dec
      ensures !connected && openings == 0
    {
      this.store := store;
      this.dec := dec;
      connected := false;
      openings := 0;
    }

    /** The connection is open afterwards, and a new one was opened only if none was. */
    twostate predicate Reused()
      reads this
    {
      connected && openings == if old(connected) then old(openings) else old(openings) + 1
    }

    /** `_get_connection`. */
    method GetConnection()
      modifies this
      ensures Reused()
    {
      if !connected {
        connected := true;
        openings := openings + 1;
      }
    }

    /** `close`: closing twice is closing once. */
    method Close()
      modifies this
      ensures !connected && openings == old(openings)
    {
      if connected {
        connected := false;
      }
    }

    /** `_query_cursordiskkv`. */
    method QueryDiskKV<T>(prefix: string, factory: Factory<T>, keyPattern: Option<string>,
                          filterId: Option<string>, limit: Option<int>, offset: int, exact: bool)
      returns (records: seq<T>)
      modifies this
      ensures Reused()
      ensures records == DiskRecords(store, dec, prefix, factory, keyPattern, filterId, limit, offset, exact)
    {
      GetConnection();
      var rows := store.diskRows(SelectionFor(prefix, filterId, exact), WindowFor(limit, offset));
      records := ParseRows(rows, dec, factory, None, keyPattern);
    }

    /** `get_value`. */
    method GetValue(key: string) returns (value: Option<Cell>)
      modifies this
      ensures Reused()
      ensures value == store.itemValue(key)
    {
      GetConnection();
      value := store.itemValue(key);
    }

    /** `get_json_value`. */
    method GetJsonValue(key: string) returns (value: Json)
      modifies this
      ensures Reused()
      ensures value == StoredJson(store, dec, key)
    {
      var cell := GetValue(key);
      if cell.None? {
        return JNull;
      }
      value := DecodeJsonValue(cell.value, dec);
    }

    /** `get_ai_code_tracking_entries`. */
    method GetTrackingEntries() returns (entries: seq<TrackingEntry>)
      modifies this
      ensures Reused()
      ensures entries == TrackingEntries(StoredJson(store, dec, TrackingLinesKey))
    {
      var data := GetJsonValue(TrackingLinesKey);
      entries := CollectEntries(data);
    }

    /** `get_ai_scored_commits`; `render` is `str` on a value that is not a string. */
    method GetScoredCommits(render: Json -> string) returns (commits: seq<string>)
      modifies this
      ensures Reused()
      ensures commits == ScoredCommits(StoredJson(store, dec, ScoredCommitsKey), render)
    {
      var data := GetJsonValue(ScoredCommitsKey);
      commits := ScoredCommits(data, render);
    }

    /** `get_usage_stats`, without the tracking start time. */
    method GetUsageStats(render: Json -> string) returns (stats: Result<UsageStats>)
      modifies this
      ensures Reused()
      ensures stats == UsageOf(TrackingEntries(StoredJson(store, dec, TrackingLinesKey)),
                               ScoredCommits(StoredJson(store, dec, ScoredCommitsKey), render))
    {
      var entries := GetTrackingEntries();
      var commits := GetScoredCommits(render);
      var tally := CountUsage(entries);
      if tally.Err? {
        return Err(tally.error);
      }
      stats := Ok(UsageStats(|entries|, |commits|, tally.value.counts, |tally.value.composers|));
    }

    /** `get_composer_sessions`. */
    method GetComposerSessions() returns (sessions: Result<seq<ComposerSession>>)
      modifies this
      ensures Reused()
      ensures sessions == ComposerSessions(TrackingEntries(StoredJson(store, dec, TrackingLinesKey)))
    {
      var entries := GetTrackingEntries();
      sessions := GroupSessions(entries);
    }

    /** `get_cursordiskkv_entry`. */
    method GetEntry(key: string) returns (entry: Result<Entry>)
      modifies this
      ensures Reused()
      ensures entry == StoredEntry(store, dec, key)
    {
      hide EntryOf, DecodeJsonValue;
      GetConnection();
      var rows := store.diskRows(ExactKey(key), None);
      if rows == [] {
        return Ok(NoEntry);
      }
      entry := EntryOf(key, DecodeJsonValue(rows[0].value, dec));
    }

    /** `search_keys`: an unknown table raises ValueError before the connection is touched. */
    method SearchKeys(pattern: string, table: string) returns (keys: Result<seq<string>>)
      modifies this
      ensures !KnownTable(table) ==> keys == Err(ValueError) && connected == old(connected) && openings == old(openings)
      ensures KnownTable(table) ==> keys == Ok(store.keysLike(table, pattern)) && Reused()
    {
      if !KnownTable(table) {
        return Err(ValueError);
      }
      GetConnection();
      keys := Ok(store.keysLike(table, pattern));
    }

    /** `iterate_all_keys`, with the keys collected up front. */
    method IterateAllKeys(table: string) returns (keys: Result<seq<string>>)
      modifies this
      ensures !KnownTable(table) ==> keys == Err(ValueError) && connected == old(connected) && openings == old(openings)
      ensures KnownTable(table) ==> keys == Ok(store.allKeys(table)) && Reused()
    {
      if !KnownTable(table) {
        return Err(ValueError);
      }
      GetConnection();
      keys := Ok(store.allKeys(table));
    }
  }
}
