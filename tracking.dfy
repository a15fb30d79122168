// The AI code tracking records of `models.py`: one tracking entry per line
// of generated code, and the composer session summary built from a group of
// entries.
module Tracking {
  import opened Wrappers
  import opened Json

  /** `AICodeTrackingEntry`: the entry's hash and its metadata, both as stored. */
  datatype TrackingEntry = TrackingEntry(hash: Json, metadata: Json)

  /**
   * `ComposerSession`. The two lists are built from Python sets, so their order is
   * not specified; they are modelled by the sets themselves.
   */
  datatype ComposerSession = ComposerSession(composerId: Json, filesModified: set<Json>, fileExtensions: set<Json>, entriesCount: nat)

  /** `AICodeTrackingEntry.from_dict`: `data["hash"]` (KeyError when absent) and `data.get("metadata", {})`. */
  function EntryFromDict(data: seq<(string, Json)>): (r: Result<TrackingEntry>)
    ensures r.Err? <==> "hash" !in Keys(data)
    ensures r.Err? ==> r.error == KeyError
    ensures r.Ok? ==> ("hash", r.value.hash) in data
    ensures r.Ok? && "metadata" !in Keys(data) ==> r.value.metadata == JObj([])
    ensures r.Ok? && "metadata" in Keys(data) ==> ("metadata", r.value.metadata) in data
  {
    match Find(data, "hash")
    case None => Err(KeyError)
    case Some(h) => Ok(TrackingEntry(h, Find(data, "metadata").GetOr(JObj([]))))
  }

  /** `metadata.get(key)`: None when absent; AttributeError when the metadata is not a dict. */
  function MetadataGet(e: TrackingEntry, key: string): (r: Result<Json>)
    ensures r.Ok? <==> e.metadata.JObj?
    ensures r.Ok? && key !in Keys(e.metadata.fields) ==> r.value == JNull
    ensures r.Ok? && key in Keys(e.metadata.fields) ==> (key, r.value) in e.metadata.fields
  {
    Get(e.metadata, key)
  }

  function EntrySource(e: TrackingEntry): Result<Json> { MetadataGet(e, "source") }
  function EntryComposerId(e: TrackingEntry): Result<Json> { MetadataGet(e, "composerId") }
  function EntryFileExtension(e: TrackingEntry): Result<Json> { MetadataGet(e, "fileExtension") }
  function EntryFileName(e: TrackingEntry): Result<Json> { MetadataGet(e, "fileName") }

  /** An entry built from a dict without `metadata` reports None for every metadata lookup. */
  lemma NoMetadataNoLookups(data: seq<(string, Json)>, key: string)
    requires "hash" in Keys(data) && "metadata" !in Keys(data)
    ensures MetadataGet(EntryFromDict(data).value, key) == Ok(JNull)
  {
  }

  /** `set(e.metadata.get(key) for e in es if e.metadata.get(key))`, evaluated left to right. */
  function TruthySet(es: seq<TrackingEntry>, key: string): Result<set<Json>>
  {
    if es == [] then Ok({})
    else match MetadataGet(es[0], key)
      case Err(e) => Err(e)
      case Ok(v) =>
        if Truthy(v) && !Hashable(v) then Err(TypeError)
        else
          match TruthySet(es[1..], key)
          case Err(e) => Err(e)
          case Ok(s) => Ok(if Truthy(v) then {v} + s else s)
  }

  /** Whether the set can be built: every lookup succeeds and every truthy value is hashable. */
  predicate AllHashable(es: seq<TrackingEntry>, key: string)
  {
    forall i :: 0 <= i < |es| ==>
      MetadataGet(es[i], key).Ok? && (Truthy(MetadataGet(es[i], key).value) ==> Hashable(MetadataGet(es[i], key).value))
  }

  /** The set is built exactly when no lookup raises and no truthy value is unhashable. */
  lemma {:induction false} TruthySetOk(es: seq<TrackingEntry>, key: string)
    ensures TruthySet(es, key).Ok? <==> AllHashable(es, key)
  {
    if es != [] {
      TruthySetOk(es[1..], key);
      assert forall i :: 0 <= i < |es[1..]| ==> es[1..][i] == es[i + 1];
      if AllHashable(es[1..], key) && MetadataGet(es[0], key).Ok? {
        var v := MetadataGet(es[0], key).value;
        if !Truthy(v) || Hashable(v) {
          forall i | 0 <= i < |es|
            ensures MetadataGet(es[i], key).Ok? && (Truthy(MetadataGet(es[i], key).value) ==> Hashable(MetadataGet(es[i], key).value))
          {
            if i > 0 {
              assert es[i] == es[1..][i - 1];
            }
          }
        }
      }
    }
  }

  /** The set holds the truthy values found under `key`, and nothing else. */
  lemma {:induction false} TruthySetMembers(es: seq<TrackingEntry>, key: string)
    requires TruthySet(es, key).Ok?
    ensures forall v :: v in TruthySet(es, key).value <==> Truthy(v) && exists i :: 0 <= i < |es| && MetadataGet(es[i], key) == Ok(v)
  {
    if es != [] {
      var v := MetadataGet(es[0], key).value;
      var rest := TruthySet(es[1..], key).value;
      TruthySetMembers(es[1..], key);
      forall w
        ensures w in TruthySet(es, key).value <==> Truthy(w) && exists i :: 0 <= i < |es| && MetadataGet(es[i], key) == Ok(w)
      {
        if w in rest {
          var i :| 0 <= i < |es[1..]| && MetadataGet(es[1..][i], key) == Ok(w);
          assert es[1..][i] == es[i + 1];
        }
        if Truthy(w) && exists i :: 0 <= i < |es| && MetadataGet(es[i], key) == Ok(w) {
          var i :| 0 <= i < |es| && MetadataGet(es[i], key) == Ok(w);
          if i > 0 {
            assert es[i] == es[1..][i - 1];
          }
        }
      }
    }
  }

  /** `ComposerSession.from_entries`; passing None for the entries raises TypeError. */
  function SessionFromEntries(composerId: Json, entries: Option<seq<TrackingEntry>>): (r: Result<ComposerSession>)
    ensures entries.None? ==> r == Err(TypeError)
    ensures r.Ok? ==> r.value.composerId == composerId && r.value.entriesCount == |entries.value|
    ensures r.Ok? ==> forall f :: f in r.value.filesModified <==>
                        Truthy(f) && exists i :: 0 <= i < |entries.value| && EntryFileName(entries.value[i]) == Ok(f)
    ensures r.Ok? ==> forall x :: x in r.value.fileExtensions <==>
                        Truthy(x) && exists i :: 0 <= i < |entries.value| && EntryFileExtension(entries.value[i]) == Ok(x)
  {
    match entries
    case None => Err(TypeError)
    case Some(es) =>
      match TruthySet(es, "fileName")
      case Err(e) => Err(e)
      case Ok(files) =>
        TruthySetMembers(es, "fileName");
        match TruthySet(es, "fileExtension")
        case Err(e) => Err(e)
        case Ok(exts) =>
          TruthySetMembers(es, "fileExtension");
          Ok(ComposerSession(composerId, files, exts, |es|))
  }

  /** Entries whose metadata are dicts of strings always build a session. */
  lemma SessionOfStringMetadata(composerId: Json, es: seq<TrackingEntry>)
    requires forall i :: 0 <= i < |es| ==> es[i].metadata.JObj?
    requires forall i, j :: 0 <= i < |es| && 0 <= j < |es[i].metadata.fields| ==> es[i].metadata.fields[j].1.JStr?
    ensures SessionFromEntries(composerId, Some(es)).Ok?
  {
    TruthySetOk(es, "fileName");
    TruthySetOk(es, "fileExtension");
    forall i, key | 0 <= i < |es|
      ensures Truthy(MetadataGet(es[i], key).value) ==> Hashable(MetadataGet(es[i], key).value)
    {
      var v := MetadataGet(es[i], key).value;
      if key in Keys(es[i].metadata.fields) {
        var j :| 0 <= j < |es[i].metadata.fields| && es[i].metadata.fields[j] == (key, v);
      }
    }
  }

  /** No entries: no files, no extensions and a count of 0. */
  lemma EmptySession(composerId: Json)
    ensures SessionFromEntries(composerId, Some([])) == Ok(ComposerSession(composerId, {}, {}, 0))
  {
  }
}
