// The records of `cursordiskkv_models.py`. A dataclass is a kind plus the
// values of its declared fields; constructing one from keyword arguments fails
// with TypeError on any argument that is not a declared field, and every
// declared field that is not passed keeps its default.
module Records {
  import opened Wrappers
  import opened Json
  import opened Naming
  import opened Utils

  datatype Kind = Bubble | MessageRequestContext | Checkpoint | CodeBlockDiff | ComposerData

  /** A dataclass instance: the value of each declared field. */
  datatype Record = Record(kind: Kind, fields: map<string, Json>)

  /** `InlineDiffs`: the workspace id and the stored dict, kept as given. */
  datatype InlineDiffs = InlineDiffs(workspaceId: string, data: seq<(string, Json)>)

  // ----- declared fields and their defaults -----

  /** Core fields. */
  function CoreFields(): set<string>
  {
    {"_v", "type", "bubble_id", "request_id", "checkpoint_id", "text", "rich_text", "created_at"}
  }

  /** Context and attached items. */
  function ContextFields(): set<string>
  {
    {"context", "attached_code_chunks", "attached_file_code_chunks_metadata_only",
     "attached_folders", "attached_folders_new", "attached_folders_list_dir_results",
     "attached_human_changes", "human_changes", "cursor_rules", "knowledge_items",
     "docs_references", "web_references", "ai_web_search_results", "external_links"}
  }

  /** Code and diffs. */
  function CodeFields(): set<string>
  {
    {"suggested_code_blocks", "user_responses_to_suggested_code_blocks",
     "assistant_suggested_diffs", "diffs_since_last_apply", "git_diffs", "file_diff_trajectories",
     "diff_histories", "diffs_for_compressing_files", "codebase_context_chunks"}
  }

  /** Linting and errors. */
  function LintFields(): set<string>
  {
    {"lints", "approximate_lint_errors", "multi_file_linter_errors"}
  }

  /** Terminal and tools. */
  function ToolFields(): set<string>
  {
    {"terminal_files", "existed_previous_terminal_command", "existed_subsequent_terminal_command",
     "interpreter_results", "tool_results", "supported_tools"}
  }

  /** Version control. */
  function VersionControlFields(): set<string>
  {
    {"commits", "pull_requests"}
  }

  /** UI and capabilities. */
  function UiFields(): set<string>
  {
    {"capabilities", "capability_statuses", "capability_contexts", "ui_element_picked", "notepads",
     "recent_locations_history", "recently_viewed_files"}
  }

  /** Project and layout. */
  function LayoutFields(): set<string>
  {
    {"project_layouts", "relevant_files"}
  }

  /** Composer integration. */
  function ComposerFields(): set<string>
  {
    {"summarized_composers", "edit_trail_contexts", "all_thinking_blocks", "context_pieces"}
  }

  /** Metadata. */
  function MetadataFields(): set<string>
  {
    {"is_agentic", "is_refunded", "is_nudge", "is_quick_search_query", "is_plan_execution",
     "use_web", "unified_mode", "edit_tool_supports_search_and_replace", "skip_rendering",
     "token_count", "model_info", "console_logs", "todos", "deleted_files", "images",
     "documentation_selections"}
  }

  function MessageRequestContextFields(): set<string>
  {
    {"multi_file_linter_errors", "terminal_files", "cursor_rules",
     "attached_folders_list_dir_results", "summarized_composers", "deleted_files",
     "diffs_since_last_apply", "todos", "attached_file_code_chunks_metadata_only",
     "project_layouts", "knowledge_items", "_raw_data"}
  }

  function CheckpointFields(): set<string>
  {
    {"files", "non_existent_files", "newly_created_folders", "active_inline_diffs",
     "inline_diff_newly_created_resources", "_raw_data"}
  }

  function CodeBlockDiffFields(): set<string>
  {
    {"new_model_diff_wrt_v0", "original_model_diff_wrt_v0", "_raw_data"}
  }

  function ComposerDataFields(): set<string>
  {
    {"_v", "composer_id", "text", "rich_text", "has_loaded", "status", "context",
     "full_conversation_headers_only", "conversation_map", "git_graph_file_suggestions",
     "generating_bubble_ids", "is_reading_long_file", "code_block_data", "original_file_states",
     "newly_created_files", "_raw_data"}
  }

  /** The fields of `BubbleConversation`: its groups, then `_raw_data`. */
  function BubbleFields(): set<string>
  {
    CoreFields() + ContextFields() + CodeFields() + LintFields() + ToolFields()
    + VersionControlFields() + UiFields() + LayoutFields() + ComposerFields() + MetadataFields()
    + {"_raw_data"}
  }

  /** The declared fields of a kind. */
  function FieldNames(kind: Kind): set<string>
  {
    match kind
    case Bubble => BubbleFields()
    case MessageRequestContext => MessageRequestContextFields()
    case Checkpoint => CheckpointFields()
    case CodeBlockDiff => CodeBlockDiffFields()
    case ComposerData => ComposerDataFields()
  }

  predicate IsField(kind: Kind, name: string)
  {
    name in FieldNames(kind)
  }

  /** The fields declared `= None`. */
  function NoneDefaults(kind: Kind): set<string>
  {
    match kind
    case Bubble => CoreFields() + {"context", "unified_mode", "model_info"}
    case CodeBlockDiff => {"new_model_diff_wrt_v0", "original_model_diff_wrt_v0"}
    case ComposerData =>
      {"_v", "composer_id", "text", "rich_text", "status", "context", "full_conversation_headers_only",
       "conversation_map", "code_block_data", "original_file_states"}
    case _ => {}
  }

  /** The fields declared `= False`. */
  function FalseDefaults(kind: Kind): set<string>
  {
    match kind
    case Bubble =>
      {"attached_human_changes", "existed_previous_terminal_command", "existed_subsequent_terminal_command",
       "is_agentic", "is_refunded", "is_nudge", "is_quick_search_query", "is_plan_execution", "use_web",
       "edit_tool_supports_search_and_replace", "skip_rendering"}
    case ComposerData => {"has_loaded", "is_reading_long_file"}
    case _ => {}
  }

  /** The fields declared with `default_factory=dict`. */
  function DictDefaults(kind: Kind): set<string>
  {
    match kind
    case Bubble => {"capability_statuses", "token_count", "_raw_data"}
    case Checkpoint => {"files", "_raw_data"}
    case _ => {"_raw_data"}
  }

  /** The default of a declared field; every other field is declared with `default_factory=list`. */
  function Default(kind: Kind, name: string): (d: Json)
    ensures !Truthy(d)
    ensures d == JNull || d == JBool(false) || d == JObj([]) || d == JList([])
  {
    if name in DictDefaults(kind) then JObj([])
    else if name in NoneDefaults(kind) then JNull
    else if name in FalseDefaults(kind) then JBool(false)
    else JList([])
  }

  /** Every kind declares `_raw_data`, with `{}` as its default. */
  lemma RawDataDeclared(kind: Kind)
    ensures IsField(kind, "_raw_data") && Default(kind, "_raw_data") == JObj([])
  {
    hide FieldNames, NoneDefaults, FalseDefaults;
    assert "_raw_data" in DictDefaults(kind);
    if kind == Bubble {
      BubbleFieldFacts();
    } else {
      PlainRawData(kind);
    }
  }

  lemma PlainRawData(kind: Kind)
    requires kind != Bubble
    ensures "_raw_data" in FieldNames(kind)
  {
    hide BubbleFields, MessageRequestContextFields, CheckpointFields, CodeBlockDiffFields, ComposerDataFields;
    match kind
    case MessageRequestContext => ContextRawData();
    case Checkpoint => CheckpointRawData();
    case CodeBlockDiff => CodeBlockDiffRawData();
    case ComposerData => ComposerDataRawData();
  }

  lemma ContextRawData()
    ensures "_raw_data" in MessageRequestContextFields()
  {
  }

  lemma CheckpointRawData()
    ensures "_raw_data" in CheckpointFields()
  {
  }

  lemma CodeBlockDiffRawData()
    ensures "_raw_data" in CodeBlockDiffFields()
  {
  }

  lemma ComposerDataRawData()
    ensures "_raw_data" in ComposerDataFields()
  {
  }

  /** `cls(**kwargs)`: TypeError on an undeclared argument, otherwise the argument or the default for each field. */
  function Construct(kind: Kind, names: set<string>, kwargs: seq<(string, Json)>): (r: Result<Record>)
    ensures r.Ok? <==> Accepts(names, kwargs)
    ensures r.Err? ==> r.error == TypeError
    ensures r.Ok? ==> r.value.kind == kind && r.value.fields.Keys == names
    ensures r.Ok? ==> forall f :: f in Keys(kwargs) ==> r.value.fields[f] == Find(kwargs, f).value
    ensures r.Ok? ==> forall f :: f in names && f !in Keys(kwargs) ==> r.value.fields[f] == Default(kind, f)
  {
    if Accepts(names, kwargs) then
      Ok(Record(kind, map f | f in names :: match Find(kwargs, f) case Some(v) => v case None => Default(kind, f)))
    else Err(TypeError)
  }

  /** Every keyword argument names a declared field. */
  predicate Accepts(names: set<string>, kwargs: seq<(string, Json)>)
  {
    forall k :: k in Keys(kwargs) ==> k in names
  }

  /** Reading attribute `name` of a record. */
  function Field(r: Record, name: string): Json
  {
    if name in r.fields then r.fields[name] else JNull
  }

  /** The record with every field at its default. */
  function Defaults(kind: Kind): Record
  {
    Record(kind, map f | f in FieldNames(kind) :: Default(kind, f))
  }

  /** The all-defaults instance holds exactly the declared fields, none of them truthy. */
  lemma DefaultsFalsy(kind: Kind)
    ensures Defaults(kind).kind == kind && Defaults(kind).fields.Keys == FieldNames(kind)
    ensures forall f :: f in Defaults(kind).fields ==> !Truthy(Defaults(kind).fields[f])
  {
    hide FieldNames, Default;
  }

  /** With no keyword arguments every field keeps its default. */
  lemma NoArguments(kind: Kind)
    ensures Construct(kind, FieldNames(kind), []) == Ok(Defaults(kind))
  {
    AllDefaults(kind, FieldNames(kind));
  }

  lemma AllDefaults(kind: Kind, names: set<string>)
    ensures Construct(kind, names, []) == Ok(Record(kind, map f | f in names :: Default(kind, f)))
  {
    hide Default;
    assert Accepts(names, []);
    var r := Construct(kind, names, []).value;
    forall f | f in names
      ensures r.fields[f] == Default(kind, f)
    {
      assert f !in Keys<Json>([]);
    }
    assert r.fields == map f | f in names :: Default(kind, f);
  }

  /** Arguments that only repeat defaults build the all-defaults record. */
  lemma DefaultArguments(kind: Kind, names: set<string>, kw: seq<(string, Json)>)
    requires forall i :: 0 <= i < |kw| ==> kw[i].0 in names && kw[i].1 == Default(kind, kw[i].0)
    ensures Construct(kind, names, kw) == Ok(Record(kind, map f | f in names :: Default(kind, f)))
  {
    hide Default;
    AcceptsNamed(names, kw);
    var r := Construct(kind, names, kw).value;
    forall f | f in names
      ensures r.fields[f] == Default(kind, f)
    {
      if f in Keys(kw) {
        FoundDefault(kind, kw, f);
      }
    }
    assert r.fields == map f | f in names :: Default(kind, f);
  }

  lemma AcceptsNamed(names: set<string>, kw: seq<(string, Json)>)
    requires forall i :: 0 <= i < |kw| ==> kw[i].0 in names
    ensures Accepts(names, kw)
  {
    forall k | k in Keys(kw) ensures k in names {
      var i :| 0 <= i < |kw| && Keys(kw)[i] == k;
    }
  }

  lemma FoundDefault(kind: Kind, kw: seq<(string, Json)>, f: string)
    requires forall i :: 0 <= i < |kw| ==> kw[i].1 == Default(kind, kw[i].0)
    requires f in Keys(kw)
    ensures Find(kw, f).value == Default(kind, f)
  {
    var x := Find(kw, f).value;
    var i :| 0 <= i < |kw| && kw[i] == (f, x);
  }

  // ----- the simple kinds -----

  /** `from_dict` of `MessageRequestContext`, `Checkpoint`, `CodeBlockDiff` and `ComposerData`. */
  function PlainFromDict(kind: Kind, data: seq<(string, Json)>): Result<Record>
    requires kind != Bubble
  {
    Construct(kind, FieldNames(kind), Put(AutoMapped(data, []), "_raw_data", JObj([])))
  }

  lemma {:induction false} PutHasKey<V>(fs: seq<(string, V)>, k: string, v: V, q: string)
    ensures q in Keys(Put(fs, k, v)) <==> q in Keys(fs) || q == k
  {
    PutKeys(fs, k, v);
  }

  /** A simple record builds exactly when the snake-case form of every key of the dict is a declared field. */
  lemma PlainFromDictOk(kind: Kind, data: seq<(string, Json)>)
    requires kind != Bubble
    ensures PlainFromDict(kind, data).Ok? <==> forall i :: 0 <= i < |data| ==> IsField(kind, CamelToSnake(data[i].0))
  {
    hide FieldNames, Default;
    PlainRawData(kind);
    PlainOk(kind, FieldNames(kind), data);
  }

  lemma PlainOk(kind: Kind, names: set<string>, data: seq<(string, Json)>)
    requires "_raw_data" in names
    ensures Construct(kind, names, Put(AutoMapped(data, []), "_raw_data", JObj([]))).Ok?
        <==> forall i :: 0 <= i < |data| ==> CamelToSnake(data[i].0) in names
  {
    PlainArgumentsAccepted(names, data);
  }

  /** The keyword arguments of a simple `from_dict` are accepted exactly when every converted key is a field. */
  lemma PlainArgumentsAccepted(names: set<string>, data: seq<(string, Json)>)
    requires "_raw_data" in names
    ensures Accepts(names, Put(AutoMapped(data, []), "_raw_data", JObj([])))
        <==> forall i :: 0 <= i < |data| ==> CamelToSnake(data[i].0) in names
  {
    var kw := Put(AutoMapped(data, []), "_raw_data", JObj([]));
    if Accepts(names, kw) {
      forall i | 0 <= i < |data| ensures CamelToSnake(data[i].0) in names {
        var t := CamelToSnake(data[i].0);
        AutoMappedKeys(data, [], t);
        assert Target([], data[i].0) == t;
        PutHasKey(AutoMapped(data, []), "_raw_data", JObj([]), t);
      }
    } else {
      var k :| k in Keys(kw) && k !in names;
      PutHasKey(AutoMapped(data, []), "_raw_data", JObj([]), k);
      AutoMappedKeys(data, [], k);
      var i :| 0 <= i < |data| && Target([], data[i].0) == k;
    }
  }

  /** A simple record keeps no raw data, and each field named by a key of the dict holds a value of that dict. */
  lemma PlainFromDictFields(kind: Kind, data: seq<(string, Json)>, f: string)
    requires kind != Bubble && PlainFromDict(kind, data).Ok?
    ensures Field(PlainFromDict(kind, data).value, "_raw_data") == JObj([])
    ensures f != "_raw_data" && IsField(kind, f) && SnakeKeyIn(data, f) ==>
              exists j :: LastSnakeKey(data, f, j) && Field(PlainFromDict(kind, data).value, f) == data[j].1
    ensures f != "_raw_data" && IsField(kind, f) && !SnakeKeyIn(data, f) ==>
              Field(PlainFromDict(kind, data).value, f) == Default(kind, f)
  {
    hide FieldNames, Default, PlainFromDict;
    PlainBuilt(kind, data);
    PlainRawData(kind);
    PlainFields(kind, FieldNames(kind), data, f);
  }

  lemma PlainBuilt(kind: Kind, data: seq<(string, Json)>)
    requires kind != Bubble
    ensures PlainFromDict(kind, data) == Construct(kind, FieldNames(kind), Put(AutoMapped(data, []), "_raw_data", JObj([])))
  {
  }

  lemma PlainFields(kind: Kind, names: set<string>, data: seq<(string, Json)>, f: string)
    requires "_raw_data" in names && Construct(kind, names, Put(AutoMapped(data, []), "_raw_data", JObj([]))).Ok?
    ensures Field(Construct(kind, names, Put(AutoMapped(data, []), "_raw_data", JObj([]))).value, "_raw_data") == JObj([])
    ensures f != "_raw_data" && f in names && SnakeKeyIn(data, f) ==>
              exists j :: LastSnakeKey(data, f, j)
                       && Field(Construct(kind, names, Put(AutoMapped(data, []), "_raw_data", JObj([]))).value, f) == data[j].1
    ensures f != "_raw_data" && f in names && !SnakeKeyIn(data, f) ==>
              Field(Construct(kind, names, Put(AutoMapped(data, []), "_raw_data", JObj([]))).value, f) == Default(kind, f)
  {
    hide Default;
    var m := AutoMapped(data, []);
    var kw := Put(m, "_raw_data", JObj([]));
    PutFind(m, "_raw_data", JObj([]), "_raw_data");
    if f != "_raw_data" && f in names {
      PutFind(m, "_raw_data", JObj([]), f);
      if SnakeKeyIn(data, f) {
        SnakeMappedLast(data, f);
      } else {
        AutoMappedKeys(data, [], f);
        forall i | 0 <= i < |data| ensures Target([], data[i].0) != f {
          assert Target([], data[i].0) == CamelToSnake(data[i].0);
        }
      }
    }
  }

  // ----- BubbleConversation.from_dict -----

  predicate IdGiven(id: Option<string>)
  {
    id.Some? && id.value != ""
  }

  /** The dict stored under `k`, if that value is a dict. */
  function DictAt(kw: seq<(string, Json)>, k: string): Option<seq<(string, Json)>>
  {
    var v := Find(kw, k);
    if v.Some? && v.value.JObj? then Some(v.value.fields) else None
  }

  /** A top-level `model_name` becomes `model_info = {"modelName": ...}` when there is no `model_info`. */
  function NestModelName(kw: seq<(string, Json)>): seq<(string, Json)>
  {
    match Find(kw, "model_name")
    case Some(v) =>
      if "model_info" !in Keys(kw) then Put(Remove(kw, "model_name"), "model_info", JObj([("modelName", v)]))
      else RenameInModelInfo(kw)
    case None => RenameInModelInfo(kw)
  }

  /** Inside a dict `model_info`, a `model_name` entry is renamed `modelName`. */
  function RenameInModelInfo(kw: seq<(string, Json)>): seq<(string, Json)>
  {
    match DictAt(kw, "model_info")
    case Some(info) =>
      (match Find(info, "model_name")
       case Some(v) => Put(kw, "model_info", JObj(Put(Remove(info, "model_name"), "modelName", v)))
       case None => kw)
    case None => kw
  }

  /** The entries of `token_count` (a dict once `NestTokens` has started). */
  function Counts(kw: seq<(string, Json)>): seq<(string, Json)>
  {
    DictAt(kw, "token_count").GetOr([])
  }

  /** A top-level `from` moves into `token_count[to]`. */
  function MoveToken(kw: seq<(string, Json)>, from: string, to: string): seq<(string, Json)>
  {
    match Find(kw, from)
    case Some(v) =>
      var rest := Remove(kw, from);
      Put(rest, "token_count", JObj(Put(Counts(rest), to, v)))
    case None => kw
  }

  /** `token_count` becomes `{}` unless it is a dict, then the two token counts move into it. */
  function NestTokens(kw: seq<(string, Json)>): seq<(string, Json)>
  {
    var withCounts := if DictAt(kw, "token_count").Some? then kw else Put(kw, "token_count", JObj([]));
    MoveToken(MoveToken(withCounts, "input_tokens", "inputTokens"), "output_tokens", "outputTokens")
  }

  /** The raw data `from_dict` stores: the conversation id taken from the key, when one is given. */
  function KeyRawData(conversationId: Option<string>): seq<(string, Json)>
  {
    if IdGiven(conversationId) then [("conversation_id", JStr(conversationId.value))] else []
  }

  /** The ids taken from the key override `bubble_id` and go into `_raw_data`. */
  function ApplyKeyIds(kw: seq<(string, Json)>, bubbleId: Option<string>, conversationId: Option<string>): seq<(string, Json)>
  {
    var withId := if IdGiven(bubbleId) then Put(kw, "bubble_id", JStr(bubbleId.value)) else kw;
    var raw := KeyRawData(conversationId);
    Put(withId, "_raw_data", JObj(raw))
  }

  /** The keyword arguments `from_dict` ends with, from the auto-mapped dict. */
  function BubbleKwargs(kw: seq<(string, Json)>, bubbleId: Option<string>, conversationId: Option<string>): seq<(string, Json)>
  {
    ApplyKeyIds(NestTokens(NestModelName(kw)), bubbleId, conversationId)
  }

  function BubbleFromKwargs(kw: seq<(string, Json)>, bubbleId: Option<string>, conversationId: Option<string>): Result<Record>
  {
    Construct(Bubble, FieldNames(Bubble), BubbleKwargs(kw, bubbleId, conversationId))
  }

  /** What `BubbleConversation.from_dict(data, bubble_id, conversation_id)` returns or raises. */
  function BubbleOf(data: seq<(string, Json)>, bubbleId: Option<string>, conversationId: Option<string>): Result<Record>
  {
    BubbleFromKwargs(AutoMapped(data, []), bubbleId, conversationId)
  }

  /** `BubbleConversation.from_dict`, step by step on the keyword arguments. */
  method BubbleFromDict(data: seq<(string, Json)>, bubbleId: Option<string>, conversationId: Option<string>)
    returns (r: Result<Record>)
    ensures r == BubbleOf(data, bubbleId, conversationId)
  {
    hide FieldNames, Default;
    var kwargs, rawData := AutoMapCamelToSnake(data, []);
    ghost var mapped := kwargs;
    kwargs := NestModelNameStep(kwargs);
    kwargs := NestTokensStep(kwargs);
    if IdGiven(bubbleId) {
      kwargs := Put(kwargs, "bubble_id", JStr(bubbleId.value));
    }
    if IdGiven(conversationId) {
      rawData := Put(rawData, "conversation_id", JStr(conversationId.value));
    }
    kwargs := Put(kwargs, "_raw_data", JObj(rawData));
    assert kwargs == BubbleKwargs(mapped, bubbleId, conversationId);
    r := Construct(Bubble, FieldNames(Bubble), kwargs);
  }

  method NestModelNameStep(kw: seq<(string, Json)>) returns (kwargs: seq<(string, Json)>)
    ensures kwargs == NestModelName(kw)
  {
    kwargs := kw;
    var modelName := Find(kwargs, "model_name");
    var modelInfo := DictAt(kwargs, "model_info");
    if modelName.Some? && "model_info" !in Keys(kwargs) {
      kwargs := Remove(kwargs, "model_name");
      kwargs := Put(kwargs, "model_info", JObj([("modelName", modelName.value)]));
    } else if modelInfo.Some? {
      var info := modelInfo.value;
      var inner := Find(info, "model_name");
      if inner.Some? {
        info := Remove(info, "model_name");
        info := Put(info, "modelName", inner.value);
        kwargs := Put(kwargs, "model_info", JObj(info));
      }
    }
  }

  method NestTokensStep(kw: seq<(string, Json)>) returns (kwargs: seq<(string, Json)>)
    ensures kwargs == NestTokens(kw)
  {
    kwargs := kw;
    if DictAt(kwargs, "token_count").None? {
      kwargs := Put(kwargs, "token_count", JObj([]));
    }
    ghost var withCounts := kwargs;
    var input := Find(kwargs, "input_tokens");
    if input.Some? {
      kwargs := Remove(kwargs, "input_tokens");
      kwargs := Put(kwargs, "token_count", JObj(Put(Counts(kwargs), "inputTokens", input.value)));
    }
    assert kwargs == MoveToken(withCounts, "input_tokens", "inputTokens");
    var output := Find(kwargs, "output_tokens");
    if output.Some? {
      kwargs := Remove(kwargs, "output_tokens");
      kwargs := Put(kwargs, "token_count", JObj(Put(Counts(kwargs), "outputTokens", output.value)));
    }
  }

  // ----- the derived properties -----

  /** `input_tokens`: `token_count.get("inputTokens")`. */
  function InputTokens(r: Record): (t: Result<Json>)
    ensures t.Ok? <==> Field(r, "token_count").JObj?
  {
    Get(Field(r, "token_count"), "inputTokens")
  }

  /** `output_tokens`: `token_count.get("outputTokens")`. */
  function OutputTokens(r: Record): (t: Result<Json>)
    ensures t.Ok? <==> Field(r, "token_count").JObj?
  {
    Get(Field(r, "token_count"), "outputTokens")
  }

  /** `model_name`: `model_info.get("modelName")` when `model_info` is truthy, else None. */
  function ModelName(r: Record): (m: Result<Json>)
    ensures !Truthy(Field(r, "model_info")) ==> m == Ok(JNull)
    ensures m.Err? <==> Truthy(Field(r, "model_info")) && !Field(r, "model_info").JObj?
  {
    var info := Field(r, "model_info");
    if Truthy(info) then Get(info, "modelName") else Ok(JNull)
  }

  // ----- what from_dict promises -----

  lemma NestModelNameFrame(kw: seq<(string, Json)>, q: string)
    requires DistinctKeys(kw)
    ensures DistinctKeys(NestModelName(kw))
    ensures q != "model_name" && q != "model_info" ==> Find(NestModelName(kw), q) == Find(kw, q)
  {
    var m := Find(kw, "model_name");
    if m.Some? && "model_info" !in Keys(kw) {
      var rest := Remove(kw, "model_name");
      RemoveKeys(kw, "model_name", q);
      RemoveFind(kw, "model_name", q);
      PutDistinct(rest, "model_info", JObj([("modelName", m.value)]));
      PutFind(rest, "model_info", JObj([("modelName", m.value)]), q);
    } else if DictAt(kw, "model_info").Some? {
      var info := DictAt(kw, "model_info").value;
      if Find(info, "model_name").Some? {
        var v := JObj(Put(Remove(info, "model_name"), "modelName", Find(info, "model_name").value));
        PutDistinct(kw, "model_info", v);
        PutFind(kw, "model_info", v, q);
      }
    }
  }

  lemma MoveTokenFrame(kw: seq<(string, Json)>, from: string, to: string, q: string)
    requires DistinctKeys(kw) && from != "token_count"
    ensures DistinctKeys(MoveToken(kw, from, to))
    ensures from !in Keys(MoveToken(kw, from, to))
    ensures DictAt(kw, "token_count").Some? ==> DictAt(MoveToken(kw, from, to), "token_count").Some?
    ensures q != from && q != "token_count" ==> Find(MoveToken(kw, from, to), q) == Find(kw, q)
  {
    if Find(kw, from).Some? {
      var v := Find(kw, from).value;
      var rest := Remove(kw, from);
      RemoveKeys(kw, from, q);
      RemoveKeys(kw, from, from);
      RemoveFind(kw, from, q);
      RemoveFind(kw, from, "token_count");
      var c := JObj(Put(Counts(rest), to, v));
      PutDistinct(rest, "token_count", c);
      PutFind(rest, "token_count", c, q);
      PutFind(rest, "token_count", c, from);
      PutFind(rest, "token_count", c, "token_count");
    }
  }

  lemma NestTokensFrame(kw: seq<(string, Json)>, q: string)
    requires DistinctKeys(kw)
    ensures DistinctKeys(NestTokens(kw))
    ensures "input_tokens" !in Keys(NestTokens(kw)) && "output_tokens" !in Keys(NestTokens(kw))
    ensures DictAt(NestTokens(kw), "token_count").Some?
    ensures q != "input_tokens" && q != "output_tokens" && q != "token_count" ==> Find(NestTokens(kw), q) == Find(kw, q)
  {
    var w := if DictAt(kw, "token_count").Some? then kw else Put(kw, "token_count", JObj([]));
    if DictAt(kw, "token_count").None? {
      PutDistinct(kw, "token_count", JObj([]));
      PutFind(kw, "token_count", JObj([]), q);
      PutFind(kw, "token_count", JObj([]), "token_count");
    }
    var w1 := MoveToken(w, "input_tokens", "inputTokens");
    MoveTokenFrame(w, "input_tokens", "inputTokens", q);
    MoveTokenFrame(w, "input_tokens", "inputTokens", "output_tokens");
    MoveTokenFrame(w1, "output_tokens", "outputTokens", q);
    MoveTokenFrame(w1, "output_tokens", "outputTokens", "input_tokens");
  }

  lemma ApplyKeyIdsFrame(kw: seq<(string, Json)>, bubbleId: Option<string>, conversationId: Option<string>, q: string)
    ensures q != "bubble_id" && q != "_raw_data" ==> Find(ApplyKeyIds(kw, bubbleId, conversationId), q) == Find(kw, q)
  {
    var withId := if IdGiven(bubbleId) then Put(kw, "bubble_id", JStr(bubbleId.value)) else kw;
    if IdGiven(bubbleId) {
      PutFind(kw, "bubble_id", JStr(bubbleId.value), q);
    }
    var raw := KeyRawData(conversationId);
    PutFind(withId, "_raw_data", JObj(raw), q);
  }

  /** The ids from the key: a given bubble id replaces the stored one; a given conversation id is the only raw data. */
  lemma KeyIdsApplied(kw: seq<(string, Json)>, bubbleId: Option<string>, conversationId: Option<string>)
    requires BubbleFromKwargs(kw, bubbleId, conversationId).Ok?
    ensures IdGiven(bubbleId) ==> Field(BubbleFromKwargs(kw, bubbleId, conversationId).value, "bubble_id") == JStr(bubbleId.value)
    ensures Field(BubbleFromKwargs(kw, bubbleId, conversationId).value, "_raw_data") == JObj(KeyRawData(conversationId))
  {
    hide FieldNames, Default, BubbleFromKwargs, NestTokens, NestModelName;
    KwargsSteps(kw, bubbleId, conversationId);
    var n := NestTokens(NestModelName(kw));
    var withId := if IdGiven(bubbleId) then Put(n, "bubble_id", JStr(bubbleId.value)) else n;
    var raw := KeyRawData(conversationId);
    PutFind(withId, "_raw_data", JObj(raw), "_raw_data");
    FieldFromKwargs(kw, bubbleId, conversationId, "_raw_data", JObj(raw));
    if IdGiven(bubbleId) {
      PutFind(withId, "_raw_data", JObj(raw), "bubble_id");
      PutFind(n, "bubble_id", JStr(bubbleId.value), "bubble_id");
      FieldFromKwargs(kw, bubbleId, conversationId, "bubble_id", JStr(bubbleId.value));
    }
  }

  lemma KwargsSteps(kw: seq<(string, Json)>, bubbleId: Option<string>, conversationId: Option<string>)
    ensures BubbleKwargs(kw, bubbleId, conversationId) == ApplyKeyIds(NestTokens(NestModelName(kw)), bubbleId, conversationId)
  {
  }

  /** A field the final keyword arguments hold is the field of the built bubble. */
  lemma FieldFromKwargs(kw: seq<(string, Json)>, bubbleId: Option<string>, conversationId: Option<string>, f: string, x: Json)
    requires BubbleFromKwargs(kw, bubbleId, conversationId).Ok? && Find(BubbleKwargs(kw, bubbleId, conversationId), f) == Some(x)
    ensures Field(BubbleFromKwargs(kw, bubbleId, conversationId).value, f) == x
  {
    hide *;
    BuiltFromKwargs(kw, bubbleId, conversationId);
    ArgumentKept(Bubble, FieldNames(Bubble), BubbleKwargs(kw, bubbleId, conversationId), f, x);
  }

  /** A top-level `modelName` with no `modelInfo` is what `model_name` then reports. */
  lemma ModelNameFromTopLevel(kw: seq<(string, Json)>, v: Json, bubbleId: Option<string>, conversationId: Option<string>)
    requires DistinctKeys(kw)
    requires Find(kw, "model_name") == Some(v) && "model_info" !in Keys(kw)
    requires BubbleFromKwargs(kw, bubbleId, conversationId).Ok?
    ensures Field(BubbleFromKwargs(kw, bubbleId, conversationId).value, "model_info") == JObj([("modelName", v)])
    ensures ModelName(BubbleFromKwargs(kw, bubbleId, conversationId).value) == Ok(v)
  {
    hide *;
    var info := JObj([("modelName", v)]);
    ModelInfoNested(kw, v, bubbleId, conversationId);
    FieldFromKwargs(kw, bubbleId, conversationId, "model_info", info);
    ModelNameOfNested(BubbleFromKwargs(kw, bubbleId, conversationId).value, v);
  }

  lemma BuiltFromKwargs(kw: seq<(string, Json)>, bubbleId: Option<string>, conversationId: Option<string>)
    ensures BubbleFromKwargs(kw, bubbleId, conversationId) == Construct(Bubble, FieldNames(Bubble), BubbleKwargs(kw, bubbleId, conversationId))
  {
  }

  lemma ModelNameOfNested(r: Record, v: Json)
    requires Field(r, "model_info") == JObj([("modelName", v)])
    ensures ModelName(r) == Ok(v)
  {
    assert Find([("modelName", v)], "modelName") == Some(v);
  }

  lemma ModelInfoNested(kw: seq<(string, Json)>, v: Json, bubbleId: Option<string>, conversationId: Option<string>)
    requires DistinctKeys(kw)
    requires Find(kw, "model_name") == Some(v) && "model_info" !in Keys(kw)
    ensures Find(BubbleKwargs(kw, bubbleId, conversationId), "model_info") == Some(JObj([("modelName", v)]))
  {
    var m := NestModelName(kw);
    var rest := Remove(kw, "model_name");
    PutFind(rest, "model_info", JObj([("modelName", v)]), "model_info");
    NestModelNameFrame(kw, "model_info");
    NestTokensFrame(m, "model_info");
    ApplyKeyIdsFrame(NestTokens(m), bubbleId, conversationId, "model_info");
  }

  /** A field passed as a keyword argument holds the argument. */
  lemma ArgumentKept(kind: Kind, names: set<string>, kw: seq<(string, Json)>, f: string, x: Json)
    requires Construct(kind, names, kw).Ok? && Find(kw, f) == Some(x)
    ensures Field(Construct(kind, names, kw).value, f) == x
  {
  }

  /** A `model_name` inside a dict `modelInfo` is renamed `modelName`, and `model_name` then reports it. */
  lemma ModelNameFromModelInfo(kw: seq<(string, Json)>, info: seq<(string, Json)>, v: Json,
                               bubbleId: Option<string>, conversationId: Option<string>)
    requires DistinctKeys(kw)
    requires "model_name" !in Keys(kw) && Find(kw, "model_info") == Some(JObj(info)) && Find(info, "model_name") == Some(v)
    requires BubbleFromKwargs(kw, bubbleId, conversationId).Ok?
    ensures Field(BubbleFromKwargs(kw, bubbleId, conversationId).value, "model_info")
         == JObj(Put(Remove(info, "model_name"), "modelName", v))
    ensures ModelName(BubbleFromKwargs(kw, bubbleId, conversationId).value) == Ok(v)
  {
    hide *;
    var renamed := Put(Remove(info, "model_name"), "modelName", v);
    ModelInfoRenamed(kw, info, v, bubbleId, conversationId);
    FieldFromKwargs(kw, bubbleId, conversationId, "model_info", JObj(renamed));
    PutFind(Remove(info, "model_name"), "modelName", v, "modelName");
    ModelNameOfInfo(BubbleFromKwargs(kw, bubbleId, conversationId).value, renamed, v);
  }

  /** A dict `model_info` holding `modelName` is what `model_name` reports. */
  lemma ModelNameOfInfo(r: Record, info: seq<(string, Json)>, v: Json)
    requires Field(r, "model_info") == JObj(info) && Find(info, "modelName") == Some(v)
    ensures ModelName(r) == Ok(v)
  {
  }

  lemma ModelInfoRenamed(kw: seq<(string, Json)>, info: seq<(string, Json)>, v: Json,
                         bubbleId: Option<string>, conversationId: Option<string>)
    requires DistinctKeys(kw)
    requires "model_name" !in Keys(kw) && Find(kw, "model_info") == Some(JObj(info)) && Find(info, "model_name") == Some(v)
    ensures Find(BubbleKwargs(kw, bubbleId, conversationId), "model_info")
         == Some(JObj(Put(Remove(info, "model_name"), "modelName", v)))
  {
    hide BubbleKwargs, NestTokens, ApplyKeyIds;
    KwargsSteps(kw, bubbleId, conversationId);
    var renamed := Put(Remove(info, "model_name"), "modelName", v);
    var m := NestModelName(kw);
    PutFind(kw, "model_info", JObj(renamed), "model_info");
    assert Find(m, "model_info") == Some(JObj(renamed));
    NestModelNameFrame(kw, "model_info");
    NestTokensFrame(m, "model_info");
    ApplyKeyIdsFrame(NestTokens(m), bubbleId, conversationId, "model_info");
  }

  /** Quirk: with both `modelName` and `modelInfo`, `model_name` stays an argument and construction raises TypeError. */
  lemma ModelNameBesideModelInfoRaises(kw: seq<(string, Json)>, bubbleId: Option<string>, conversationId: Option<string>)
    requires DistinctKeys(kw)
    requires "model_name" in Keys(kw) && "model_info" in Keys(kw)
    ensures BubbleFromKwargs(kw, bubbleId, conversationId) == Err(TypeError)
  {
    hide FieldNames, Default;
    ModelNameStaysArgument(kw, bubbleId, conversationId);
    ModelNameUndeclared();
  }

  lemma ModelNameStaysArgument(kw: seq<(string, Json)>, bubbleId: Option<string>, conversationId: Option<string>)
    requires DistinctKeys(kw)
    requires "model_name" in Keys(kw) && "model_info" in Keys(kw)
    ensures "model_name" in Keys(BubbleKwargs(kw, bubbleId, conversationId))
  {
    var m := NestModelName(kw);
    assert m == RenameInModelInfo(kw);
    if DictAt(kw, "model_info").Some? {
      var info := DictAt(kw, "model_info").value;
      if Find(info, "model_name").Some? {
        PutFind(kw, "model_info", JObj(Put(Remove(info, "model_name"), "modelName", Find(info, "model_name").value)), "model_name");
      }
    }
    assert Find(m, "model_name").Some?;
    NestModelNameFrame(kw, "model_name");
    NestTokensFrame(m, "model_name");
    ApplyKeyIdsFrame(NestTokens(m), bubbleId, conversationId, "model_name");
  }

  /** An argument that is not a declared field of the bubble, and is not consumed on the way, makes construction raise. */
  lemma UndeclaredArgumentRaises(kw: seq<(string, Json)>, k: string, bubbleId: Option<string>, conversationId: Option<string>)
    requires DistinctKeys(kw)
    requires k in Keys(kw) && !IsField(Bubble, k)
    requires k != "model_name" && k != "input_tokens" && k != "output_tokens"
    ensures BubbleFromKwargs(kw, bubbleId, conversationId) == Err(TypeError)
  {
    hide FieldNames, Default;
    BubbleFieldFacts();
    var m := NestModelName(kw);
    NestModelNameFrame(kw, k);
    NestTokensFrame(m, k);
    ApplyKeyIdsFrame(NestTokens(m), bubbleId, conversationId, k);
    assert k in Keys(BubbleKwargs(kw, bubbleId, conversationId));
  }

  /** The entry a token count of the `from_dict` input ends up with: the top-level argument, else the stored one. */
  function Reported(kw: seq<(string, Json)>, arg: string, key: string): Option<Json>
  {
    if Find(kw, arg).Some? then Find(kw, arg) else Find(Counts(kw), key)
  }

  lemma MoveTokenCounts(kw: seq<(string, Json)>, from: string, to: string, key: string)
    requires DistinctKeys(kw) && from != "token_count" && DictAt(kw, "token_count").Some?
    ensures Find(Counts(MoveToken(kw, from, to)), key)
         == if key == to && Find(kw, from).Some? then Find(kw, from) else Find(Counts(kw), key)
  {
    if Find(kw, from).Some? {
      var v := Find(kw, from).value;
      var rest := Remove(kw, from);
      RemoveFind(kw, from, "token_count");
      var c := JObj(Put(Counts(rest), to, v));
      PutFind(rest, "token_count", c, "token_count");
      PutFind(Counts(rest), to, v, key);
    }
  }

  /** After `NestTokens`, `token_count` holds each moved count, and otherwise what it held before. */
  lemma NestTokensCounts(kw: seq<(string, Json)>)
    requires DistinctKeys(kw)
    ensures Find(Counts(NestTokens(kw)), "inputTokens") == Reported(kw, "input_tokens", "inputTokens")
    ensures Find(Counts(NestTokens(kw)), "outputTokens") == Reported(kw, "output_tokens", "outputTokens")
  {
    var w := if DictAt(kw, "token_count").Some? then kw else Put(kw, "token_count", JObj([]));
    if DictAt(kw, "token_count").None? {
      PutDistinct(kw, "token_count", JObj([]));
      PutFind(kw, "token_count", JObj([]), "token_count");
      PutFind(kw, "token_count", JObj([]), "input_tokens");
      PutFind(kw, "token_count", JObj([]), "output_tokens");
    }
    assert Counts(w) == Counts(kw);
    var w1 := MoveToken(w, "input_tokens", "inputTokens");
    MoveTokenFrame(w, "input_tokens", "inputTokens", "output_tokens");
    MoveTokenCounts(w, "input_tokens", "inputTokens", "inputTokens");
    MoveTokenCounts(w, "input_tokens", "inputTokens", "outputTokens");
    MoveTokenCounts(w1, "output_tokens", "outputTokens", "inputTokens");
    MoveTokenCounts(w1, "output_tokens", "outputTokens", "outputTokens");
  }

  /** `token_count` of the built bubble is the dict `NestTokens` produced. */
  lemma TokenCountKept(kw: seq<(string, Json)>, bubbleId: Option<string>, conversationId: Option<string>)
    requires DistinctKeys(kw) && BubbleFromKwargs(kw, bubbleId, conversationId).Ok?
    ensures Field(BubbleFromKwargs(kw, bubbleId, conversationId).value, "token_count") == JObj(Counts(NestTokens(NestModelName(kw))))
  {
    hide *;
    var m := NestModelName(kw);
    NestModelNameFrame(kw, "token_count");
    NestTokensFrame(m, "token_count");
    CountsFound(NestTokens(m));
    ApplyKeyIdsFrame(NestTokens(m), bubbleId, conversationId, "token_count");
    KwargsSteps(kw, bubbleId, conversationId);
    FieldFromKwargs(kw, bubbleId, conversationId, "token_count", JObj(Counts(NestTokens(m))));
  }

  lemma CountsFound(kw: seq<(string, Json)>)
    requires DictAt(kw, "token_count").Some?
    ensures Find(kw, "token_count") == Some(JObj(Counts(kw)))
  {
  }

  /**
   * `input_tokens` and `output_tokens` of a bubble built by `from_dict`: a top-level
   * `inputTokens`/`outputTokens` wins, else the entry of a stored `tokenCount` dict, else None.
   */
  lemma TokensReported(kw: seq<(string, Json)>, bubbleId: Option<string>, conversationId: Option<string>)
    requires DistinctKeys(kw) && BubbleFromKwargs(kw, bubbleId, conversationId).Ok?
    ensures InputTokens(BubbleFromKwargs(kw, bubbleId, conversationId).value)
         == Ok(Reported(kw, "input_tokens", "inputTokens").GetOr(JNull))
    ensures OutputTokens(BubbleFromKwargs(kw, bubbleId, conversationId).value)
         == Ok(Reported(kw, "output_tokens", "outputTokens").GetOr(JNull))
  {
    hide FieldNames, Default;
    var m := NestModelName(kw);
    TokenCountKept(kw, bubbleId, conversationId);
    NestModelNameFrame(kw, "token_count");
    NestModelNameFrame(kw, "input_tokens");
    NestModelNameFrame(kw, "output_tokens");
    NestTokensCounts(m);
    assert Counts(m) == Counts(kw);
    assert Reported(m, "input_tokens", "inputTokens") == Reported(kw, "input_tokens", "inputTokens");
    assert Reported(m, "output_tokens", "outputTokens") == Reported(kw, "output_tokens", "outputTokens");
  }

  /** An empty dict, and no ids from the key, give the bubble with every field at its default. */
  lemma EmptyBubble()
    ensures BubbleOf([], None, None) == Ok(Defaults(Bubble))
  {
    hide FieldNames, Default, BubbleKwargs;
    EmptyKwargs();
    BubbleFieldFacts();
    DictDefaulted();
    DefaultArguments(Bubble, FieldNames(Bubble), [("token_count", JObj([])), ("_raw_data", JObj([]))]);
  }

  lemma EmptyKwargs()
    ensures BubbleKwargs(AutoMapped([], []), None, None) == [("token_count", JObj([])), ("_raw_data", JObj([]))]
  {
    assert AutoMapped([], []) == [];
    assert NestModelName([]) == [];
    assert NestTokens([]) == [("token_count", JObj([]))];
  }

  lemma DictDefaulted()
    ensures Default(Bubble, "token_count") == JObj([]) && Default(Bubble, "_raw_data") == JObj([])
  {
    assert "token_count" in DictDefaults(Bubble) && "_raw_data" in DictDefaults(Bubble);
  }

  /** `model_name` is not a declared field of the bubble; it is in none of the groups. */
  lemma ModelNameUndeclared()
    ensures !IsField(Bubble, "model_name")
  {
    hide CoreFields, ContextFields, CodeFields, LintFields, ToolFields, VersionControlFields, UiFields, LayoutFields, ComposerFields, MetadataFields,
         MessageRequestContextFields, CheckpointFields, CodeBlockDiffFields, ComposerDataFields;
    ModelNameNotInCore();
    ModelNameNotInContext();
    ModelNameNotInCode();
    ModelNameNotInLint();
    ModelNameNotInTool();
    ModelNameNotInVersionControl();
    ModelNameNotInUi();
    ModelNameNotInLayout();
    ModelNameNotInComposer();
    ModelNameNotInMetadata();
  }

  lemma ModelNameNotInCore()
    ensures "model_name" !in CoreFields()
  {
  }

  lemma ModelNameNotInContext()
    ensures "model_name" !in ContextFields()
  {
  }

  lemma ModelNameNotInCode()
    ensures "model_name" !in CodeFields()
  {
  }

  lemma ModelNameNotInLint()
    ensures "model_name" !in LintFields()
  {
  }

  lemma ModelNameNotInTool()
    ensures "model_name" !in ToolFields()
  {
  }

  lemma ModelNameNotInVersionControl()
    ensures "model_name" !in VersionControlFields()
  {
  }

  lemma ModelNameNotInUi()
    ensures "model_name" !in UiFields()
  {
  }

  lemma ModelNameNotInLayout()
    ensures "model_name" !in LayoutFields()
  {
  }

  lemma ModelNameNotInComposer()
    ensures "model_name" !in ComposerFields()
  {
  }

  lemma ModelNameNotInMetadata()
    ensures "model_name" !in MetadataFields()
  {
  }

  /** The four fields `from_dict` writes are declared fields of the bubble. */
  lemma BubbleFieldFacts()
    ensures IsField(Bubble, "model_info") && IsField(Bubble, "token_count")
    ensures IsField(Bubble, "bubble_id") && IsField(Bubble, "_raw_data")
  {
    hide CoreFields, ContextFields, CodeFields, LintFields, ToolFields, VersionControlFields, UiFields, LayoutFields, ComposerFields, MetadataFields,
         MessageRequestContextFields, CheckpointFields, CodeBlockDiffFields, ComposerDataFields;
    CountsAndModelDeclared();
    BubbleIdDeclared();
  }

  lemma CountsAndModelDeclared()
    ensures "model_info" in MetadataFields() && "token_count" in MetadataFields()
  {
  }

  lemma BubbleIdDeclared()
    ensures "bubble_id" in CoreFields()
  {
  }

  /** `InlineDiffs.from_dict`: both arguments are stored as given. */
  function InlineDiffsFromDict(workspaceId: string, data: seq<(string, Json)>): (r: InlineDiffs)
    ensures r.workspaceId == workspaceId && r.data == data
  {
    InlineDiffs(workspaceId, data)
  }
}
