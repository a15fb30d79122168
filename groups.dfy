// The property-group views of `model_groups.py`: read-only views of a bubble
// that rename some of its fields and answer a few yes/no and count questions.
// Python's `len` raises TypeError on a value without a length, and `or`
// stops at the first true operand, so the predicates return a Result.
module Groups {
  import opened Wrappers
  import opened Json
  import opened Records

  predicate Sized(v: Json)
  {
    Len(v).Ok?
  }

  predicate NonEmpty(v: Json)
  {
    Len(v).Ok? && Len(v).value > 0
  }

  /** `len(vs[0]) > 0 or len(vs[1]) > 0 or ...`, evaluated left to right. */
  function AnyNonEmpty(vs: seq<Json>): (r: Result<bool>)
    ensures r.Err? ==> r.error == TypeError && exists i :: 0 <= i < |vs| && !Sized(vs[i])
    ensures r == Ok(true) ==> exists i :: 0 <= i < |vs| && NonEmpty(vs[i])
    ensures (forall i :: 0 <= i < |vs| ==> Sized(vs[i])) ==> r == Ok(exists i :: 0 <= i < |vs| && NonEmpty(vs[i]))
  {
    if vs == [] then Ok(false)
    else match Len(vs[0])
      case Err(e) => Err(e)
      case Ok(n) =>
        if n > 0 then Ok(true)
        else
          var rest := AnyNonEmpty(vs[1..]);
          assert forall i :: 0 <= i < |vs[1..]| ==> vs[1..][i] == vs[i + 1];
          rest
  }

  /** `len(vs[0]) + len(vs[1]) + ...`, evaluated left to right. */
  function LenSum(vs: seq<Json>): (r: Result<nat>)
    ensures r.Ok? <==> forall i :: 0 <= i < |vs| ==> Sized(vs[i])
    ensures r.Err? ==> r.error == TypeError
    ensures r.Ok? ==> (r.value > 0 <==> exists i :: 0 <= i < |vs| && NonEmpty(vs[i]))
  {
    if vs == [] then Ok(0)
    else match Len(vs[0])
      case Err(e) => Err(e)
      case Ok(n) =>
        assert forall i :: 0 <= i < |vs[1..]| ==> vs[1..][i] == vs[i + 1];
        match LenSum(vs[1..])
        case Err(e) =>
          Err(e)
        case Ok(m) =>
          assert forall i :: 1 <= i < |vs| ==> vs[i] == vs[1..][i - 1];
          Ok(n + m)
  }

  /** Where every value has a length, "any non-empty" and "total length is positive" agree. */
  lemma CountAgreesWithAny(vs: seq<Json>)
    requires LenSum(vs).Ok?
    ensures AnyNonEmpty(vs) == Ok(LenSum(vs).value > 0)
  {
  }

  /** Reading several fields of a bubble. */
  function Fields(r: Record, names: seq<string>): (vs: seq<Json>)
    ensures |vs| == |names|
    ensures forall i :: 0 <= i < |names| ==> vs[i] == Field(r, names[i])
  {
    seq(|names|, i requires 0 <= i < |names| => Field(r, names[i]))
  }

  // ----- the views: which field of the bubble each property reads -----

  datatype CodeProperty =
    SuggestedBlocks | UserResponses | AssistantDiffs | DiffsSinceApply | GitDiffs
    | FileDiffTrajectories | DiffHistories | CodebaseContext

  /** The field behind each property of `CodeGroup`: always one of the bubble's code fields. */
  function CodeSource(p: CodeProperty): (f: string)
    ensures f in CodeFields()
  {
    match p
    case SuggestedBlocks => "suggested_code_blocks"
    case UserResponses => "user_responses_to_suggested_code_blocks"
    case AssistantDiffs => "assistant_suggested_diffs"
    case DiffsSinceApply => "diffs_since_last_apply"
    case GitDiffs => "git_diffs"
    case FileDiffTrajectories => "file_diff_trajectories"
    case DiffHistories => "diff_histories"
    case CodebaseContext => "codebase_context_chunks"
  }

  datatype ContextProperty =
    Context | AttachedCodeChunks | AttachedFilesMetadata | AttachedFolders | AttachedFoldersOld
    | CursorRules | KnowledgeItems | DocsReferences | WebReferences | AiWebSearchResults
    | ExternalLinks | HumanChanges | HasHumanChanges

  /** The field behind each property of `ContextGroup`; `attached_folders` reads the new format. */
  function ContextSource(p: ContextProperty): (f: string)
    ensures f in ContextFields()
  {
    match p
    case Context => "context"
    case AttachedCodeChunks => "attached_code_chunks"
    case AttachedFilesMetadata => "attached_file_code_chunks_metadata_only"
    case AttachedFolders => "attached_folders_new"
    case AttachedFoldersOld => "attached_folders"
    case CursorRules => "cursor_rules"
    case KnowledgeItems => "knowledge_items"
    case DocsReferences => "docs_references"
    case WebReferences => "web_references"
    case AiWebSearchResults => "ai_web_search_results"
    case ExternalLinks => "external_links"
    case HumanChanges => "human_changes"
    case HasHumanChanges => "attached_human_changes"
  }

  datatype MetadataProperty =
    CreatedAt | BubbleId | RequestId | CheckpointId | IsAgentic | IsRefunded | IsNudge
    | IsQuickSearch | IsPlanExecution | UseWeb | UnifiedMode

  /** The field behind each stored property of `MetadataGroup`: a core or a metadata field. */
  function MetadataSource(p: MetadataProperty): (f: string)
    ensures f in CoreFields() + MetadataFields()
  {
    match p
    case CreatedAt => "created_at"
    case BubbleId => "bubble_id"
    case RequestId => "request_id"
    case CheckpointId => "checkpoint_id"
    case IsAgentic => "is_agentic"
    case IsRefunded => "is_refunded"
    case IsNudge => "is_nudge"
    case IsQuickSearch => "is_quick_search_query"
    case IsPlanExecution => "is_plan_execution"
    case UseWeb => "use_web"
    case UnifiedMode => "unified_mode"
  }

  datatype LintingProperty = Lints | ApproximateErrors | MultiFileErrors

  function LintingSource(p: LintingProperty): (f: string)
    ensures f in LintFields()
  {
    match p
    case Lints => "lints"
    case ApproximateErrors => "approximate_lint_errors"
    case MultiFileErrors => "multi_file_linter_errors"
  }

  datatype VersionControlProperty = Commits | PullRequests | VcsGitDiffs

  /** `VersionControlGroup.git_diffs` reads the same field as `CodeGroup.git_diffs`. */
  function VersionControlSource(p: VersionControlProperty): (f: string)
    ensures f in VersionControlFields() || f == CodeSource(GitDiffs)
  {
    match p
    case Commits => "commits"
    case PullRequests => "pull_requests"
    case VcsGitDiffs => "git_diffs"
  }

  datatype ToolProperty =
    TerminalFiles | InterpreterResults | ToolResults | SupportedTools
    | HasPreviousTerminalCommand | HasSubsequentTerminalCommand

  function ToolSource(p: ToolProperty): (f: string)
    ensures f in ToolFields()
  {
    match p
    case TerminalFiles => "terminal_files"
    case InterpreterResults => "interpreter_results"
    case ToolResults => "tool_results"
    case SupportedTools => "supported_tools"
    case HasPreviousTerminalCommand => "existed_previous_terminal_command"
    case HasSubsequentTerminalCommand => "existed_subsequent_terminal_command"
  }

  // ----- the predicates -----

  function CodeChangeFields(): seq<string>
  {
    [CodeSource(SuggestedBlocks), CodeSource(AssistantDiffs), CodeSource(DiffsSinceApply), CodeSource(GitDiffs)]
  }

  /** `CodeGroup.has_code_changes`. */
  function HasCodeChanges(r: Record): Result<bool>
  {
    AnyNonEmpty(Fields(r, CodeChangeFields()))
  }

  function ContextListFields(): seq<string>
  {
    [ContextSource(AttachedCodeChunks), ContextSource(AttachedFilesMetadata), ContextSource(AttachedFolders),
     ContextSource(CursorRules), ContextSource(KnowledgeItems)]
  }

  /** `ContextGroup.has_context`: a context that is not None answers True before any length is taken. */
  function HasContext(r: Record): Result<bool>
  {
    if Field(r, ContextSource(Context)) != JNull then Ok(true)
    else AnyNonEmpty(Fields(r, ContextListFields()))
  }

  /** `MetadataGroup.total_tokens`: the sum when both counts are present, else None. */
  function TotalTokens(r: Record): (t: Result<Json>)
    ensures InputTokens(r).Err? ==> t.Err?
    ensures InputTokens(r) == Ok(JNull) ==> t == Ok(JNull)
  {
    match InputTokens(r)
    case Err(e) => Err(e)
    case Ok(i) =>
      if i == JNull then Ok(JNull)
      else match OutputTokens(r)
        case Err(e) => Err(e)
        case Ok(o) => if o == JNull then Ok(JNull) else Add(i, o)
  }

  function LintListFields(): seq<string>
  {
    [LintingSource(Lints), LintingSource(ApproximateErrors), LintingSource(MultiFileErrors)]
  }

  /** `LintingGroup.has_errors`. */
  function HasErrors(r: Record): Result<bool>
  {
    AnyNonEmpty(Fields(r, LintListFields()))
  }

  /** `LintingGroup.error_count`. */
  function ErrorCount(r: Record): Result<nat>
  {
    LenSum(Fields(r, LintListFields()))
  }

  function VcsFields(): seq<string>
  {
    [VersionControlSource(Commits), VersionControlSource(PullRequests), VersionControlSource(VcsGitDiffs)]
  }

  /** `VersionControlGroup.has_vcs_info`. */
  function HasVcsInfo(r: Record): Result<bool>
  {
    AnyNonEmpty(Fields(r, VcsFields()))
  }

  function ToolUsageFields(): seq<string>
  {
    [ToolSource(TerminalFiles), ToolSource(InterpreterResults), ToolSource(ToolResults)]
  }

  /** `ToolGroup.has_tool_usage`. */
  function HasToolUsage(r: Record): Result<bool>
  {
    AnyNonEmpty(Fields(r, ToolUsageFields()))
  }

  // ----- what the predicates mean -----

  predicate AllLists(r: Record, names: seq<string>)
  {
    forall i :: 0 <= i < |names| ==> Field(r, names[i]).JList?
  }

  predicate SomeNonEmptyList(r: Record, names: seq<string>)
  {
    exists i :: 0 <= i < |names| && Field(r, names[i]).JList? && Field(r, names[i]).items != []
  }

  /** Over list-valued fields, "any has a positive length" is "some list is non-empty". */
  lemma AnyNonEmptyOfLists(r: Record, names: seq<string>)
    requires AllLists(r, names)
    ensures AnyNonEmpty(Fields(r, names)) == Ok(SomeNonEmptyList(r, names))
  {
    var vs := Fields(r, names);
    assert forall i :: 0 <= i < |vs| ==> Sized(vs[i]);
    if SomeNonEmptyList(r, names) {
      var i :| 0 <= i < |names| && Field(r, names[i]).JList? && Field(r, names[i]).items != [];
      assert NonEmpty(vs[i]);
    }
  }

  /** With its four fields lists, `has_code_changes` holds iff one of them is non-empty. */
  lemma HasCodeChangesIff(r: Record)
    requires AllLists(r, CodeChangeFields())
    ensures HasCodeChanges(r) == Ok(SomeNonEmptyList(r, CodeChangeFields()))
  {
    AnyNonEmptyOfLists(r, CodeChangeFields());
  }

  /** `has_context` holds iff the context is not None (an empty dict counts) or one of its five lists is non-empty. */
  lemma HasContextIff(r: Record)
    requires AllLists(r, ContextListFields())
    ensures HasContext(r) == Ok(Field(r, "context") != JNull || SomeNonEmptyList(r, ContextListFields()))
  {
    AnyNonEmptyOfLists(r, ContextListFields());
  }

  lemma HasVcsInfoIff(r: Record)
    requires AllLists(r, VcsFields())
    ensures HasVcsInfo(r) == Ok(SomeNonEmptyList(r, VcsFields()))
  {
    AnyNonEmptyOfLists(r, VcsFields());
  }

  lemma HasToolUsageIff(r: Record)
    requires AllLists(r, ToolUsageFields())
    ensures HasToolUsage(r) == Ok(SomeNonEmptyList(r, ToolUsageFields()))
  {
    AnyNonEmptyOfLists(r, ToolUsageFields());
  }

  /** `has_errors` is exactly `error_count() > 0` whenever the count can be taken. */
  lemma HasErrorsIsPositiveCount(r: Record)
    requires ErrorCount(r).Ok?
    ensures HasErrors(r) == Ok(ErrorCount(r).value > 0)
  {
    CountAgreesWithAny(Fields(r, LintListFields()));
  }

  /** The record `r` with field `f` set to `v`. */
  function With(r: Record, f: string, v: Json): Record
  {
    Record(r.kind, r.fields[f := v])
  }

  lemma FieldsFrame(r: Record, names: seq<string>, f: string, v: Json)
    requires forall i :: 0 <= i < |names| ==> names[i] != f
    ensures Fields(With(r, f, v), names) == Fields(r, names)
  {
  }

  /** Quirk: the old-format `attached_folders` is not consulted by `has_context`. */
  lemma HasContextIgnoresOldFolders(r: Record, v: Json)
    ensures HasContext(With(r, "attached_folders", v)) == HasContext(r)
  {
    FieldsFrame(r, ContextListFields(), "attached_folders", v);
  }

  /** `has_tool_usage` ignores `supported_tools` and the two terminal-command flags. */
  lemma HasToolUsageIgnores(r: Record, v: Json)
    ensures HasToolUsage(With(r, ToolSource(SupportedTools), v)) == HasToolUsage(r)
    ensures HasToolUsage(With(r, ToolSource(HasPreviousTerminalCommand), v)) == HasToolUsage(r)
    ensures HasToolUsage(With(r, ToolSource(HasSubsequentTerminalCommand), v)) == HasToolUsage(r)
  {
    FieldsFrame(r, ToolUsageFields(), ToolSource(SupportedTools), v);
    FieldsFrame(r, ToolUsageFields(), ToolSource(HasPreviousTerminalCommand), v);
    FieldsFrame(r, ToolUsageFields(), ToolSource(HasSubsequentTerminalCommand), v);
  }

  /** Two integer counts sum. */
  lemma TotalOfCounts(r: Record, a: int, b: int)
    requires InputTokens(r) == Ok(JInt(a)) && OutputTokens(r) == Ok(JInt(b))
    ensures TotalTokens(r) == Ok(JInt(a + b))
  {
    hide *;
    TotalTokensStep(r);
  }

  lemma TotalTokensStep(r: Record)
    ensures TotalTokens(r) ==
      match InputTokens(r)
      case Err(e) => Err(e)
      case Ok(i) =>
        if i == JNull then Ok(JNull)
        else match OutputTokens(r)
          case Err(e) => Err(e)
          case Ok(o) => if o == JNull then Ok(JNull) else Add(i, o)
  {
  }

  /** A missing count makes the total None, whatever the other count is. */
  lemma TotalOfMissingCount(r: Record)
    requires Field(r, "token_count").JObj?
    requires InputTokens(r) == Ok(JNull) || OutputTokens(r) == Ok(JNull)
    ensures TotalTokens(r) == Ok(JNull)
  {
  }

  /** For a bubble built by `from_dict`, integer token counts from the input add up. */
  lemma TotalTokensAfterFromDict(kw: seq<(string, Json)>, bubbleId: Option<string>, conversationId: Option<string>, a: int, b: int)
    requires DistinctKeys(kw) && BubbleFromKwargs(kw, bubbleId, conversationId).Ok?
    requires Reported(kw, "input_tokens", "inputTokens") == Some(JInt(a))
    requires Reported(kw, "output_tokens", "outputTokens") == Some(JInt(b))
    ensures TotalTokens(BubbleFromKwargs(kw, bubbleId, conversationId).value) == Ok(JInt(a + b))
  {
    hide FieldNames, Default, BubbleFromKwargs, BubbleKwargs, TotalTokens, InputTokens, OutputTokens, Reported;
    var rec := BubbleFromKwargs(kw, bubbleId, conversationId).value;
    TokensReported(kw, bubbleId, conversationId);
    TotalOfCounts(rec, a, b);
  }
}
