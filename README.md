# CursorData SDK core, modelled in Dafny

This project models the logic of the CursorData SDK, a Python library that reads the
Cursor editor's local SQLite store. The model covers everything between a stored
`(key, value)` row and a typed, filtered, paginated result:

- **Key and field codecs** (`keypattern.dfy`, `naming.dfy`, `utils.dfy`):
  - `parse_key_pattern` and its `{name}` template language, compiled to segments and run by a backtracking matcher that follows Python's regex search order;
  - `camel_to_snake` as two scanners plus ASCII lower-casing;
  - `map_dict_to_model` and `auto_map_camel_to_snake` over ordered dicts;
  - `decode_json_value`;
  - the batch loop `parse_cursordiskkv_rows`.
- **Record construction** (`records.dfy`, `tracking.dfy`):
  - `BubbleConversation.from_dict`, with its step-by-step re-nesting of `modelName`, `inputTokens` and `outputTokens`;
  - the other kinds' `from_dict`, where `cls(**kwargs)` raises `TypeError` on an undeclared keyword;
  - `AICodeTrackingEntry` and `ComposerSession.from_entries`.
- **Property groups** (`groups.dfy`): the views of `model_groups.py` and their predicates.
- **Collections** (`collections.dfy`, `domain.dfy`): `filter`, a stable `sort`, `group_by`, Python slices, `first`/`last`/`any`/`all`, indexing, and the domain filters and groupers.
- **The client** (`client.dfy`), a class with the lazily opened connection:
  - the `WHERE` and `LIMIT ... OFFSET` clauses of `_query_cursordiskkv`;
  - the tracking, commit, usage and session readers;
  - the prefix routing of `get_cursordiskkv_entry`;
  - table validation in `search_keys` and `iterate_all_keys`.
- **The query builders** (`query.dfy`): a `BaseQuery` class whose `limit`/`offset`/`page`/`filter`/`where` methods update its state in place, and the `execute` methods. Each `execute` fetches through the client, pages where the source pages, and runs the predicates in registration order.

### Conventions
- Python values are the `Json` datatype. A dict is an ordered sequence of pairs; `None` is `JNull`.
- An exception is the `Err` side of a `Result`, naming the exception class.
- A record is its kind plus a map from declared field names to values. The declared names and their defaults follow the dataclass definitions.
- The SQLite database is a value handed to the client. `Store` maps each statement the client issues to the rows it returns.
- `Faithful(store)` says the `cursorDiskKV` answers contain only rows the `WHERE` clause admits. SQLite's `LIKE` is modelled with its `%` and `_` wildcards and ASCII case folding.
- JSON parsing and UTF-8 decoding are an abstract `Decoder` of partial functions.

### Notes on the code
- **Inner placeholders.** They compile to the greedy `[^:]+`. A match then relies on backtracking, and the model's matcher backtracks in the same order.
- **Last placeholder.** The comment in `utils.py` says `.*?`, but the code emits `.*`. Because of `re.match`, text after a closing literal is tolerated.
- **Word boundaries.** The `(.)` in `camel_to_snake` does not match a newline, so no underscore is inserted after one. The model keeps that exception.
- **The overflow bag.** `auto_map_camel_to_snake` never fills its second result. An undeclared translated key therefore reaches `cls(**kwargs)` and construction raises `TypeError`.

## Model

| member | source | states |
|---|---|---|
| KeyPattern.Split | src/cursordata/utils.py:57 | `pattern.split("{")` has at least one part and no part contains the separator; with `JoinSplit` this determines the parts as `str.split` does |
| KeyPattern.JoinSplit | src/cursordata/utils.py:57 | joining the parts of `s.split(c)` with `c` gives `s` back |
| KeyPattern.IndexOf | src/cursordata/utils.py:64-65 | None iff the character is absent; otherwise the position of its first occurrence |
| KeyPattern.Run | src/cursordata/utils.py:68-71 | the longest prefix an inner (`[^:]`) or final (`.`) group can consume: every character in it is admitted, and the next one is not |
| KeyPattern.ParseKeyPattern | src/cursordata/utils.py:57-79 | the loop that builds the regex parts computes exactly `KeyParts(key, pattern)`: the match, None, or `re.error` for group names that are not distinct ASCII identifiers |
| KeyPattern.NoPlaceholderIsExactMatch | src/cursordata/utils.py:57-60 | a pattern without `{` yields `{}` iff the key equals the pattern, else None, so the empty pattern matches only the empty key |
| KeyPattern.CompileKeepsClosedParts | src/cursordata/utils.py:62-75 | when every `{`-part has a `}`, printing the compiled segments gives the pattern back: compilation loses only unclosed parts |
| KeyPattern.ParseRecoversParts | src/cursordata/utils.py:62-78 | rendering well-formed, separated segments with fitting values (inner values non-empty and colon-free), plus any trailing text when the pattern does not end in a group, parses back to exactly those values |
| KeyPattern.MatchNeedsColons | src/cursordata/utils.py:71-78 | a key that matches has at least as many colons as the pattern's literals |
| KeyPattern.ShortKeyNoMatch | src/cursordata/utils.py:76-79 | a key with fewer colons than the pattern's literals gives None |
| KeyPattern.TwoGroupKeyParts | src/cursordata/utils.py:62-78 | `<lit><x><sep><y>` parses under `<lit>{a}<sep>{b}` into `{a: x, b: y}` for any non-empty colon-free `x` |
| KeyPattern.BubbleKeyParts | src/cursordata/utils.py:50-52 | `bubbleId:abc123:conv456` gives `{bubble_id: abc123, conversation_id: conv456}` |
| KeyPattern.BubbleKeyTooShort | tests/test_utils.py:111-118 | `bubbleId:abc` does not match the bubble pattern |
| KeyPattern.BubbleLastGroupTakesColons | src/cursordata/utils.py:66-68 | the final placeholder captures colons: `bubbleId:a:b:c` gives conversation id `b:c` |
| KeyPattern.CompileUnclosedLast | src/cursordata/utils.py:63-71 | a trailing `{`-part without `}` contributes nothing, and the group before it is then an inner `[^:]+` group |
| KeyPattern.UnclosedPartExample | src/cursordata/utils.py:62-79 | under `a{b}{c` the key `ax:y` gives `{b: x}`: the match is anchored at the start only |
| Naming.LowerRun | src/cursordata/utils.py:98 | the length of the longest `[a-z]` prefix |
| Naming.Lower | src/cursordata/utils.py:99 | `lower()` keeps the length and lower-cases each character |
| Naming.SnakeHasNoUpper | src/cursordata/utils.py:98-99 | the result of `camel_to_snake` has no ASCII capital |
| Naming.SnakeOnlyAddsUnderscores | src/cursordata/utils.py:98-99 | deleting every `_` from the result equals deleting every `_` from the lower-cased name |
| Naming.SnakeIdempotent | src/cursordata/utils.py:98-99 | converting a converted name changes nothing |
| Naming.SnakeKeepsSnake | src/cursordata/utils.py:98-99 | a name without capitals is returned unchanged |
| Naming.EmptyName | src/cursordata/utils.py:98-99 | `""` maps to `""` |
| Naming.AllCapitals | src/cursordata/utils.py:98-99 | `"ID"` maps to `"id"` |
| Naming.CamelWord | src/cursordata/utils.py:92-93 | `"bubbleId"` maps to `"bubble_id"` |
| Naming.Acronym | src/cursordata/utils.py:98-99 | `"HTMLContent"` maps to `"html_content"` |
| Utils.DecodeJsonValue | src/cursordata/utils.py:13-31 | None for a null cell or a failed UTF-8 or JSON decode; otherwise exactly the parsed value; never raises |
| Utils.MapDictToModel | src/cursordata/utils.py:112-116 | the loop builds `Renamed(data, mapping)` |
| Utils.RenamedFind | src/cursordata/utils.py:112-116 | a target key is present iff some mapping entry sends a present source key to it, and it holds that source's value; no other key appears |
| Utils.RenamedValue | src/cursordata/utils.py:112-116 | with distinct targets, each present source's value arrives under its own target |
| Utils.RenamedDistinct | src/cursordata/utils.py:112-116 | the result is a dict: no key twice |
| Utils.AutoMapCamelToSnake | src/cursordata/utils.py:131-151 | the loops build `AutoMapped(data, known)`, and the second result is always empty |
| Utils.ConvertedFind | src/cursordata/utils.py:141-149 | after the conversion loop a key is present iff it was present before or some data key converts to it, with that key's value |
| Utils.ConvertedLast | src/cursordata/utils.py:141-149 | when several data keys convert to the same name, the value kept is that of the last of them |
| Utils.SnakeMappedLast | src/cursordata/utils.py:146-149 | without known fields, the value kept under a snake-case name is that of the last data key converting to it |
| Utils.AutoMappedKeys | src/cursordata/utils.py:134-149 | a key is in the mapped dict iff it is the target of some data key: `known[k]` for a known `k`, else `camel_to_snake(k)` |
| Utils.AutoMappedValues | src/cursordata/utils.py:134-149 | each mapped value is the value of a data key whose target it sits under |
| Utils.AutoMappedDistinct | src/cursordata/utils.py:131-151 | the mapped dict has no key twice |
| Utils.ParseRows | src/cursordata/utils.py:171-218 | the row loop computes `Parsed(rows, ...)`, one optional record per row |
| Utils.ParsedAppend | src/cursordata/utils.py:174-203 | parsing a concatenation is concatenating the parses, so results keep the order of their rows |
| Utils.ParsedOne | src/cursordata/utils.py:174-205 | a batch of one row holds that row's record, if any |
| Utils.ParsedFromRows | src/cursordata/utils.py:171-218 | at most one result per row, and every result is the record of some row |
| Utils.RowSkipped | src/cursordata/utils.py:180-212 | a row yields a record iff its value decodes to a dict, its key parses, and the factory neither raises nor returns a falsy value |
| Utils.KeyParserWins | src/cursordata/utils.py:191-194 | with a `key_parser` given, the `key_pattern` plays no part |
| Utils.EmptyPartsLikeNone | src/cursordata/utils.py:197-200 | empty or None key parts make the factory run without parts |
| Json.Get | src/cursordata/models.py:63 | `d.get(k)`: None for a missing key, the stored value otherwise, `AttributeError` on a non-dict |
| Json.NumberOrZero | src/cursordata/collections.py:229-231 | `(x or 0)` as a number: 0 for a falsy value, the number itself, `TypeError` for a truthy string, list or dict |
| Json.Add | src/cursordata/model_groups.py:202 | `a + b` adds numbers, raising `TypeError` exactly on operands Python cannot add |
| Records.Default | src/cursordata/cursordiskkv_models.py:126-217 | every field default is falsy: None, False, `{}` or `[]` |
| Records.Construct | src/cursordata/cursordiskkv_models.py:261 | `cls(**kwargs)` succeeds iff every keyword is declared, raising `TypeError` otherwise; given keywords set their fields and the rest take their defaults |
| Records.DefaultsFalsy | src/cursordata/cursordiskkv_models.py:126-217 | the all-defaults record has every declared field and only falsy values |
| Records.NoArguments | tests/test_error_paths.py:137-139 | construction with no keywords gives the all-defaults record |
| Records.AllDefaults | src/cursordata/cursordiskkv_models.py:126-217 | with no keywords every field holds its default |
| Records.PlainFromDictOk | src/cursordata/cursordiskkv_models.py:360-365 | the other kinds' `from_dict` succeeds iff every data key translates to a declared field |
| Records.PlainFromDictFields | src/cursordata/cursordiskkv_models.py:360-365 | on success `_raw_data` is `{}`; a field some data key translates to holds the value of the last such key, and any other field holds its default |
| Records.BubbleFromDict | src/cursordata/cursordiskkv_models.py:219-261 | the step-by-step mutation of `kwargs` computes `BubbleOf(data, bubble_id, conversation_id)` |
| Records.NestModelNameStep | src/cursordata/cursordiskkv_models.py:236-242 | the pops and inserts compute `NestModelName` |
| Records.NestTokensStep | src/cursordata/cursordiskkv_models.py:244-250 | the pops and inserts compute `NestTokens` |
| Records.NestModelNameFrame | src/cursordata/cursordiskkv_models.py:236-242 | only `model_name` and `model_info` change, and keys stay distinct |
| Records.NestTokensFrame | src/cursordata/cursordiskkv_models.py:244-250 | `input_tokens` and `output_tokens` are gone, `token_count` is a dict, keys stay distinct, and nothing else changes |
| Records.NestTokensCounts | src/cursordata/cursordiskkv_models.py:244-250 | `token_count["inputTokens"]` and `["outputTokens"]` hold the top-level counts when given, else what `token_count` already held |
| Records.ApplyKeyIdsFrame | src/cursordata/cursordiskkv_models.py:252-259 | the key-id overrides touch only `bubble_id` and `_raw_data` |
| Records.KeyIdsApplied | src/cursordata/cursordiskkv_models.py:252-259 | a truthy `bubble_id` argument overrides the payload's, and `_raw_data` holds exactly `conversation_id` when it is truthy and is otherwise empty |
| Records.ModelNameFromTopLevel | src/cursordata/cursordiskkv_models.py:237-238 | a top-level `modelName` with no `modelInfo` becomes `model_info = {"modelName": v}`, and `model_name` then reads `v` |
| Records.ModelNameFromModelInfo | src/cursordata/cursordiskkv_models.py:239-242 | a `model_name` inside a dict `model_info` is renamed to `modelName`, and `model_name` reads it |
| Records.ModelNameBesideModelInfoRaises | src/cursordata/cursordiskkv_models.py:237-261 | a payload carrying both `modelName` and `modelInfo` leaves `model_name` as a keyword, and construction raises `TypeError` |
| Records.UndeclaredArgumentRaises | src/cursordata/cursordiskkv_models.py:234-261 | any other undeclared translated key makes `from_dict` raise `TypeError` |
| Records.TokenCountKept | src/cursordata/cursordiskkv_models.py:245-250 | the built record's `token_count` is the nested counts dict |
| Records.TokensReported | src/cursordata/cursordiskkv_models.py:244-271 | `input_tokens`/`output_tokens` of the built record report the given counts, or None |
| Records.InputTokens | src/cursordata/cursordiskkv_models.py:263-266 | defined exactly when `token_count` is a dict |
| Records.OutputTokens | src/cursordata/cursordiskkv_models.py:268-271 | defined exactly when `token_count` is a dict |
| Records.ModelName | src/cursordata/cursordiskkv_models.py:273-278 | None for a falsy `model_info`; raises exactly when a truthy `model_info` is not a dict |
| Records.EmptyBubble | tests/test_error_paths.py:137-139 | `from_dict({})` yields the all-defaults bubble |
| Records.EmptyKwargs | src/cursordata/cursordiskkv_models.py:234-259 | for `{}` the keywords are exactly `token_count={}` and `_raw_data={}` |
| Records.InlineDiffsFromDict | src/cursordata/cursordiskkv_models.py:493-496 | `workspace_id` and `data` are stored verbatim |
| Groups.AnyNonEmpty | src/cursordata/model_groups.py:59-66 | the short-circuit `len(a) > 0 or ...`: `TypeError` only on an unsized value, true only if some value is non-empty, and exactly that when all are sized |
| Groups.LenSum | src/cursordata/model_groups.py:275-277 | the sum of lengths is defined iff all are sized, and positive iff one is non-empty |
| Groups.CountAgreesWithAny | src/cursordata/model_groups.py:267-277 | `has_errors` agrees with `error_count > 0` over the same fields |
| Groups.Fields | src/cursordata/model_groups.py:19-57 | reading through a view equals reading the record's field |
| Groups.CodeSource | src/cursordata/model_groups.py:19-57 | each `CodeGroup` accessor reads a code field of the record |
| Groups.ContextSource | src/cursordata/model_groups.py:75-138 | each `ContextGroup` accessor reads a context field |
| Groups.MetadataSource | src/cursordata/model_groups.py:158-243 | each `MetadataGroup` accessor reads a core or metadata field |
| Groups.LintingSource | src/cursordata/model_groups.py:252-265 | each `LintingGroup` accessor reads a lint field |
| Groups.VersionControlSource | src/cursordata/model_groups.py:286-299 | each `VersionControlGroup` accessor reads a version-control field or `git_diffs` |
| Groups.ToolSource | src/cursordata/model_groups.py:316-344 | each `ToolGroup` accessor reads a tool field |
| Groups.HasCodeChangesIff | src/cursordata/model_groups.py:59-66 | over list fields, `has_code_changes` holds iff one of the four change lists is non-empty |
| Groups.HasContextIff | src/cursordata/model_groups.py:140-149 | `has_context` holds iff `context is not None` (so `{}` counts) or one of the five lists is non-empty |
| Groups.HasContextIgnoresOldFolders | src/cursordata/model_groups.py:90-149 | `has_context` reads `attached_folders_new`: changing the old `attached_folders` field changes nothing |
| Groups.HasVcsInfoIff | src/cursordata/model_groups.py:301-307 | `has_vcs_info` holds iff commits, pull requests or git diffs are non-empty |
| Groups.HasToolUsageIff | src/cursordata/model_groups.py:346-352 | `has_tool_usage` holds iff terminal files, interpreter results or tool results are non-empty |
| Groups.HasToolUsageIgnores | src/cursordata/model_groups.py:331-352 | `supported_tools` and the terminal-command flags do not affect `has_tool_usage` |
| Groups.HasErrorsIsPositiveCount | src/cursordata/model_groups.py:267-277 | `has_errors` holds iff `error_count > 0` |
| Groups.TotalTokens | src/cursordata/model_groups.py:198-203 | None when the input count is None; an error reading the input count propagates |
| Groups.TotalOfCounts | src/cursordata/model_groups.py:198-203 | with both counts present, the total is their sum |
| Groups.TotalOfMissingCount | src/cursordata/model_groups.py:198-203 | with either count missing, the total is None |
| Groups.TotalTokensAfterFromDict | src/cursordata/model_groups.py:198-203 | for a bubble built from a payload reporting both counts, the total is their sum |
| Tracking.EntryFromDict | src/cursordata/models.py:81-83 | raises `KeyError` iff `hash` is missing; `metadata` is the given one, or `{}` |
| Tracking.MetadataGet | src/cursordata/models.py:60-78 | `metadata.get(key)`: None when absent, the stored value otherwise, `AttributeError` when metadata is not a dict |
| Tracking.NoMetadataNoLookups | src/cursordata/models.py:60-83 | an entry built without `metadata` reports None for every lookup |
| Tracking.TruthySetOk | src/cursordata/models.py:111-112 | the set comprehension raises iff some truthy value is unhashable or some metadata is not a dict |
| Tracking.TruthySetMembers | src/cursordata/models.py:111-112 | the set holds exactly the truthy values the entries report |
| Tracking.SessionFromEntries | src/cursordata/models.py:107-118 | `from_entries(id, None)` raises `TypeError`; otherwise the id is kept, `entries_count == len(entries)`, and the file and extension lists hold exactly the truthy names and extensions, without duplicates |
| Tracking.SessionOfStringMetadata | src/cursordata/models.py:107-118 | with dict metadata holding only strings, `from_entries` succeeds |
| Tracking.EmptySession | src/cursordata/models.py:107-118 | `from_entries(id, [])` gives empty lists and count 0 |
| Collections.Filter | src/cursordata/collections.py:46-55 | the kept items satisfy the predicate, and there are no more of them than inputs |
| Collections.FilterIsSubsequence | src/cursordata/collections.py:55 | the result is an order-preserving subsequence of the items |
| Collections.FilterMembers | src/cursordata/collections.py:55 | an item is kept iff it is an item and satisfies the predicate |
| Collections.FilterShrinks | src/cursordata/collections.py:55 | the result is a sub-multiset of the items |
| Collections.FilterAppend | src/cursordata/collections.py:55 | filtering distributes over concatenation |
| Collections.FilterTwice | src/cursordata/collections.py:55 | filtering by `p` then `q` is filtering by both |
| Collections.TryFilter | src/cursordata/collections.py:55 | with a predicate that may raise, the result is defined iff the predicate is defined on every item, is then the plain filter, and otherwise carries the first error |
| Collections.SortBy | src/cursordata/collections.py:69-70 | the insertion sort keeps the length; `SortPermutes`, `SortSorted` and `SortStable` give the rest |
| Collections.Sorted | src/cursordata/collections.py:69-70 | raises iff some key raises, with the first such error, since every key is computed before sorting; otherwise a permutation of the items, ordered by key (descending with `reverse`) and stable |
| Collections.SortPermutes | src/cursordata/collections.py:69-70 | the sorted items are a permutation of the items |
| Collections.SortSorted | src/cursordata/collections.py:69-70 | the sorted items are ordered by key, descending when `reverse` |
| Collections.SortStable | src/cursordata/collections.py:69-70 | items with equal keys keep their relative order, including when `reverse` |
| Collections.GroupBy | src/cursordata/collections.py:92-99 | the grouping loop computes `Grouped(xs, key)` |
| Collections.GroupedRaises | src/cursordata/collections.py:92-99 | grouping raises iff the key function raises on some item |
| Collections.GroupedKeys | src/cursordata/collections.py:92-99 | group keys are the distinct keys in first-occurrence order |
| Collections.GroupedMembers | src/cursordata/collections.py:92-99 | each group is the subsequence of items with that key |
| Collections.GroupedSize | src/cursordata/collections.py:92-99 | group sizes sum to the number of items |
| Collections.SliceIndex | src/cursordata/collections.py:101-121 | Python's slice bound: clamped to the length, negative bounds counted from the end |
| Collections.TakeSkip | src/cursordata/collections.py:101-121 | `take(n) + skip(n)` is the items; `take(n)` of a non-negative `n` has `min(n, len)` items; any `n` beyond the length is allowed |
| Collections.First | src/cursordata/collections.py:123-125 | None iff empty, else the first item |
| Collections.Last | src/cursordata/collections.py:127-129 | None iff empty, else the last item |
| Collections.AnyOf | src/cursordata/collections.py:131-142 | with no predicate, non-emptiness; otherwise False iff every item gives False, True iff some item gives True after only False results, and an error only when raised before the first True |
| Collections.AnyStopsAtTrue | src/cursordata/collections.py:142 | a True result ends the scan, so a later raising item is never reached |
| Collections.AllOf | src/cursordata/collections.py:144-153 | True iff every item gives True (vacuously when empty), False iff some item gives False after only True results, and an error only when raised before the first False |
| Collections.AllStopsAtFalse | src/cursordata/collections.py:153 | a False result ends the scan, so a later raising item is never reached |
| Collections.Index | src/cursordata/collections.py:33-35 | indexing succeeds iff `-len <= i < len`, counting negative indices from the end, and raises `IndexError` otherwise |
| Collections.MapItems | src/cursordata/collections.py:72-81 | succeeds iff the function succeeds on every item, giving the images in order; otherwise the first exception, with every earlier call successful |
| DomainCollections.FilterEqualTo | src/cursordata/collections.py:348-379 | an attribute-equality filter is defined iff the attribute reads everywhere, and keeps exactly the items whose attribute equals the value |
| DomainCollections.GroupIsFilter | src/cursordata/collections.py:381-403 | under an `x or "unknown"` grouper, grouping succeeds iff every read succeeds and every truthy value is hashable, and the group of a truthy value other than `"unknown"` is the equality filter for it |
| DomainCollections.UnknownGroup | src/cursordata/collections.py:388-403 | the `"unknown"` group gathers the items whose attribute is falsy or `"unknown"` |
| DomainCollections.FilterByModel | src/cursordata/collections.py:203-213 | keeps exactly the bubbles whose `model_name` equals the name; raises when some `model_info` is truthy but not a dict |
| DomainCollections.TokensAtLeast | src/cursordata/collections.py:228-233 | true iff each given minimum is met by the count read with `or 0`; always true with no minimum |
| DomainCollections.MissingCountIsZero | src/cursordata/collections.py:229 | a missing input count is treated as 0 |
| DomainCollections.FilterByTokenCount | src/cursordata/collections.py:215-235 | succeeds iff every token read succeeds, and then keeps exactly the bubbles meeting every given minimum, in order |
| DomainCollections.FilterNonEmpty | src/cursordata/collections.py:237-252 | a `len(...) > 0 or ...` filter keeps only bubbles with one of the lists non-empty, and exactly those when all are sized |
| DomainCollections.WithCodeBlocks | src/cursordata/collections.py:237-239 | keeps exactly the bubbles with suggested code blocks |
| DomainCollections.WithDiffs | src/cursordata/collections.py:241-246 | keeps exactly the bubbles with assistant diffs or diffs since the last apply |
| DomainCollections.WithLintErrors | src/cursordata/collections.py:248-252 | keeps exactly the bubbles with lints or multi-file linter errors |
| DomainCollections.AgenticOnly | src/cursordata/collections.py:254-256 | keeps exactly the bubbles whose `is_agentic` is truthy, in order |
| DomainCollections.GroupByModel | src/cursordata/collections.py:278-288 | groups bubbles by `model_name or "unknown"`; a truthy list or dict name raises `TypeError` |
| DomainCollections.ModelGroupIsFilter | src/cursordata/collections.py:278-288 | grouping succeeds iff `filter_by_model` does and every truthy name is hashable, and the group of a model name is exactly `filter_by_model` of it |
| DomainCollections.SessionsWithExtension | src/cursordata/collections.py:294-303 | keeps exactly the sessions that list the extension, in order |
| DomainCollections.FilterByFileCount | src/cursordata/collections.py:305-326 | keeps exactly the sessions whose file count lies within the given bounds, in order |
| DomainCollections.AllExtensions | src/cursordata/collections.py:335-342 | the extensions of all sessions |
| DomainCollections.NoExtensionNoSessions | src/cursordata/collections.py:335-342 | an extension no session lists has no sessions |
| DomainCollections.GroupByExtension | src/cursordata/collections.py:328-342 | the nested loop computes `ExtensionGroups(sessions)` |
| DomainCollections.AddExtensions | src/cursordata/collections.py:337-340 | the inner loop adds one session to the group of each of its extensions |
| DomainCollections.ExtensionGroupMembers | src/cursordata/collections.py:335-342 | an extension has a group iff some session lists it, and that group holds exactly the sessions listing it; a session with no extensions is in no group |
| DomainCollections.ExtensionGroupIsFilter | src/cursordata/collections.py:335-342 | each extension group is `filter_by_extension` of it |
| DomainCollections.FilterBySource | src/cursordata/collections.py:348-357 | keeps exactly the entries whose source equals the value; raises iff some metadata is not a dict |
| DomainCollections.FilterByExtension | src/cursordata/collections.py:359-368 | the same for the file extension |
| DomainCollections.FilterByComposerId | src/cursordata/collections.py:370-379 | the same for the composer id |
| DomainCollections.GroupBySource | src/cursordata/collections.py:381-391 | groups entries by `source or "unknown"`; a truthy list or dict source raises `TypeError` |
| DomainCollections.GroupByFileExtension | src/cursordata/collections.py:393-403 | groups entries by `file_extension or "unknown"`; a truthy list or dict extension raises `TypeError` |
| DomainCollections.SourceGroupIsFilter | src/cursordata/collections.py:381-391 | grouping succeeds iff `filter_by_source` does and every truthy source is hashable, and the group of a source is exactly `filter_by_source` of it |
| DomainCollections.ExtensionEntryGroupIsFilter | src/cursordata/collections.py:393-403 | grouping succeeds iff `filter_by_extension` does and every truthy extension is hashable, and the group of an extension is exactly `filter_by_extension` of it |
| Client.LikePrefix | src/cursordata/client.py:160-168 | `q%`, for a `q` without wildcards, admits exactly the keys starting with `q` up to ASCII case |
| Client.SelectionKeys | src/cursordata/client.py:155-168 | the four selectors for `filter_id` × `exact_match`: `key == prefix+id`, LIKE `prefix+id:%`, `key == prefix` or LIKE `prefix%`, with a falsy id counting as none |
| Client.WindowFor | src/cursordata/client.py:170-171 | `LIMIT ... OFFSET` is added iff the limit is truthy, so an offset without a limit is ignored |
| Client.CursorDataClient.constructor | src/cursordata/client.py:55-77 | the client starts with no connection |
| Client.CursorDataClient.GetConnection | src/cursordata/client.py:93-98 | a connection is open afterwards, opened only if none was |
| Client.CursorDataClient.Close | src/cursordata/client.py:100-104 | afterwards no connection is held and none was opened, so closing twice is closing once |
| Client.CursorDataClient.QueryDiskKV | src/cursordata/client.py:126-176 | returns the rows the selector and window select, parsed in order by the row loop |
| Client.CursorDataClient.GetValue | src/cursordata/client.py:209-226 | the stored `ItemTable` value, or None |
| Client.CursorDataClient.GetJsonValue | src/cursordata/client.py:228-240 | None for a missing key, else the decoded value |
| Client.CursorDataClient.GetTrackingEntries | src/cursordata/client.py:242-260 | the entries of the stored tracking list |
| Client.CollectEntries | src/cursordata/client.py:248-260 | the loop computes `TrackingEntries`: nothing unless the value is a non-empty list, and non-dict or hash-less elements skipped in order |
| Client.EntriesAreTrackable | src/cursordata/client.py:252-260 | the entries are, in order, the entries of the list's dict elements that have a hash |
| Client.CursorDataClient.GetScoredCommits | src/cursordata/client.py:270-279 | the scored commits of the stored value |
| Client.ScoredCommits | src/cursordata/client.py:276-279 | `[]` for a non-list; otherwise the string form of each truthy element, in order |
| Client.HashesKept | src/cursordata/client.py:276-279 | a list of non-empty hash strings comes back unchanged |
| Client.CursorDataClient.GetUsageStats | src/cursordata/client.py:281-319 | the statistics of the stored entries and commits, or the error the loop raised |
| Client.CountUsage | src/cursordata/client.py:292-301 | the loop computes `Tallied(entries)` |
| Client.TalliedRaises | src/cursordata/client.py:295-301 | counting raises iff some entry has unreadable metadata or an unhashable truthy value |
| Client.TalliedCounts | src/cursordata/client.py:292-299 | the count of each extension is the number of entries reporting it; the counts sum to the number of entries with a truthy extension; no extension is listed twice |
| Client.TalliedComposers | src/cursordata/client.py:293-301 | `composer_sessions` holds exactly the distinct truthy composer ids |
| Client.CursorDataClient.GetComposerSessions | src/cursordata/client.py:321-342 | the sessions of the stored entries |
| Client.GroupSessions | src/cursordata/client.py:327-341 | the loops compute `ComposerSessions(entries)` |
| Client.BuildSessions | src/cursordata/client.py:338-341 | one session per group, in group order; the first failing `from_entries` propagates |
| Client.SessionIds | src/cursordata/client.py:330-341 | the session ids are distinct, in first-occurrence order, and every truthy composer id has a session |
| Client.SessionCounts | src/cursordata/client.py:330-341 | each session counts exactly the entries with its composer id |
| Client.SessionGroupMembers | src/cursordata/client.py:330-335 | each group is the subsequence of entries with that composer id; entries without an id are dropped |
| Client.SessionKeyIs | src/cursordata/client.py:332 | a truthy hashable `q` is an entry's session key iff the entry's `composer_id` is `q` |
| Client.CursorDataClient.GetEntry | src/cursordata/client.py:344-400 | the entry stored under exactly that key, routed by prefix |
| Client.RoutedKind | src/cursordata/client.py:379-394 | a routed kind's prefix starts the key, and None iff no kind prefix does |
| Client.EntryOfNonDict | src/cursordata/client.py:375-377 | a decoded non-dict value is returned as is, None as no entry |
| Client.EntryOfUnrouted | src/cursordata/client.py:398-400 | a dict under an unknown prefix is returned raw |
| Client.EntryOfKind | src/cursordata/client.py:379-394 | a model returned for a key has the kind whose prefix starts the key |
| Client.BubbleEntryIds | src/cursordata/client.py:380-386 | `bubbleId:<b>:<c>` builds the bubble with both ids from the key |
| Client.InlineEntryId | src/cursordata/client.py:395-397 | the inline-diffs workspace id is the key with every `inlineDiffs-` occurrence removed |
| Client.InlineIdDropsInnerMarker | src/cursordata/client.py:396 | an `inlineDiffs-` inside the id is removed as well |
| Client.CursorDataClient.SearchKeys | src/cursordata/client.py:402-418 | raises `ValueError` for any table but `ItemTable`/`cursorDiskKV` before touching the connection, else returns the matching keys |
| Client.CursorDataClient.IterateAllKeys | src/cursordata/client.py:420-436 | the same validation, then all keys of the table |
| Query.Comprehension | src/cursordata/query.py:263-264 | `[x for x in items if f(x)]` computes `TryFilter`: the first raising call aborts |
| Query.ApplyFilters | src/cursordata/query.py:263-264 | the loop over the predicates computes `Filtered(items, filters)` |
| Query.FilteredKeeps | src/cursordata/query.py:263-264 | when no predicate raises, the result is the in-order items satisfying all predicates |
| Query.FilteredRaises | src/cursordata/query.py:263-264 | the run succeeds iff each predicate is defined on every item surviving the earlier ones |
| Query.FilteredPrefixFails | src/cursordata/query.py:263-264 | once a predicate raises, the later ones play no part |
| Query.FilteredTotal | src/cursordata/query.py:263-264 | predicates defined everywhere give the items satisfying all of them |
| Query.PaginatedSlice | src/cursordata/query.py:405-408 | offset applied only if > 0; limit only if truthy; a negative limit drops that many items from the end; all as one slice of the items |
| Query.PageLength | src/cursordata/query.py:405-408 | with offset `o >= 0` and limit `L > 0`, the page has `min(L, max(0, N-o))` items, namely `items[o:o+L]` |
| Query.PagesAdjacent | src/cursordata/query.py:88-100 | page `p` followed by page `p+1` is the double-sized window at page `p`'s offset |
| Query.BaseQuery.constructor | src/cursordata/query.py:57-62 | a new query has no limit, offset 0, no predicates and no id |
| Query.BaseQuery.Limit | src/cursordata/query.py:64-74 | stores `n` verbatim, 0 and negatives included, changes nothing else and returns the same builder |
| Query.BaseQuery.Offset | src/cursordata/query.py:76-86 | stores `n` verbatim, changes nothing else and returns the same builder |
| Query.BaseQuery.Page | src/cursordata/query.py:88-100 | offset `(p-1)*s` and limit `s`, so `page(0, 10)` sets offset -10 |
| Query.BaseQuery.Filter | src/cursordata/query.py:102-112 | appends exactly one predicate at the end |
| Query.BaseQuery.FilterById | src/cursordata/query.py:123-133 | stores the id and changes nothing else |
| Query.WhereBubbles | src/cursordata/query.py:135-233 | appends exactly `BubbleFilters(criteria)` and changes nothing else |
| Query.BubbleFiltersCount | src/cursordata/query.py:164-231 | one predicate per criterion group: date bounds share one, the token minimums share one, the flags count when not None (even False), the model name only when truthy |
| Query.BubbleCriteriaMet | src/cursordata/query.py:164-231 | a bubble passes the registered predicates iff each given criterion holds of it |
| Query.DateGroup | src/cursordata/query.py:164-181 | the date predicate is registered when a bound is given |
| Query.ModelGroup | src/cursordata/query.py:183-188 | a truthy model name requires `model_name` to equal it |
| Query.TokenGroup | src/cursordata/query.py:190-199 | the shared token predicate holds iff each given minimum is met |
| Query.PresenceGroup | src/cursordata/query.py:201-224 | a `has_*` flag requires the presence of code blocks, diffs or lint errors to equal it |
| Query.AgenticGroup | src/cursordata/query.py:226-231 | an `is_agentic` flag requires `is_agentic == flag` |
| Query.WhereSessions | src/cursordata/query.py:272-308 | appends exactly `SessionFilters(criteria)` and changes nothing else |
| Query.SessionCriteriaMet | src/cursordata/query.py:289-306 | one predicate for a truthy extension and one shared by the file bounds; they never raise, and a session passes iff it lists the extension and its file count is within the bounds |
| Query.WhereTracking | src/cursordata/query.py:352-390 | appends exactly `TrackingFilters(criteria)` and changes nothing else |
| Query.TrackingCriteriaMet | src/cursordata/query.py:369-388 | one predicate per truthy criterion; they raise iff metadata is not a dict; an entry passes iff source, extension and composer id equal the given values |
| Query.ExecuteBubbles | src/cursordata/query.py:235-266 | fetches with prefix `bubbleId:` and the two-id pattern, passing the window to SQL, then runs the predicates |
| Query.BubblesUnderId | src/cursordata/query.py:244-260 | under a bubble id, every result comes from a row whose key starts with `bubbleId:<id>:` up to case |
| Query.BubbleRowIds | src/cursordata/query.py:244-251 | a row `bubbleId:<b>:<c>` gives the bubble built with both ids from its key |
| Query.ExecuteCheckpoints | src/cursordata/query.py:437-463 | fetches with prefix `checkpointId:` and its pattern, then runs the predicates |
| Query.ExecuteMessageContexts | src/cursordata/query.py:486-511 | fetches with prefix `messageRequestContext:`, then runs the predicates |
| Query.ExecuteComposerData | src/cursordata/query.py:534-560 | fetches with prefix `composerData:`, asking for an exact key iff a composer id is set |
| Query.DiskResultSelected | src/cursordata/query.py:253-260 | under a faithful store, every result of a disk query comes from a row the store returned for its selector and window, whose key the selector admits and whose parse is that result |
| Query.ComposerDataKeys | src/cursordata/query.py:553 | with a composer id, results come only from the key `composerData:<id>`; without one, from keys starting with `composerData:` up to case |
| Query.ExecuteSessions | src/cursordata/query.py:310-346 | groups the entries into sessions, pages them, then runs the predicates |
| Query.PlainSessionQuery | src/cursordata/query.py:323-334 | without paging or predicates, the result is one session per truthy composer id in first-seen order |
| Query.ExecuteTracking | src/cursordata/query.py:392-414 | pages the entries, then runs the predicates |
| Query.TrackingWindow | src/cursordata/query.py:401-414 | with `0 <= o <= N`, `L > 0` and no predicates, the result is `entries[o:o+L]` |

## Left out

- SQLite itself (connections, cursors, SQL text) is not modelled. The database is the `Store` value, and `Faithful` states the one property the proofs need of it.
- `get_database_info`, `_find_database` and the path checks in `__init__` are left out: they depend on the file system and the platform.
- JSON grammar, UTF-8 decoding and floats are left out. Decoding is the abstract `Decoder`; numbers are integers.
- Date handling is left out: dateutil parsing, time zones, `strftime`, `fromtimestamp`. This covers `filter_by_date_range`, `group_by_date`, `MetadataGroup.created_datetime` and the tracking start time in `get_usage_stats`. The date predicate of `BubbleQuery.where` is a given function.
- The general regex engine is left out. `parse_key_pattern` and `camel_to_snake` are the specific string algorithms their regexes denote, and Unicode case rules are replaced by ASCII ones.
- Dataclass reflection is left out. Each record kind has an explicit table of declared fields and defaults, and one generic `Record` stands for all kinds.
- `QueryBuilder` and the six query subclasses are collapsed into one generic `BaseQuery` class. Its `id` field stands for `_bubble_id` or `_composer_id`.
- A predicate is a function returning `Result<bool>`. Python's truthiness of a predicate's return value is taken as `Ok(true)` for keep.
- The collection classes are modelled on sequences, since their operations return new collections and never mutate. Covered by this:
  - `to_list`, `items`, `__len__` and `__iter__`;
  - the subclass-preserving `self.__class__(...)`;
  - `__getitem__`'s aliasing of the underlying list.
- `Collections.Sorted`: sort keys are integers, and Python's general comparison between keys is left out.
- Logging, `__repr__`, context-manager plumbing and lazy generators are left out. `iterate_all_keys` returns the whole key sequence.
- `Query.ExecuteBubbles`, `Query.ExecuteCheckpoints`, `Query.ExecuteMessageContexts` and `Query.ExecuteComposerData` do not model a custom `key_parser`: `query.py` never passes one.
- `Client.CursorDataClient.QueryDiskKV` has no `key_parser` parameter (`client.py:131`), for the same reason. Keys are parsed only by `key_pattern`.
- `Client.CursorDataClient.GetUsageStats`: the start time is not parsed, so the model succeeds whenever the tally does. In the source, a stored start time such as `"1e400"` becomes infinity, and the `OverflowError` from `datetime.fromtimestamp` is not among the exceptions caught at `client.py:305-311`, so it escapes `get_usage_stats`.
- KeyPattern.ParseKeyPattern: group names are accepted only as ASCII identifiers. Python's `re` also accepts Unicode identifiers, and it compiles a name containing `>`, such as `{a>b}`, as the group `a` whose sub-pattern starts with the literal text `b>`. The model reports both as `re.error`.
- Records.BubbleFromDict: the pops and insertions on `modelInfo` and `tokenCount` (`cursordiskkv_models.py:239-250`) change the caller's nested dicts in place, even when construction then raises. The model works on values, so the caller's data is never changed.
- Python treats `True` and `1`, and `False` and `0`, as the same dict or set key. The model compares `Json` values structurally and keeps them apart. This affects the keys counted by `Client.TallyStep` and `Client.Tallied`, the sessions keyed by `Client.SessionKey` in `Client.SessionGroups` and `Client.ComposerSessions`, the sets of `Tracking.TruthySet`, and the group keys of `Collections.Grouped`.
