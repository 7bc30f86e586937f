# Orion/Sutradhar core, modelled in Dafny

Orion (shipped as `orion`, `orion/workbench` and the older `sutradhar` copy) is a
command-line coding assistant. A user talks to a language model about a
repository. The model proposes change specs, which pile up as pending changes.
On `:apply` the model returns whole-file contents, which are written back.
Between those steps the program calls tools the model asks for, keeps a
conversation log and metadata file, honours `.orionignore`, and keeps per-file
and per-dependency summaries fresh.

This project models the bookkeeping of that program: the parts that decide
what is sent, what is kept and what is answered. Network, file system, console
and model answers sit at the edges and are parameters here. Each module
follows one concern of the source:

- `Strictify`: the JSON-Schema preprocessor for strict structured output.
- `Retry`: the bounded retry around each POST.
- `ResponseShape`: normalising a response into `{content, tool_calls}`.
- `Payload`: the request bodies.
- `Usage`: the token-usage read-out.
- `SystemState`: the in-flight `system_state` message and the `get_file_contents` interception.
- `ResponsesLoop` and `TurnLoop`: the tool-call loops of the orion and sutradhar clients, each a method with a loop proved against a function that specifies a whole run.
- `Paths` and `Ignore`: path normalisation, line counting, `.orionignore` parsing and matching, the pattern cache (a class), the ignore guards and the repository listing.
- `Models` and `Changes`: the pydantic wire records, and the change-spec intake in its pydantic and hand-written forms.
- `Pending`: the pending-change session (a class) with consolidation, discard, the turn append, the bootstrap message and the post-apply split follow-ups.
- `Dispatch` and `RepoTools`: the reflective tool layer (`run_tool`) and the repository tools.
- `Storage`: the metadata and conversation files (a class).
- `Freshness`: language detection, summary routing, and the POS (project orion summary) freshness table for external PDs (project descriptions), with its store as a class.
- `Cli`: the workbench command line.
- `Wrappers` and `Json`: shared `Option`/`Result` types and JSON values with the few Python built-ins applied to them.

Where the source has near-copies, one definition serves all of them, and the
table cites each copy. Where the copies differ (the default language, the
append guard, the turn budget, the snippet default), the difference is a
parameter or a second definition, and a lemma states it.

## Model

| member | source | states |
|---|---|---|
| Json.Strip | src/orion/workbench/tools.py:102 | `str.strip()` shortens the text and leaves no blank at either end |
| Json.Utf8Len | src/orion/workbench/client.py:448 | the UTF-8 length of a text lies between one and four bytes per character |
| Json.NatStr | src/orion/workbench/client.py:369 | `str(n)` of a natural number is a non-empty run of digits |
| Json.NatStrValue | src/orion/workbench/tools.py:96 | the digits of `str(n)` read back as `n` |
| Json.IntStrRoundTrip | src/orion/workbench/tools.py:96 | `int(str(n)) == n` for every integer |
| Json.Prefix | src/orion/workbench/client.py:369 | `s[:n]` is a prefix of `s` of length `min(len(s), n)` |
| Json.Lower | src/orion/workbench/tools.py:102 | `str.lower()` maps each character on its own and keeps the length |
| Json.Strs | src/orion/workbench/tools.py:47-48 | a list of strings as the JSON list of those strings, element by element in order (also src/orion/workbench/summarizers.py:231-233) |
| Json.PyInt | src/orion/workbench/tools.py:96 | `int(v)`: a number as itself, a boolean as 0 or 1, a string by its stripped decimal digits; `None` where `int` raises |
| Json.PyStr | src/orion/workbench/main.py:449 | `str(v)`: `None`, `True`/`False`, decimal digits for a number, a string as itself, a container by its `repr` |
| Strictify.SortSet | src/orion/workbench/client.py:50-51 | `sorted(set)`: a strictly ascending list holding exactly the set's elements |
| Strictify.SortedUnique | src/orion/workbench/client.py:50-51 | two strictly ascending lists with the same elements are equal, so the sorted `required` list is determined by its set |
| Strictify.StrList | src/orion/workbench/client.py:51 | the `required` list written is a JSON list of the names, in order |
| Strictify.Walk | src/orion/workbench/client.py:21-62 | the walk as written keeps every node's kind (object, list, scalar) and every list's length; where it raises is `WalkRaises`, reported by `Preprocess` |
| Strictify.RequiredSet | src/orion/workbench/client.py:45-49 | the names in `set(node.get("required") or [])`: the string entries of a list, the characters of a string, the keys of a dictionary; `set()` of a list holding a list or dictionary, or of a truthy number or boolean, raises `TypeError`, caught as the empty set |
| Strictify.OtherRequired | src/orion/workbench/client.py:45-49 | the `null`s, booleans and numbers that `set()` keeps from an old `required` list, in list order |
| Strictify.SortRaises | src/orion/workbench/client.py:50-51 | `sorted` raises on the union exactly when it mixes a name with a non-name, or `null` with a number or boolean |
| Strictify.RequiredList | src/orion/workbench/client.py:45-51 | the `required` list the walk writes, whenever its sort does not raise: the sorted names, or the lone `null`, or the sorted numbers; it never holds a list or a dictionary |
| Strictify.SortInts | src/orion/workbench/client.py:51 | `sorted` of a set of integers: strictly ascending, exactly the set's elements |
| Strictify.NumberList | src/orion/workbench/client.py:46-51 | the sorted set of numbers and booleans: one entry per value (`True == 1`, `False == 0`), each the first list entry of that value, in ascending order |
| Strictify.WalkRaises | src/orion/workbench/client.py:32-62 | the walk raises exactly when some node it visits has a `properties` object and a `required` list whose sort raises |
| Strictify.Preprocess | src/orion/workbench/client.py:21-62 | `_preprocess_for_openai` fails exactly where the walk raises, and otherwise returns the walked schema with every `$ref` node alone |
| Strictify.MixedRequiredRaises | src/orion/workbench/client.py:45-51 | `{"properties": {"a": {}}, "required": [1]}` makes the preprocessing raise (`str` against `int`) |
| Strictify.NumberRequiredKept | src/orion/workbench/client.py:45-53 | `{"properties": {}, "required": [2]}` keeps `required: [2]` and gains `additionalProperties: false` |
| Strictify.WalkRefsAlone | src/orion/workbench/client.py:35-40 | after the walk, every object containing `$ref` has `$ref` as its only key, at any depth |
| Strictify.RefTargetKept | src/orion/workbench/client.py:35-40 | a `$ref` node becomes `{"$ref": v}` with `v` kept verbatim: the dropped siblings are not descended into |
| Strictify.SortedStrList | src/orion/workbench/client.py:45-51 | the sorted union is a name list of exactly that set |
| Strictify.StrictNodeLaw | src/orion/workbench/client.py:42-53 | a node with a `properties` object gains `additionalProperties: false` and a `required` list: the sorted names of the properties ∪ the old `required` when that list holds only names; when it also holds `null`s, booleans or numbers, the sort raises if there is any name, and otherwise the lone `null` or the sorted numbers (first of equal ones) are written |
| Strictify.PlainNodeKeys | src/orion/workbench/client.py:42-60 | a node without `$ref` and without a `properties` object keeps exactly its keys |
| Strictify.Tighten | src/orion/workbench/client.py:21-62 | the corrected transform (properties visited as schemas, not as a schema node) keeps objects as objects |
| Strictify.TightenEach | src/orion/workbench/client.py:55-57 | every value of a dictionary transformed, keys unchanged |
| Strictify.TightenFieldsShape | src/orion/workbench/client.py:42-57 | the corrected node step adds exactly `required` and `additionalProperties` to a node with properties, and transforms every other value |
| Strictify.Strings | src/orion/workbench/client.py:45-51 | a sorted JSON string list is the rendering of a strictly ascending name sequence |
| Strictify.SortedRequired | src/orion/workbench/client.py:45-49 | the set read back from a sorted `required` list is its elements |
| Strictify.NameListCovers | src/orion/workbench/client.py:45-51 | the name list written is sorted, and its set is the property names ∪ the names in the old `required` |
| Strictify.TightenedRequired | src/orion/workbench/client.py:45-52 | after the node step, `required` is sorted and names every property |
| Strictify.TightenPropsNode | src/orion/workbench/client.py:42-57 | a node with properties becomes strict once its children are |
| Strictify.TightenStrict | src/orion/workbench/client.py:21-62 | every node of the output is strict: `$ref` alone, or a properties node with full sorted `required` and `additionalProperties: false` |
| Strictify.StrictRequiredFixed | src/orion/workbench/client.py:45-51 | on a strict node the `required` list recomputed is the one already there |
| Strictify.FixedPropsNode | src/orion/workbench/client.py:42-57 | a properties node whose parts are already fixed is left unchanged |
| Strictify.StrictFixed | src/orion/workbench/client.py:21-62 | the transform leaves a strict schema unchanged |
| Strictify.TightenIdempotent | src/orion/workbench/client.py:21-62 | applying the corrected transform twice equals applying it once |
| Strictify.WalkNotIdempotent | src/orion/workbench/client.py:42-60 | the walk as written, on `{"properties": {"properties": {}}}`, is not idempotent and its output is not strict |
| Retry.Attempts | src/orion/workbench/client.py:322-384 | the attempt loop from a given attempt number on ends at an attempt between that number and 4, having slept once per retried attempt |
| Retry.PostWithRetries | src/orion/workbench/client.py:322-384 | the `while True` loop with its `attempt` counter yields the result, the last attempt number and the delays of the retry policy |
| Retry.OkMeansTransientThen200 | src/orion/workbench/client.py:355-380 | the loop succeeds exactly when some attempt answers 200 after only timeouts and 5xx answers, and it returns that body |
| Retry.ClientErrorRaisesAtOnce | src/orion/workbench/client.py:367-369 | a first answer neither 200 nor 5xx raises with the body cut to 2000 characters, after one POST and no sleep |
| Retry.FourTimeoutsRaise | src/orion/workbench/client.py:370-382 | four timeouts in a row raise after attempt 4, naming the attempt count |
| Retry.FourServerErrorsRaise | src/orion/workbench/client.py:357-369 | four 5xx answers in a row raise with the fourth status: at most four POSTs |
| Retry.DelayBounds | src/orion/workbench/client.py:359-374 | the k-th delay is the base 1, 2 or 4 seconds times a factor in [0.5, 1.5] |
| ResponseShape.PartsLoop | src/orion/workbench/client.py:245-250 | the pass over a message's content list collects its string items and `output_text` texts in order |
| ResponseShape.ExtractLoop | src/orion/workbench/client.py:224-255 | the normaliser's loop computes the specified `{content, tool_calls}` |
| ResponseShape.CallsAppend | src/orion/workbench/client.py:251-252 | tool calls are collected in output order: collecting over `a + b` is the calls of `a` then those of `b` |
| ResponseShape.CallsAreTagged | src/orion/workbench/client.py:251-252 | the tool calls are exactly the output items whose `type` is the call tag (`function_call`, or `tool_call` in src/sutradhar/client.py:123) |
| ResponseShape.ChunksAppend | src/orion/workbench/client.py:237-250 | text chunks keep output order across concatenation |
| ResponseShape.NoMessagesNoChunks | src/orion/workbench/client.py:241-250 | output without message items contributes no text chunk |
| ResponseShape.NoMessagesNoContent | src/orion/workbench/client.py:254 | with no chunk the content is `None`, not the empty string |
| ResponseShape.SingleMessage | src/orion/workbench/client.py:241-254 | one message with string content gives that string as content and no calls |
| ResponseShape.JoinAppend | src/orion/workbench/client.py:254 | the newline join keeps every chunk: joining `a + b` is the two joins with a newline between |
| ResponseShape.FirstChoiceMessage | src/sutradhar/client.py:247-248 | with no or empty `choices` the first choice's message is the empty dictionary |
| ResponseShape.Extract | src/orion/workbench/client.py:224-255 | `_extract_msg_obj`: the newline-joined text chunks of the output's messages (`None` when there are none) and the output items tagged as tool calls |
| SystemState.ParseState | src/orion/workbench/client.py:151-163 | a message parses as state only if it is a system message whose content decodes to an object tagged `system_state` |
| SystemState.LatestIndex | src/orion/workbench/client.py:165-192 | the index found is a state message with no state message after it; none is found only when there is no state message |
| SystemState.FindLatest | src/orion/workbench/client.py:165-170 | the latest state found is tagged `system_state` |
| SystemState.Upsert | src/orion/workbench/client.py:174-198 | the backward scan and write computes the specified upsert (replace the latest state message, else append) |
| SystemState.NoStatesCountZero | src/orion/workbench/client.py:165-170 | when the scan finds nothing, the list holds no state message |
| SystemState.ReplaceKeepsCount | src/orion/workbench/client.py:193-195 | replacing a state message by a state message keeps the number of state messages |
| SystemState.UpsertCountBound | src/orion/workbench/client.py:174-198 | whatever the codec, an upsert never makes a second state message |
| SystemState.AppendOther | src/orion/workbench/client.py:151-153 | appending a non-system message leaves the state count unchanged |
| SystemState.StateMessageParses | src/orion/workbench/client.py:176 | the state message written reads back as the same state (for a lawful codec) |
| SystemState.UpsertCount | src/orion/workbench/client.py:174-198 | the first upsert creates exactly one state message; later ones keep the count |
| SystemState.UpsertThenFind | src/orion/workbench/client.py:165-198 | after an upsert the latest state is the object just written |
| SystemState.LatestIsLast | src/orion/workbench/client.py:165-170 | the last state message in the list is the one found |
| SystemState.UpsertKeepsOthers | src/orion/workbench/client.py:193-198 | an upsert grows the list by at most one and leaves every non-state message in place |
| SystemState.NextVersion | src/orion/workbench/client.py:457-460 | a missing or falsy version becomes 1 |
| SystemState.Intercept | src/orion/workbench/client.py:428-465 | any tool other than `get_file_contents`, or a non-dictionary output, is emitted verbatim; a truthy path that is not a string is promoted under its JSON key text, and a list or dictionary path raises |
| SystemState.PathKey | src/orion/workbench/client.py:449 | the key a path gets once the state is encoded: a string as itself, a number as its digits, a boolean as `true`/`false` |
| SystemState.NumberPathAlwaysPromotes | src/orion/workbench/client.py:439-460 | a non-zero number as path is never found as already full and is always promoted under its digits, with the number echoed as the path |
| SystemState.AlreadyFullIsNoop | src/orion/workbench/client.py:444-446 | a file the latest state already holds in full gives `{status: noop, reason: already_full, path}` |
| SystemState.NoStateNoBody | src/orion/workbench/client.py:463-465 | without a state message the output is the `no_system_state_or_malformed_result` noop, never the file body |
| SystemState.PromotionStoresBody | src/orion/workbench/client.py:447-462 | a promotion stores the body as a full entry under the path, bumps the version and upserts the state, which is then found as the latest |
| Usage.Either | src/orion/workbench/client.py:268-274 | the Responses spelling is used whenever it is present |
| Usage.FirstPresent | src/orion/workbench/client.py:278-287 | the cached count is the first candidate present, and there is one exactly when some candidate is present |
| Usage.NoUsageLogsZeros | src/orion/workbench/client.py:259-293 | a response without usage logs three zeros |
| Usage.ChatAliases | src/orion/workbench/client.py:268-274 | `prompt_tokens`/`completion_tokens` are read when the Responses spellings are absent |
| Usage.ResponsesSpellingWins | src/orion/workbench/client.py:268-270 | `input_tokens` wins over `prompt_tokens` |
| Usage.CachedPrefersInputDetails | src/orion/workbench/client.py:278-287 | the cached count comes from `input_token_details` before `prompt_tokens_details` |
| Usage.ListUsageRaises | src/orion/workbench/client.py:259-268 | a non-empty list as `usage` makes the call raise (`.get` on a list) |
| Usage.UsageCounts | src/orion/workbench/client.py:259-293 | the three counts `_log_usage` logs (input, cached, output, each 0 when absent), or an error where a truthy `usage` or details entry is not a dictionary |
| Payload.Effort | src/orion/workbench/client.py:131 | the effort is `minimal` or `medium` |
| Payload.TokenCap | src/orion/workbench/client.py:143 | a given non-zero token cap is used as is |
| Payload.WebSearchUnlessSummary | src/orion/workbench/client.py:218-221 | summary calls get exactly the caller's tools; other calls get them followed by `web_search` (also line 131 of the same file) |
| Payload.SummaryCallType | src/orion/client.py:76 | `file_summary` runs at minimal effort, `conversation` at medium |
| Payload.ToolsOnlyWhenGiven | src/sutradhar/client.py:216-218 | the sutradhar payloads carry `tools` and `tool_choice` exactly when tools were given (also lines 94-96 of the same file) |
| Payload.WorkbenchSchemaIsPreprocessed | src/orion/workbench/client.py:202-215 | the workbench payload fails exactly where the preprocessing raises, and otherwise sends the walked schema, whose `$ref` nodes stand alone; the orion copy always sends the schema as given (also line 133 of the same file) |
| Payload.OrionPayload | src/orion/workbench/client.py:202-221 | the Responses body: model, input, the schema under `text.format`, the token cap, the effort and the offered tools with `tool_choice: auto`; with `strict`, an error where the preprocessing raises |
| Payload.PayloadCarries | src/orion/workbench/client.py:202-215 | the body is built exactly when the schema to send is, and `text.format.schema` is that schema |
| SystemState.ReplaceCount | src/orion/workbench/client.py:179-192 | replacing a state message in place removes one state message and adds one exactly when the replacement is a state |
| ResponsesLoop.Fetch | src/orion/workbench/client.py:301-395 | each round makes at least one POST |
| ResponsesLoop.ParseArgs | src/orion/workbench/client.py:412-417 | non-string falsy arguments and undecodable argument strings become `{}` |
| ResponsesLoop.Step | src/orion/workbench/client.py:409-469 | running one call changes neither the turn count nor the POST count; a runner that raises ends the call before its record is sunk or appended |
| ResponsesLoop.RaisingToolEndsRun | src/orion/workbench/client.py:420 | a tool that raises on the first call of a round ends `call_responses` with that exception, with nothing of the call sunk or appended (same at src/orion/client.py:183) |
| ResponsesLoop.RunCalls | src/orion/workbench/client.py:409-472 | running a response's calls in order changes neither the turn count nor the POST count |
| ResponsesLoop.ToolRound | src/orion/workbench/client.py:397-406 | a round that goes on has taken exactly one more tool turn and stays within 50 |
| ResponsesLoop.Round | src/orion/workbench/client.py:301-485 | a round that goes on has taken exactly one more tool turn and stays within 50 |
| ResponsesLoop.FetchOnce | src/orion/workbench/client.py:301-395 | the POST of a round (with the retry loop in the workbench copy) gives the specified response and POST count |
| ResponsesLoop.RunCallsLoop | src/orion/workbench/client.py:409-469 | the `for tc in tool_calls` loop computes the specified run of the calls |
| ResponsesLoop.RoundOnce | src/orion/workbench/client.py:301-485 | one pass of the `while True` body computes the specified round |
| ResponsesLoop.Drive | src/orion/workbench/client.py:301-485 | the whole `while True` loop from a state on: rounds are taken until one returns or raises, at most 50 tool turns |
| ResponsesLoop.CallResponsesLoop | src/orion/workbench/client.py:301-485 | `call_responses` as run computes the specified result, message list and sink (also lines 146-148 of the same file) |
| ResponsesLoop.AtMostFiftyToolTurns | src/orion/workbench/client.py:404-406 | at most 50 rounds run tools; a run that reaches 51 ends raising "Exceeded max tool-call turns" (also line 147 of the same file) |
| ResponsesLoop.RoundDoneTurns | src/orion/client.py:167-169 | a round that returns stays within the budget, and one that exceeds it raises (also line 90 of the same file) |
| ResponsesLoop.NoRunnerRecordsNothing | src/orion/workbench/client.py:401-402 | tool calls without a runner raise before any record is sunk or appended |
| ResponsesLoop.PairedAppend | src/orion/workbench/client.py:422-469 | sequences of answered call/output pairs concatenate to such a sequence |
| ResponsesLoop.StepPaired | src/orion/workbench/client.py:422-469 | one call adds a `function_call` record then the `function_call_output` with the same `call_id` to the sink, and without interception the same records to the message list |
| ResponsesLoop.UnitExtends | src/orion/client.py:172-189 | a call record followed by its output extends the run in the paired shape |
| ResponsesLoop.RunCallsPaired | src/orion/client.py:172-189 | all calls of a response add paired records, in call order |
| ResponsesLoop.RoundPaired | src/orion/workbench/client.py:397-485 | a continuing round adds paired records; a returning round sinks only the assistant answer |
| ResponsesLoop.ReturnedRunIsPaired | src/orion/workbench/client.py:301-485 | a run that returns sank paired records followed by the final answer, and without interception appended those same records to the messages |
| ResponsesLoop.ContinuePaired | src/orion/workbench/client.py:422-472 | the paired shape of the sink is kept from round to round |
| ResponsesLoop.CallResponsesPaired | src/orion/client.py:148-205 | a returning `call_responses` sank answered tool calls and then the final answer; the message list is the input plus those records |
| ResponsesLoop.StepStateCount | src/orion/workbench/client.py:428-465 | with interception one call never adds a second state message to the in-flight list |
| ResponsesLoop.RunCallsStateCount | src/orion/workbench/client.py:409-469 | the calls of a response never add a second state message |
| ResponsesLoop.ToolRoundStateCount | src/orion/workbench/client.py:397-472 | a tool round never adds a second state message |
| ResponsesLoop.RoundStateCount | src/orion/workbench/client.py:301-485 | a round never adds a second state message |
| ResponsesLoop.DriveStateCount | src/orion/workbench/client.py:301-485 | the whole loop never adds a second state message |
| ResponsesLoop.SingleStateMessage | src/orion/workbench/client.py:172-198 | a caller that sends at most one state message never sees a second one appear |
| TurnLoop.Step | src/sutradhar/client.py:153-170 | running one call changes neither the turn count nor the POST count; a runner that raises ends the call before its tool message |
| TurnLoop.RaisingToolAfterSink | src/sutradhar/client.py:163 | a tool that raises on the first call ends the loop with that exception after the assistant turn was sunk and before any tool message (same at line 268) |
| TurnLoop.RunCalls | src/sutradhar/client.py:153-170 | running a turn's calls changes neither the turn count nor the POST count (also lines 259-274 of the same file) |
| TurnLoop.ToolRound | src/sutradhar/client.py:141-179 | a turn that goes on has taken exactly one more tool turn and stays within 12 (also lines 251-275 of the same file) |
| TurnLoop.Round | src/sutradhar/client.py:129-283 | a round that goes on has taken exactly one more tool turn and stays within 12 |
| TurnLoop.RunCallsLoop | src/sutradhar/client.py:153-170 | the `for tc in tool_calls` loop computes the specified run of the calls |
| TurnLoop.RoundOnce | src/sutradhar/client.py:129-283 | one pass of the `while True` body computes the specified round |
| TurnLoop.Drive | src/sutradhar/client.py:129-283 | the whole `while True` loop from a state on: turns are taken until one returns or raises, at most 12 tool turns |
| TurnLoop.CallLoop | src/sutradhar/client.py:73-283 | `call_responses` and `call_chatcompletions` as run compute the specified result, message list and sink |
| TurnLoop.AtMostTwelveToolTurns | src/sutradhar/client.py:256-258 | at most 12 rounds run tools; a run that reaches 13 ends raising "Exceeded max tool-call turns" (also lines 75, 148-150 and 224 of the same file; the same budget holds in the loops at src/sutradhar/editor.py:812, 894-896, 970, 1006-1008) |
| TurnLoop.RunCallsAnswers | src/sutradhar/client.py:153-170 | the calls add one `tool` message per call, in call order, carrying the call's id, to both the sink and the message list (also lines 259-274 of the same file) |
| TurnLoop.ToolRoundRecords | src/sutradhar/client.py:252-274 | the assistant turn is sunk first; the Responses loop appends it after the tool messages, the Chat loop before them (also lines 143, 169-177 of the same file) |
| TurnLoop.NoRunnerAfterSink | src/sutradhar/client.py:252-255 | without a runner the loop raises only after the assistant turn with the calls has been sunk (also lines 143-146 of the same file) |
| TurnLoop.NoChoicesRaises | src/sutradhar/client.py:247-282 | a Chat result without choices sinks an empty assistant message and raises on parsing `""` |
| Paths.SplitOn | src/sutradhar/fs.py:69 | `split` always gives at least one piece |
| Paths.SplitOnPieces | src/sutradhar/fs.py:69 | no piece contains the separator |
| Paths.SplitOnJoin | src/sutradhar/fs.py:22-23 | splitting a joined path gives back its separator-free components |
| Paths.Root | src/sutradhar/fs.py:22-23 | the anchor `Path(p).as_posix()` keeps is empty, `/` or `//` (two leading slashes are kept, three or more collapse) |
| Paths.PartsClean | src/sutradhar/fs.py:22-23 | the components of a path are non-empty, not `.` and slash-free |
| Paths.PartsOfJoin | src/sutradhar/fs.py:22-23 | the components of an anchor plus clean joined components are those components |
| Paths.NormalizeIdempotent | src/sutradhar/fs.py:22-23 | `normalize_path` is idempotent |
| Paths.NormalizeDropsDots | src/sutradhar/fs.py:22-23 | `a/./b` normalises to `a/b` |
| Paths.NormalizeKeepsParent | src/sutradhar/fs.py:22-23 | `..` components are kept: `../a` stays `../a` |
| Paths.NormalizeEmpty | src/sutradhar/fs.py:22-23 | the empty path normalises to `.` |
| Paths.NormalizePath | src/sutradhar/fs.py:22-23 | `normalize_path`: the root, then the path's clean parts joined by `/`, or `.` when nothing is left |
| Paths.NormalizeLeadingSlashes | src/sutradhar/fs.py:22-23 | three leading slashes collapse to one, two are kept |
| Paths.CountChar | src/sutradhar/fs.py:69 | `s.count(c)` is at most the length |
| Paths.SplitOnCount | src/sutradhar/fs.py:66-69 | splitting on newlines gives one more piece than there are newlines, the last piece empty iff the text is empty or ends with a newline |
| Paths.CountLinesIsLines | src/sutradhar/fs.py:66-69 | `count_lines` is the number of lines of the text: 0 for `""`, one per newline plus one for an unterminated last line (same rule at src/sutradhar/editor.py:95-98) |
| Paths.CountLines | src/sutradhar/fs.py:66-69 | the number of newlines, plus one for a last line without its newline; 0 for the empty text |
| Paths.ColocatedParts | src/sutradhar/fs.py:224-231 | the summary of `a/b/c.ext` is `a/b/.orion/c.ext.json`: the file's directory, then `.orion`, then its name plus `.json` |
| Paths.PartsOfNormalize | src/sutradhar/fs.py:22-23 | normalising keeps the components |
| Paths.LastIndexOf | src/orion/orion.py:548-549 | the index found holds the character and none follows it; -1 only when it is absent |
| Paths.StemAndSuffix | src/orion/orion.py:548-549 | stem and suffix give back the name; the suffix is empty or a dot followed by dot-free characters |
| Paths.NameParts | src/orion/orion.py:548-550 | a path is its directory components followed by its name, a clean component |
| Paths.WithNameParts | src/orion/orion.py:550 | `with_name` keeps the directory and replaces the last component |
| Ignore.LStripSlash | src/sutradhar/fs.py:99 | `lstrip("/")` removes a prefix and leaves no leading slash |
| Ignore.RStripSlash | src/sutradhar/fs.py:102 | `rstrip("/")` removes a suffix and leaves no trailing slash |
| Ignore.ParseIgnoreLoop | src/sutradhar/fs.py:85-114 | the line-by-line parser returns the rules of the lines, in order |
| Ignore.RulesOfAppend | src/sutradhar/fs.py:87-113 | the rules of two runs of lines are the rules of each, concatenated |
| Ignore.SkippedLines | src/sutradhar/fs.py:88-96 | a line gives no rule exactly when it is blank, a `#` comment or a bare `!` |
| Ignore.NegationFromBang | src/sutradhar/fs.py:91-94 | a rule is negated exactly when its line starts with `!` |
| Ignore.UnanchoredMatchesAnywhere | src/sutradhar/fs.py:110-112 | a pattern without a leading slash becomes a glob starting with `**` |
| Ignore.PatternOfName | src/sutradhar/fs.py:100-107 | a trailing slash turns `name/` into `name/**`; a plain name is kept |
| Ignore.GlobRooted | src/sutradhar/fs.py:97-109 | a leading slash anchors the pattern: no `**/` is added |
| Ignore.GlobUnrooted | src/sutradhar/fs.py:110-112 | an unanchored pattern gets `**/` in front |
| Ignore.GlobOfBody | src/sutradhar/fs.py:97-112 | the glob of each of the four shapes (`name`, `/name`, `name/`, `/name/`) |
| Ignore.ParseRuleLine | src/sutradhar/fs.py:85-114 | every line built from a flag, an anchor, a directory marker and a plain name parses to the rule with that flag and the expected glob |
| Ignore.BangLine | src/sutradhar/fs.py:92-94 | `!body` gives the negated rule of `body` |
| Ignore.PlainLine | src/sutradhar/fs.py:88-113 | a non-comment line gives the non-negated rule of its glob |
| Ignore.IsIgnoredRel | src/sutradhar/fs.py:138-147 | the loop over the rules computes the last-match decision |
| Ignore.LastMatchWins | src/sutradhar/fs.py:143-147 | a path is ignored exactly when the last rule matching it is not negated |
| Ignore.LastIsLastMatch | src/sutradhar/fs.py:144-146 | when the final rule matches, it is the last match |
| Ignore.LastMatchInFront | src/sutradhar/fs.py:144-146 | when the final rule does not match, the last match lies among the earlier rules |
| Ignore.NoMatchNotIgnored | src/sutradhar/fs.py:140-143 | with no matching rule (or no rules) a path is not ignored |
| Ignore.NegationUnignores | src/sutradhar/fs.py:145-146 | a later matching `!` rule re-includes the path whatever came before |
| Ignore.IgnoreCache.constructor | src/sutradhar/fs.py:117-135 | the cache starts empty |
| Ignore.IgnoreCache.Patterns | src/sutradhar/fs.py:117-135 | the rules served and the new cache: a hit on the same modification time, otherwise a reparse stored under the root |
| Ignore.SameMtimeServedFromCache | src/sutradhar/fs.py:123-125 | once answered, the same modification time is served from the cache whatever the file now holds |
| Ignore.ChangedMtimeReparses | src/sutradhar/fs.py:126-134 | a changed modification time reparses (no file gives no rules, an unreadable file no rules) |
| Ignore.StoredCoherent | src/sutradhar/fs.py:134 | every cache entry holds the rules of its own modification time |
| Ignore.EnsureNotIgnored | src/sutradhar/fs.py:161-164 | the guard fails exactly for ignored paths, with the `.orionignore` message |
| Ignore.IgnoredIsBlocked | src/sutradhar/fs.py:177-199 | reads and writes of an ignored path fail with that message, whether or not the file exists |
| Ignore.WriteThenRead | src/sutradhar/fs.py:177-191 | reading back a written file gives what was written |
| Ignore.NormalizedParts | src/sutradhar/fs.py:214-220 | normalising a path keeps its components |
| Ignore.ListingIsClean | src/sutradhar/fs.py:202-221 | the listing is sorted without repeats, holds exactly the normalised walked files that are kept, and none is ignored or inside `.orion` |
| Models.Record | src/orion/workbench/models.py:15-17 | a record validates exactly when the value is a dictionary whose keys are all declared and include the required ones (`extra="forbid"`) |
| Models.Str | src/orion/workbench/models.py:73-75 | a `str` field accepts exactly strings, unchanged |
| Models.Bool | src/orion/workbench/models.py:102 | a `bool` field accepts a boolean as itself, and a string exactly when, ignoring ASCII case, it is one of `1 on t true y yes` (true) or `0 off f false n no` (false); `null`, lists and dictionaries are refused |
| Models.BoolIgnoresCase | src/orion/workbench/models.py:102 | a string and its lower-case form validate alike, so `"True"` and `"YES"` are true and `"Off"` is false |
| Models.Int | src/orion/workbench/models.py:23 | an `int` field accepts a number as itself, a boolean as 0 or 1 and a stripped, optionally signed decimal text as its value; it refuses any other text, `null`, lists and dictionaries |
| Models.Each | src/orion/workbench/models.py:89 | a validated list has one element per input element |
| Models.EachOk | src/orion/workbench/models.py:89 | a list validates exactly when every element does, and each element is validated on its own |
| Models.List | src/orion/workbench/models.py:128-129 | only a JSON array validates as a list, one element per item |
| Models.ParseSpec | src/orion/workbench/models.py:84-89 | a `ChangeSpec` is validated from exactly the keys `id`, `title`, `description`, `items`, each of its type |
| Models.ParseApply | src/orion/workbench/models.py:123-129 | an `ApplyResponse` is validated from exactly the keys `mode`, `explanation`, `files`, `issues`, each of its type |
| Models.ValidateApplyResponse | src/orion/workbench/main.py:78-85 | `(True, "")` when the answer validates as an `ApplyResponse`, `(False, message)` otherwise |
| Models.ChangeTypeRoundTrip | src/orion/workbench/models.py:63-68 | the enum and its five string values correspond one to one |
| Models.DumpItems | src/orion/workbench/models.py:84-89 | dumping a list of items dumps each item, in order |
| Models.ParsedItemNormal | src/orion/workbench/models.py:71-81 | a validated change item carries the normalised form of its path |
| Models.ItemRoundTrip | src/orion/workbench/models.py:71-81 | validating a dumped item with a normalised path gives the item back |
| Models.SpecRoundTrip | src/orion/workbench/models.py:84-89 | validating a dumped change spec gives the spec back |
| Models.Mode | src/orion/workbench/models.py:125 | the mode validates exactly for `"ok"` and `"incompatible"` |
| Models.NormalizeAll | src/orion/workbench/models.py:116-120 | each issue path is normalised, in order, none dropped |
| Models.AcceptedApplyShape | src/orion/workbench/main.py:78-85 | an accepted apply response has exactly the four keys, one of the two modes, and one record per file and issue, in order |
| Models.IssuePathsNormalized | src/orion/workbench/models.py:112-120 | an issue keeps the number and order of its paths, each normalised |
| Models.ExtraKeyRejected | src/orion/workbench/models.py:123-129 | an apply response with an undeclared key is refused (also lines 15-17 of the same file) |
| Models.SummaryDefaults | src/orion/workbench/models.py:40-60 | missing list fields default to empty lists, a missing `code` to `None`, and a missing synopsis is an error |
| Changes.MadeItemValidates | src/orion/workbench/main.py:57-61 | `make_change_item` succeeds exactly for the five change types, and the item built validates as the `ChangeItem` the raw arguments would give, with its path normalised (same function at src/orion/orion.py:60 and src/sutradhar/editor.py:209-216) |
| Changes.DumpAll | src/orion/workbench/main.py:73 | one dumped spec per parsed spec, in order |
| Changes.ValidateChangeSpecs | src/orion/workbench/main.py:66-73 | the list validated as change specs and dumped, or `[]` when any element fails |
| Changes.ValidateAllOrNothing | src/orion/workbench/main.py:66-73 | the pydantic `validate_change_specs` returns one dumped spec per input, in order, when every spec is valid, and nothing as soon as one is not |
| Changes.AsObjects | src/orion/workbench/main.py:73 | dumped specs are fed back as JSON objects, one per spec |
| Changes.ValidateIdempotent | src/orion/workbench/main.py:66-73 | validating the output again gives the same output |
| Changes.CheckItems | src/sutradhar/editor.py:231-241 | the item loop with its early `break` reports whether every item has the three keys and a known change type |
| Changes.NormalizeItemsLoop | src/sutradhar/editor.py:244-245 | normalising the items in place matches the item-by-item normalisation |
| Changes.NormalizeItemsErr | src/sutradhar/editor.py:244-245 | the first item whose path is not a string makes the whole call raise `TypeError` |
| Changes.EditorValidateLoop | src/sutradhar/editor.py:218-252 | the hand-written validator's loops compute the spec-by-spec result: a non-list gives nothing, bad specs are skipped, kept specs carry exactly four keys |
| Changes.PrepareAllErr | src/sutradhar/editor.py:244-245 | an error normalising a kept spec's items is the error of the whole call |
| Changes.NormalizedItems | src/sutradhar/editor.py:244-245 | normalising a list succeeds exactly when every item's path is a string, and then normalises each item on its own |
| Changes.NormalizeItemEffect | src/sutradhar/editor.py:245 | normalising an item changes only its path, keeps a good item good, and with an idempotent normaliser is a fixed point |
| Changes.PreparedSpecs | src/sutradhar/editor.py:222-251 | specs are kept or dropped whole, never more than were given, each kept spec with exactly `id`, `title`, `description`, `items` |
| Changes.PrepareAll | src/sutradhar/editor.py:222-251 | the well-formed specs, each with its items' paths normalised, in order; malformed specs are skipped, and an error from normalising stops the pass |
| Changes.NoGoodSpecsNothingKept | src/sutradhar/editor.py:222-243 | a list without a good spec yields nothing |
| Changes.EditorDropsWhole | src/sutradhar/editor.py:219-243 | a non-list yields nothing, and a spec with a bad item is dropped whole |
| Changes.EditorValidateIdempotent | src/sutradhar/editor.py:218-252 | running the editor's validation on its own output gives that output again |
| Changes.PrepareAllFixed | src/sutradhar/editor.py:222-251 | with an idempotent normaliser, prepared specs fed back are a fixed point |
| Changes.PreparedFixed | src/sutradhar/editor.py:246-251 | one prepared spec fed back is good and prepares to itself |
| Changes.NormalizedItemsFixed | src/sutradhar/editor.py:244-245 | items whose paths are already normal are left as they are |
| Changes.FirstAbsent | src/sutradhar/editor.py:256-259 | the first missing required key is reported, and none is reported only when all are present |
| Changes.EditorValidateApply | src/sutradhar/editor.py:255-284 | the hand-written checks in order: the first missing key, a bad mode, a non-string explanation, non-list files or issues, then the first bad file and the first bad issue; `(True, "")` when all pass |
| Changes.CheckFileGood | src/sutradhar/editor.py:266-275 | a file entry passes exactly when it has a string `path`, a boolean `is_new` and a string `code` |
| Changes.CheckIssueGood | src/sutradhar/editor.py:276-283 | an issue passes exactly when it has a string `reason` and a list of strings `paths` |
| Changes.FirstFailureNone | src/sutradhar/editor.py:266-283 | a list passes exactly when every entry does |
| Changes.EditorApplyAcceptsGood | src/sutradhar/editor.py:255-284 | the hand-written apply validator answers `(True, "")` exactly for a well-formed response |
| Changes.DialectsDisagreeOnFiles | src/sutradhar/editor.py:267-269 | a response the pydantic `ApplyResponse` accepts with at least one file is refused here for its missing `code` field (the pydantic record calls it `contents`, src/orion/workbench/models.py:99-103) |
| Pending.Firsts | src/orion/workbench/main.py:386-396 | consolidation keeps a sub-list of the specs it was given |
| Pending.KeysOfSnoc | src/orion/workbench/main.py:393 | adding a spec adds its key to the `seen` set |
| Pending.FirstIffUnseen | src/orion/workbench/main.py:390-393 | a spec is kept exactly when its key is not among the keys before it |
| Pending.FirstsKeys | src/orion/workbench/main.py:384-398 | consolidation loses no key |
| Pending.FirstsDistinct | src/orion/workbench/main.py:384-398 | after consolidation no two specs share a key |
| Pending.FirstsOfDistinct | src/orion/workbench/main.py:384-398 | a list without repeated keys is left as it is |
| Pending.ConsolidateIdempotent | src/orion/workbench/main.py:384-398 | consolidating twice is consolidating once |
| Pending.FirstsMembers | src/orion/workbench/main.py:388-396 | what survives is exactly the specs that come first for their key (first wins) |
| Pending.FirstsLoop | src/orion/workbench/main.py:386-396 | the loop with its `seen` set computes the first-wins list (same loop at src/orion/orion.py:425-439 and src/sutradhar/editor.py:1387-1400) |
| Pending.WithoutMembers | src/orion/workbench/main.py:279 | discarding keeps exactly the specs with another id (or none), in order |
| Pending.WithoutLength | src/orion/workbench/main.py:278-285 | the list keeps its length exactly when no spec carries the id |
| Pending.BootstrapAlwaysInserts | src/orion/workbench/main.py:229-246 | the message built has top-level type `message`, never `orion_bootstrap`, so a second call inserts again rather than replacing the head |
| Pending.PartTwoNameClean | src/orion/workbench/main.py:521-523 | `{stem}_part2{ext}` is a component name six characters longer |
| Pending.PartTwoParts | src/orion/workbench/main.py:523 | the second part sits in the file's directory under the new name |
| Pending.SplitTargets | src/orion/workbench/main.py:520-531 | the two paths of a split are normalised and never the same file |
| Pending.SplitItems | src/orion/workbench/main.py:525-532 | a split spec holds the `modify` item for the file and the `create` item for its second part, as `make_change_item` builds them |
| Pending.ItemPath | src/orion/workbench/main.py:59-63 | an item built carries the normalised path |
| Pending.TwoItemsKeyed | src/orion/workbench/main.py:389 | a spec with a title and two items with string paths has a consolidation key made of those two paths |
| Pending.SplitKeyed | src/orion/workbench/main.py:525-532 | a split spec can be consolidated; its key holds the two normalised paths |
| Pending.SplitsMembers | src/orion/workbench/main.py:516-535 | one split is queued for each file over the cap, and no more |
| Pending.Splits | src/orion/workbench/main.py:516-535 | one follow-up spec per written file over the line cap, in file order |
| Pending.NoSplitsWithinCap | src/orion/workbench/main.py:519 | nothing is queued when no file is over the cap |
| Pending.SplitsKeyed | src/orion/workbench/main.py:534 | every queued split can be consolidated |
| Pending.SplitsForKeyed | src/orion/workbench/main.py:516-535 | split follow-ups can be consolidated |
| Pending.DumpedKeyed | src/orion/workbench/main.py:640-646 | specs dumped from validated `ChangeSpec` records can be consolidated |
| Pending.WrittenFiles | src/orion/workbench/main.py:491-494 | one written file per `FileContents`, in order, with its path and text |
| Pending.OversizedFileIsNeverSplit | src/orion/workbench/main.py:493-518 | in an `ok` answer with a file over the cap, `f.code` raises before any write; the intended command queues that file's split |
| Pending.Session.constructor | src/orion/workbench/main.py:151-154 | the session starts from the stored pending list, counter, commit log and history |
| Pending.Session.Consolidate | src/orion/workbench/main.py:384-398 | `cmd_consolidate` keeps the first spec per key, resets the counter and saves |
| Pending.Session.AutoConsolidateIfNeeded | src/orion/workbench/main.py:400-405 | consolidation runs exactly when the counter is a positive multiple of three |
| Pending.Session.DiscardChange | src/orion/workbench/main.py:276-285 | removes every spec with the id, and saves only when something was removed |
| Pending.Session.FinishTurn | src/orion/workbench/main.py:643-654 | the assistant message is appended; a non-empty batch is appended, counted, saved, and may trigger consolidation; an empty batch changes nothing else |
| Pending.Session.EnsureBootstrap | src/orion/workbench/main.py:232-246 | the head is replaced when tagged `orion_bootstrap`, else the message is inserted in front and persisted |
| Pending.SplitsLoop | src/sutradhar/editor.py:1530-1551 | the loop over the written files queues exactly the split follow-ups `SplitsFor` describes, in file order |
| Pending.Session.FinishApply | src/sutradhar/editor.py:1505-1554 | after writing: one commit entry, history and conversation cleared, pending reset, then one split per file over the cap |
| Pending.Session.ApplyAsWritten | src/orion/workbench/main.py:407-538 | as written: any file makes the call raise with nothing changed; an `ok` answer with no files clears the session; an incompatible answer changes nothing |
| Pending.PendingAfterApply | src/orion/workbench/main.py:482-510 | an incompatible answer leaves the pending list; an `ok` answer with files raises on `f.code` before the first write; an `ok` answer without files clears the list |
| Pending.Session.ApplyIntended | src/orion/workbench/main.py:407-538 | with the text read from `contents`: the session is cleared and one split queued per file over the cap |
| Dispatch.SchemaType | src/orion/workbench/tools.py:25-33 | an annotation is advertised as one of the four JSON types, anything unknown as `string` (with `Optional[T]` read as `T`, Findings row 3) |
| Dispatch.BuildParametersSchema | src/orion/workbench/tools.py:36-56 | the loop over the parameters after `ctx` builds the object schema of the parameter list (with `Optional[T]` read as `T`, Findings row 3) |
| Dispatch.PropertiesKeys | src/orion/workbench/tools.py:43-46 | a property exists exactly for each declared parameter, with the schema of its annotation (with `Optional[T]` read as `T`, Findings row 3) |
| Dispatch.RequiredMembers | src/orion/workbench/tools.py:47-48 | a name is required exactly when some parameter with that name has no default |
| Dispatch.SchemaShape | src/orion/workbench/tools.py:36-56 | the schema is a closed object whose properties are the parameters plus `reason_for_call` (a string, never required) and whose `required` list holds the parameters without defaults (with `Optional[T]` read as `T`, Findings row 3) |
| Dispatch.CoerceBool | src/orion/workbench/tools.py:99-103 | a boolean is kept; anything else becomes true exactly when its stripped lower-case text is `1`, `true`, `yes` or `y` |
| Dispatch.CoerceInt | src/orion/workbench/tools.py:95-107 | `int(val)` gives a number when the value converts, and otherwise the value is passed on unchanged |
| Dispatch.CoerceOthers | src/orion/workbench/tools.py:97-108 | a failed `float` keeps the value, `str` always gives a string, any other annotation leaves the value alone |
| Dispatch.SchemaTypeAsWritten | src/orion/workbench/tools.py:25-33 | as written, an `Optional[T]` annotation is advertised as `string`, and every other annotation as the corrected `SchemaType` advertises it |
| Dispatch.CoerceAsWritten | src/orion/workbench/tools.py:89-108 | as written, an `Optional[T]` argument is passed on unchanged, and every other argument is coerced as the corrected `Coerce` does |
| Dispatch.Coerce | src/orion/workbench/tools.py:89-108 | `_coerce_value` with `Optional[T]` read as `T`: integers and booleans coerced from their text, strings by `str`, anything else unchanged |
| Dispatch.CoerceIdempotent | src/orion/workbench/tools.py:89-108 | coercing an already coerced value changes nothing |
| Dispatch.CoerceRoundTrip | src/orion/workbench/tools.py:95-105 | the decimal text of a number and the number coerce to the same integer, and `str` keeps a string |
| Dispatch.BoolTrueSpellings | src/orion/workbench/tools.py:102-103 | `" Yes "` and `1` read as true |
| Dispatch.BoolFalseSpellings | src/orion/workbench/tools.py:102-103 | `"no"` and `2` read as false |
| Dispatch.OptionalNeverUnwrapped | src/orion/workbench/tools.py:28-93 | as written, `Optional[int]` is advertised as `string` and `"40"` is passed on unconverted; with the unwrap it is `integer` and `40` |
| Dispatch.OptionalIsInner | src/orion/workbench/tools.py:27-93 | with the unwrap, `Optional[T]` is advertised and coerced as `T` |
| Dispatch.Payload | src/orion/workbench/tools.py:129-137 | a raised message becomes `_meta_error`, a dictionary is the result itself, any other value sits under `value` |
| Dispatch.RunTool | src/orion/workbench/tools.py:111-137 | `run_tool` never raises and always answers `{reason_for_call, result}` with the stringified reason (with `Optional[T]` read as `T`, Findings row 3) |
| Dispatch.RunToolLoop | src/orion/workbench/tools.py:111-137 | the `kwargs` loop with its early return computes `run_tool`'s answer (with `Optional[T]` read as `T`, Findings row 3) |
| Dispatch.KwargsStopsAt | src/orion/workbench/tools.py:122-128 | once a parameter is missing, the later ones are not looked at |
| Dispatch.KwargsMissing | src/orion/workbench/tools.py:122-128 | the tool is refused exactly when some required parameter is absent, naming the first one |
| Dispatch.KwargsDeclared | src/orion/workbench/tools.py:122-126 | only declared parameters reach the tool, each coerced to its annotation, so `reason_for_call` is stripped (with `Optional[T]` read as `T`, Findings row 3) |
| Dispatch.Kwargs | src/orion/workbench/tools.py:122-128 | the coerced values of the declared parameters that were given, or the name of the first required parameter that is absent (with `Optional[T]` read as `T`, Findings row 3) |
| Dispatch.UnknownToolEchoes | src/orion/workbench/tools.py:113-116 | an unknown name is answered with an error that echoes the arguments |
| Dispatch.MissingRequiredNotInvoked | src/orion/workbench/tools.py:127-128 | a missing required parameter is reported by name and the tool body is never invoked |
| Dispatch.ToolAnswerIsResult | src/orion/workbench/tools.py:129-137 | with every required parameter present, the tool's answer (or its raised message) is the result |
| Dispatch.WorkbenchRouting | src/orion/workbench/main.py:447-461 | the runner answers `{reason_for_call, result}`: registered tools through `run_tool`, the two project-description tools by their handlers, anything else as an unknown tool |
| Dispatch.WorkbenchRunner | src/orion/workbench/main.py:447-461 | a registered tool runs through `run_tool`; the two external-directory tools answer in the `reason_for_call` envelope; any other name is an unknown-tool envelope |
| Dispatch.RegistryRouting | src/orion/orion.py:485-489 | the name-to-function runner answers an unknown name with an error echoing the arguments instead of raising, hands a registered name's function the arguments and passes on its exception uncaught, and raises for a list name (same at src/sutradhar/editor.py:1478-1482) |
| Dispatch.RegistryRunner | src/orion/orion.py:485-489 | only an unhashable name or a registered tool can raise; a name that is not a string is answered `unknown tool` under its `str()` with the arguments echoed |
| Dispatch.WorkbenchCall | src/orion/workbench/main.py:447-461 | the runner as the loop calls it raises exactly for arguments that are not a dictionary (`args.get`) or a list or dictionary name; on a string name it answers as `WorkbenchRunner` does, always in the two-key envelope |
| RepoTools.OrionRegistry | src/orion/orion.py:191-198 | the registry holds exactly the six repository tools (same at src/sutradhar/editor.py:1176-1183) |
| RepoTools.RegistryPathRaises | src/orion/tools.py:24-34 | through the registry runner, `get_file_contents` raises exactly for arguments that are not a dictionary or a `path` that is not a string |
| Cli.ParseArgs | src/orion/workbench/main.py:692-733 | the help scan and the `while i < len(args)` loop compute the parse of the argument list, returning the external directory and root the loop gathered |
| Cli.Parse | src/orion/workbench/main.py:692-733 | help when any word asks for it; otherwise the scan of the words into the external directory and the repository root, or the abort message |
| Cli.SpacedFlagThen | src/orion/workbench/main.py:709-722 | `-e DIR` and `--external-dir DIR` set the external directory to the next word and scanning resumes after it |
| Cli.ScanAppend | src/orion/workbench/main.py:707-733 | the loop over a run of arguments that parses cleanly, then more, continues from the values the first run produced |
| Cli.LastExternalWins | src/orion/workbench/main.py:709-726 | the last external-directory flag wins, in each of its three spellings |
| Cli.PlainKeepsExternal | src/orion/workbench/main.py:727-733 | plain arguments never touch the external directory and never abort |
| Cli.RootIsKept | src/orion/workbench/main.py:730-732 | once a repository root is chosen, later arguments never replace it |
| Cli.FirstPlainIsRoot | src/orion/workbench/main.py:730-732 | the repository root is the first plain argument |
| Cli.HelpAnywhere | src/orion/workbench/main.py:694-701 | `-h` or `--help` anywhere wins over everything else, bad options included |
| Cli.UnknownOptionAborts | src/orion/workbench/main.py:727-729 | without a help flag, an option other than the three spellings aborts, naming it |
| Cli.MissingPathAborts | src/orion/workbench/main.py:709-721 | `-e` or `--external-dir` left without its path aborts with its own message |
| RepoTools.FilterMembers | src/orion/tools.py:18 | the comprehension keeps exactly the listed paths that match, never more than were listed |
| RepoTools.ListPathsContract | src/orion/tools.py:12-19 | at most 2000 paths, each a listed path matching the pattern, in listing order, and all of them when fewer than 2000 match; without a pattern the first 2000 listed (same at src/orion/workbench/tools.py:146-151 and src/sutradhar/tools.py:11-17) |
| RepoTools.ListPaths | src/orion/workbench/tools.py:146-153 | the listing, filtered by a truthy string pattern and cut to 2000 paths; a pattern that is not a string raises once there is a path to test (same at src/orion/tools.py:12-19) |
| RepoTools.ContentsLineCount | src/orion/tools.py:24-31 | a readable file is returned whole, under its normalised path, with its number of lines (same at src/sutradhar/tools.py:20-26) |
| RepoTools.FileContents | src/orion/workbench/tools.py:156-164 | the normalised path, the content and its line count, or `Could not read <path>` when the read fails (same at src/orion/tools.py:24-31) |
| RepoTools.PathArg | src/orion/tools.py:26 | `normalize_path(args.get("path", ""))` raises `TypeError` for a path that is not a string; a missing path is `""` |
| RepoTools.SummaryReply | src/orion/workbench/tools.py:183-195 | the colocated summary with its note, or `no summary available for <path>`, or `summary error for <path>: <error>` (same at src/orion/tools.py:54-68) |
| RepoTools.Clamp | src/orion/tools.py:46-47 | the clamped range starts at 1 or later and ends within the file; a range inside the file is kept |
| RepoTools.Window | src/orion/tools.py:48 | `lines[start - 1 : end]` has `end - start + 1` lines, or none when the range is empty |
| RepoTools.SnippetLines | src/orion/tools.py:36-49 | a range inside the file gives exactly those lines, a start past the end gives none, and never more lines than the range spans (same clamping at src/sutradhar/tools.py:29-41 and src/sutradhar/editor.py:395-413) |
| RepoTools.WorkbenchSnippet | src/orion/workbench/tools.py:167-180 | the file read first, then the start clamped to 1 and the default end `start + 200` taken from the clamped start; bounds that `int` refuses raise |
| RepoTools.OrionSnippet | src/orion/tools.py:36-51 | both bounds converted before the read, the default end `start_line + 200` taken from the start as given, then the range clamped |
| RepoTools.WorkbenchDefaultWindow | src/orion/workbench/tools.py:174-176 | without an end line the workbench shows at most 201 lines from the clamped start |
| RepoTools.DefaultEndDialects | src/orion/tools.py:39-47 | the `args` tools take the default end from the raw start, so start `-500` shows one line where the workbench shows 201 (src/orion/workbench/tools.py:174-175) |
| RepoTools.ScanContract | src/orion/tools.py:78-88 | the scan returns the first hits in listing order, no more than the cap (one when the cap is below one), and all of them when the cap is not reached |
| RepoTools.SearchLoop | src/orion/tools.py:71-89 | the search loop with its `break` computes the search result |
| RepoTools.SearchSound | src/orion/tools.py:71-89 | every reported path is a listed, readable file containing the query in any letter case, at most `max(1, cap)` of them (same scan at src/sutradhar/tools.py:58-75) |
| RepoTools.SearchComplete | src/orion/tools.py:87 | with no cap given, a search finding fewer than 100 files reports every readable file containing the query, in listing order |
| RepoTools.EmptyQueryFindsNothing | src/orion/tools.py:73-75 | an empty or missing query finds nothing |
| RepoTools.SearchCode | src/orion/workbench/tools.py:198-214 | the paths whose content contains the lower-cased query, in listing order, stopping at the limit; an empty query finds nothing (same at src/orion/tools.py:71-89) |
| RepoTools.PromptFallback | src/orion/tools.py:96 | the prompt shown is `prompt`, else `question`, else the default text, and never empty (same at src/sutradhar/tools.py:78-79) |
| RepoTools.OrionTool | src/orion/orion.py:191-198 | the args-dictionary registry: each of the six tool names runs its tool on the arguments, with the arguments echoed; any other name has no tool |
| RepoTools.PathMustBeString | src/orion/tools.py:24-68 | a path argument that is not a string makes `get_file_contents`, `get_file_snippet` and `get_summary` raise `TypeError`; a string or missing path is read after normalisation |
| RepoTools.WorkbenchRegistry | src/orion/workbench/tools.py:144-224 | the workbench registry holds the search and snippet tools with their declared parameters |
| RepoTools.SearchNeedsQuery | src/orion/workbench/tools.py:197-198 | a workbench search without `query` is refused before any file is read |
| RepoTools.PropMapKeys | src/orion/orion.py:94-158 | a definition's properties are exactly the declared ones |
| RepoTools.DefinitionWellFormed | src/orion/orion.py:94-158 | a definition whose required names are declared is a well-formed function tool |
| RepoTools.DefinitionsDistinct | src/orion/orion.py:94-158 | eight tools with distinct names, each well formed |
| Storage.FilledContract | src/orion/context.py:73-91 | after loading, the four keys are present, existing values are kept, missing ones take their defaults, the legacy key is gone and nothing else appears |
| Storage.Filled | src/orion/context.py:73-91 | the metadata with every missing default key added and the legacy key dropped |
| Storage.FilledIdempotent | src/orion/context.py:81-90 | filling twice is filling once |
| Storage.FillDefaults | src/orion/context.py:81-90 | the key-by-key statements compute the filled metadata (same at src/sutradhar/context.py:46-55) |
| Storage.CappedContract | src/orion/context.py:99-105 | a positive cap keeps the last `cap` records in file order; a cap of 0 keeps everything, because `hist[-0:]` is the whole list (same at src/sutradhar/context.py:61-65 and src/sutradhar/editor.py:347-351) |
| Storage.Capped | src/orion/context.py:99-105 | the history records, cut to the last `cap` when there are more |
| Storage.RecordsAppend | src/sutradhar/fs.py:44-64 | an appended record is read back as the last record |
| Storage.Stamped | src/orion/context.py:124-125 | the stored copy has the message's keys plus `ts`, keeps every value, and takes the time only when `ts` was absent |
| Storage.HistoryEntry | src/orion/context.py:108-113 | the entry has `ts`, `role`, `content` and the keys of a truthy `extra`, whose values win (same at src/sutradhar/context.py:67-71) |
| Storage.ReadJsonl | src/sutradhar/fs.py:50-64 | the loop keeps the decodable non-blank lines, in order |
| Storage.Store.constructor | src/orion/context.py:51-56 | the store starts on the two files as they are, with no backups |
| Storage.Store.LoadMetadata | src/orion/context.py:73-91 | loading reads the file, falls back to the defaults when it is absent or undecodable, and fills the missing keys |
| Storage.Store.SaveMetadata | src/orion/context.py:94-96 | saving replaces the metadata file with the encoded dictionary and touches nothing else |
| Storage.Store.LoadHistory | src/orion/context.py:99-105 | the history is the decoded conversation capped to the last entries |
| Storage.Store.AppendHistory | src/orion/context.py:108-113 | one encoded entry is appended to the conversation file |
| Storage.Store.AppendRawMessage | src/orion/context.py:116-126 | an admitted message is appended stamped, anything else raises `ValueError` and changes nothing (the `role` guard at src/sutradhar/context.py:73-82) |
| Storage.Store.ClearHistory | src/orion/context.py:129-133 | an existing conversation is moved to its timestamped backup name; a missing one changes nothing (same at src/sutradhar/context.py:84-87) |
| Storage.LoadAfterSave | src/orion/context.py:73-96 | saving filled metadata and loading it again gives it back unchanged |
| Storage.AppendThenLoad | src/orion/context.py:116-126 | after an append the records read are those read before plus the stamped message |
| Storage.GuardsDiffer | src/orion/context.py:121-123 | the `type` guard and the `role` guard (src/sutradhar/context.py:78-79) each admit a message the other refuses |
| Freshness.WorkbenchLanguage | src/orion/workbench/summarizers.py:22-47 | the suffix is looked up case-insensitively among the code, markup, style and information languages, and an unknown suffix is `info` |
| Freshness.CodeLanguage | src/sutradhar/summarizers.py:48-59 | the older table answers a code language exactly for its eight suffixes and `txt` otherwise (same table at src/sutradhar/editor.py:548-559) |
| Freshness.TablesAgree | src/orion/workbench/summarizers.py:22-47 | where the older table knows a suffix the newer one gives the same language; elsewhere the newer one says markup, style or information |
| Freshness.LanguageExamples | src/orion/workbench/summarizers.py:22-47 | `.TSX` is `tsx` in both tables, no suffix is `info` or `txt`, `.Html` is `html` or `txt` |
| Freshness.SchemaFor | src/orion/workbench/summarizers.py:98-114 | `html`, `css` and `info` each route to their own schema, and every other language to the code schema |
| Freshness.CodeRouting | src/orion/workbench/summarizers.py:98-114 | exactly the suffixes the older table knows are summarized as code |
| Freshness.SummarizeFile | src/orion/workbench/summarizers.py:52-157 | a written summary goes to the colocated path and is the model's answer for the schema the file's language routes to |
| Freshness.SummarizeFileIgnores | src/orion/workbench/summarizers.py:67-84 | an ignored or oversized source is skipped; an ignored target still gets its summary returned, only not written; otherwise a readable file with an answer is summarized (also lines 145-157 of the same file) |
| Freshness.SummarizeCodeFile | src/sutradhar/summarizers.py:62-124 | a summary carries the caller's path and the digest of the text read, and is returned exactly when it is written, to the colocated path |
| Freshness.CodeSummaryOverrides | src/sutradhar/summarizers.py:115-117 | the model's `p` and `b` are replaced and the rest of its answer is kept |
| Freshness.SummarizeProjectDescription | src/orion/workbench/summarizers.py:173-234 | a summary exists exactly when the model answered; it has the six keys, and the caller's file name and hash whatever the model wrote (same at src/sutradhar/summarizers.py:147-192) |
| Freshness.AsWrittenNeverKeeps | src/orion/workbench/summarizers.py:265-282 | as written, with a TTL every call raises or rebuilds: a stored POS is never handed back |
| Freshness.NeedRegen | src/orion/workbench/summarizers.py:253-272 | a POS is rebuilt when it is missing, lacks `h`, `f` or `v`, carries another hash, or has expired under a positive TTL |
| Freshness.Ensure | src/orion/workbench/summarizers.py:242-284 | `ensure_pos` with the clock read where it is needed: no POS for an unreadable PD, the stored POS when it is fresh, else the rebuilt POS stamped with the build time and written under the PD's name |
| Freshness.EnsureAsWritten | src/orion/workbench/summarizers.py:265-282 | `ensure_pos` as written: raises `UnboundLocalError` exactly when the TTL test reaches the clock, and is `Ensure` otherwise (same at src/sutradhar/summarizers.py:223-236) |
| Freshness.TtlCheckCrashes | src/orion/workbench/summarizers.py:271-279 | a POS built 100 seconds ago under a one-hour TTL is kept by the clock-reading version and makes the version as written raise (same at src/sutradhar/summarizers.py:227, 235) |
| Freshness.EnsureContract | src/sutradhar/editor.py:675-716 | an unreadable PD gives nothing, a fresh POS is returned as stored, and a rebuilt one is stored under the PD's name with its name, hash and build time (the same table at src/orion/workbench/summarizers.py:242-284 and src/sutradhar/summarizers.py:198-240) |
| Freshness.EnsureIsLocal | src/sutradhar/editor.py:707-714 | only the PD's own POS file can change |
| Freshness.EnsureReadsOwnFile | src/sutradhar/editor.py:680-705 | the answer for one PD depends on its own POS file only |
| Freshness.EnsureIsStable | src/sutradhar/editor.py:675-716 | ensuring again at the same moment changes nothing: a rebuilt POS passes every test, a kept one still does, a failure repeats |
| Freshness.ExCount | src/orion/workbench/summarizers.py:303 | `len(pos.get("ex", []))` counts the entries, is 0 without a summary or without `ex`, and raises for a value without a length |
| Freshness.AllPos | src/orion/workbench/summarizers.py:293-304 | the sweep: ensure each listed PD in turn and record one head per PD (name, whether it has a summary, how many examples) |
| Freshness.AllPosHeads | src/orion/workbench/summarizers.py:293-304 | one head per PD, in listing order (same loop at src/sutradhar/summarizers.py:243-258) |
| Freshness.AllPosLeavesOthers | src/orion/workbench/summarizers.py:300-304 | a sweep never touches the POS file of a PD it does not list |
| Freshness.AllPosHasSummary | src/orion/workbench/summarizers.py:301-302 | for a listing without repeats, each head says whether ensuring that PD gave a summary |
| Freshness.AsWrittenSweepFails | src/sutradhar/summarizers.py:262 | the older sweep succeeds only for an empty listing, because `os` is not imported there |
| Freshness.SweepAsWritten | src/sutradhar/summarizers.py:243-258 | the older sweep's loop over the `ensure_pos` as written, stopping at the first PD whose TTL test raises |
| Freshness.AllPosAsWritten | src/sutradhar/summarizers.py:243-262 | the older `ensure_all_pos`: the loop, then `NameError` for `os` whenever the listing is non-empty and the loop got through |
| Freshness.PosStore.constructor | src/orion/workbench/summarizers.py:252 | the store starts from the POS files as they are |
| Freshness.PosStore.EnsurePos | src/orion/workbench/summarizers.py:242-284 | the `need_regen` flag set test by test gives the POS and the stored files of the regeneration table |
| Freshness.PosStore.EnsureAllPos | src/orion/workbench/summarizers.py:289-316 | the loop appends one head per PD and leaves the files as the sweep does |

## Left out

- Network transport, HTTP dumps and `time.sleep`: each POST answer is an oracle indexed by POST number, and the jitter factor is a parameter constrained to `[0.5, 1.5)`.
- `json.loads`/`json.dumps`: a codec of two function values; properties that need a round trip say so as a precondition.
- The model's answers in `summarize_file` and `summarize_project_description`: a function of the path, or of the PD name and hash, and of the schema.
- File system, `os.walk`, `stat` and mtime reads: the repository is a set of walked paths, a read function and an optional mtime. The workbench `mkdir` of the external `.orion` directory and the stale-POS scan, which only reads, are not modelled.
- `_safe_abs` and every `resolve()`: symlink resolution is file-system work; paths are taken as repository-relative.
- `fnmatch.fnmatch` and `PurePosixPath.match`: a matcher predicate passed in.
- `str()` of containers and `float()`: functions passed in (`Dispatch.Env`, `Freshness.PdEnv`).
- `str.strip`, `str.lower` and `int()` of text: ASCII blanks, ASCII letters and optionally signed decimal digits. The underscore separators that `int()` accepts (`int("1_000") == 1000`) and non-ASCII digits are not modelled, so such text is read as not a number.
- Fractional JSON numbers: `Json.Value` holds integers only. `int()` truncates a fraction (`_as_int` on token counts, the `line_count` and `version` of the system state, tool arguments coerced to `int`, the snippet bounds), and a pydantic `int` field such as `v`, `lc` or `sz` refuses one; neither case is represented.
- `str.splitlines`: lines end at `\n` only; in `.orionignore` a trailing `\r` is removed with the other blanks of its line.
- Timestamps: `now_ts()` is a whole number of seconds passed in; `short_id` ids are a function of the split number.
- Exception texts: a raised error is a `Result` message. It carries the source's own text where the code builds one, and a fixed text naming the exception otherwise.
- ResponsesLoop.ParseFailure: the decoder's `: {e}` detail is not part of the message, because the codec returns no error text.
- Console output, `input()` in `ask_user` (its answer is a parameter), the REPL `run()` loops, and the help, preview and status commands.
- Configuration, settings, prompts and the sutradhar `main.py`.
- `orion/workbench/fs.py`, `orion/fs.py` and `external.py` are not part of this model; the workbench's `normalize_path`, `count_lines` and ignore rules are taken to be those of `src/sutradhar/fs.py`.
- Reflection (`inspect.signature`, `get_type_hints`, the `@tool` registry): explicit parameter descriptors and a registry map.
- Pydantic's error report: a failed validation carries one description of one failing field, not pydantic's full listing.
- The ensure_all_pos head dictionaries are a `Head` record with the same three fields.
- Pending.Session.FinishApply: requires every written path to name a file, because `with_name` raises otherwise and the write before it has already failed for such a path.
- Storage.CappedContract: a `CONV_CAP_TURNS` of 0 keeps the whole history, which is what `hist[-0:]` does.
- Strictify.Tighten: the corrected transform writes the sorted names only; the `null`s, booleans and numbers of an old `required` list, which `Walk` keeps or fails on as the source does, are dropped so that every output is strict.
- The git helpers, `list_all_nonignored_files` and `run_git`, which run subprocesses.
- The summaries refresh inside `_ensure_bootstrap` and after `:apply` (`_refresh_summaries`), which walks the file system and calls the model.

## Findings

| source | as written | input that shows it | evidently intended | confidence | as-written member | corrected member |
|---|---|---|---|---|---|---|
| src/orion/workbench/client.py:42-56 | `_walk` recurses into every value, including the `properties` map itself, and treats that map as a schema node | `{"properties": {"properties": {}}}`: the map gains `required` and `additionalProperties` entries, so a second pass changes the output and the parent's `required` misses two of its properties | visit each property's schema, not the map that holds them; the transform is then idempotent | not executed | Strictify.WalkNotIdempotent | Strictify.TightenIdempotent |
| src/orion/workbench/main.py:493, 518 | `cmd_apply` reads `f.code`, but `FileContents` names the field `contents` (src/orion/workbench/models.py:103; src/orion/orion.py:520 and 545 read `f.code` too, against a `FileContents` from `orion/models.py`, which is not part of this model) | an `ok` apply answer with one file: `AttributeError` before the first write, so nothing is written, nothing cleared and no split queued | read `f.contents`, as src/sutradhar/editor.py:1505 and 1533 read their `code` key | not executed | Pending.OversizedFileIsNeverSplit | Pending.Session.ApplyIntended |
| src/orion/workbench/tools.py:30, 92 | `getattr(ann, "__origin__") is Optional` never holds, because the origin of `Optional[T]` is `Union` | a parameter `end_line: Optional[int]` is advertised as `string`, and `"40"` reaches the tool unconverted | unwrap `Optional[T]` to `T`: advertise and coerce as `T` | not executed | Dispatch.OptionalNeverUnwrapped | Dispatch.OptionalIsInner |
| src/orion/workbench/summarizers.py:271, 279 | the TTL test calls `now_ts()` before the function-local `from .fs import now_ts`, so `now_ts` is an unbound local there (same at src/sutradhar/summarizers.py:227, 235) | a stored POS with the PD's hash, `_built_ts` 100 and a TTL of 3600: `UnboundLocalError` instead of the POS | read the clock as src/sutradhar/editor.py:704 does; the decision is then a fixed point | not executed | Freshness.TtlCheckCrashes | Freshness.EnsureIsStable |
| src/sutradhar/summarizers.py:262 | `ensure_all_pos` calls `os.scandir`, but the module never imports `os` | any non-empty list of PDs that the loop gets through: `NameError` after every POS has been ensured, so no heads are returned | import `os`, as the workbench copy does; one head per PD in listing order | not executed | Freshness.AsWrittenSweepFails | Freshness.PosStore.EnsureAllPos |
