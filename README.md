# database-agent, modelled in Dafny

The system answers natural-language questions about a SQLite database. The project models its
core and proves properties of it, piece by piece.

**Backend agent.** A LangGraph state machine with the following nodes:

- `extract_question`;
- `call_llm`;
- `call_tools`;
- `review_response`;
- `handle_revision`.

The model decides whether to call one of three database tools:

- `ListTablesTool`;
- `GetSampleRows`;
- `ExecuteQuery`, which rejects unbounded `SELECT`s.

A second model reviews the answer and may send it back for revision.

**Earlier prototype.** The graph without the reviewer, whose `ExecuteQuery` is unguarded.

**Shared tool module.** It adds `GetUniqueColumnValues`, which returns the distinct values of one
text column after a chain of checks.

**HTTP route.** It turns the frontend's wire messages into the agent's messages. It then streams
the final answer as server-sent `text-delta` events, word by word, closed by `[DONE]`.

**Frontend chat store.** Chats and messages, updated in place.

**Frontend chat service.** It reads that stream back into text fragments. When the backend is
unreachable, it falls back to a canned demo responder.

## How the model is organised

| file | module | what it holds |
|---|---|---|
| `wrappers.dfy` | `Wrappers` | `Option` and `Result` |
| `text.dfy` | `Text` | the string primitives the source calls, with their laws |
| `messages.dfy` | `Messages` | the agent's messages and tool calls, and the database driver's type |
| `tool_loop.dfy` | `ToolLoop` | the `call_tools` loop shared by both graphs |
| `agent.dfy` | `Agent` | the guarded tools, the agent state, its five nodes and two routers |
| `agent_graph.dfy` | `AgentGraph` | the compiled graph: one step, runs, and the invariants of a run |
| `agent_prototype.dfy` | `Prototype` | the prototype graph |
| `db_tools.dfy` | `DbTools` | the shared tool module |
| `langgraph_route.dfy` | `LanggraphRoute` | message conversion, and the choice and streaming of the answer |
| `chat_store.dfy` | `ChatStore` | the chat store, as a class |
| `chat_service.dfy` | `ChatService` | stream reading, the demo responder, and the service class |

**Modelling choices**

- **Oracles.** Every component outside the code is a parameter of the functions that use it:
  - the language models' replies;
  - the reviewer's text;
  - the database driver (`db.run_no_throw`), a function from statement and
    `include_columns` to text;
  - Python's `ast.literal_eval`;
  - the repository's `is_query_risky`;
  - `JSON.parse`.

  "The database is not consulted" is then stated as: the result is the same for any two drivers.
- **Tools.** `AgentGraph` takes the tool invocation as a parameter. The agent runs it with
  `Agent.Invoker(db)`, its three guarded tools over a driver, so the graph's properties hold for
  any tool set.
- **Merging state.** A graph node returns a patch. `Agent.Apply` merges it into the state the way
  LangGraph does: messages are appended, other keys are overwritten.
- **Loops.** Loops in the source are methods, each proved equal to a specification function:
  - `ToolLoop.ResolveToolCalls`;
  - `LanggraphRoute.ConvertToLangchainMessages`, with its inner loops `ConvertUserParts` and
    `ConvertToolResults`;
  - `LanggraphRoute.SelectFinalResponse`;
  - `LanggraphRoute.EmitDeltas`;
  - `ChatService.HandleLines`;
  - `ChatService.ReadStream`;
  - `ChatService.ChunkWords`.
- **Chat store.** `ChatStore.Store` is a class whose methods update its two fields, the chats and
  the current chat id. Each method's contract gives the new state as a specification function of
  the old state.
- **Chat service.** `ChatService.Service` holds the offline flag. Its `StreamChat` sets the flag
  when the backend cannot be reached.

**Where the code and the documented design differ, the model follows the code**

- **No retry bound.** The graph has none: a reviewer that always asks for revision keeps the
  agent looping (`AgentGraph.RevisionLoopUnbounded`).
- **`show_query` via HTTP.** The route never passes `show_query` in the graph configuration, so
  a conversation that arrives over HTTP always has `show_query` false.
- **The formatted response.** The formatted response with the query is computed but never
  streamed: the route streams the content of the last plain assistant message.
- **Deleting the only chat.** This leaves the store empty when that chat is not the current one
  (`ChatStore.DeleteOnlyChatNotCurrent`). Deleting the current chat always leaves at least one
  chat (`ChatStore.DeleteKeepsValid`).

## Model

| member | source | states |
|---|---|---|
| Agent.ListTables | backend/agent.py:29-43 | The tool never returns empty text. It returns the driver's listing whenever that is non-empty, and otherwise "No tables found." |
| Agent.SampleRowsBracketsTable | backend/agent.py:47-64 | The sample query names the table inside square brackets and asks for two rows. |
| Agent.IsRiskyIgnoresCase | backend/agent.py:77-85 | The guard's verdict does not change when the statement is upper-cased or lower-cased. |
| Agent.NotSelectNeverRisky | backend/agent.py:77-92 | A statement that does not start with SELECT after stripping and upper-casing is never rejected. It reaches the driver unchanged. |
| Agent.KeywordMakesSafe | backend/agent.py:77-85 | A statement is never rejected if its upper-cased text contains LIMIT, COUNT(, SUM(, AVG( or GROUP BY. |
| Agent.ExecuteQueryGuards | backend/agent.py:68-94 | A risky statement gets the fixed rejection whatever the driver would answer, so the database is not consulted. A safe statement gets exactly the driver's answer. |
| Agent.UnboundedSelectIsRisky | backend/agent.py:77-85 | A statement that starts with SELECT and whose upper-cased text has no `I`, `(` or `Y` cannot contain a bounding keyword, so it is rejected. |
| Agent.BareSelectIsRisky | backend/agent.py:77-92 | An unbounded `SELECT * FROM orders` is rejected. |
| Agent.LowerCaseLimitIsSafe | backend/agent.py:77-85 | A lower-case `limit` counts as a bound, because the guard upper-cases first. |
| Agent.CountIsSafe | backend/agent.py:77-85 | An aggregate `COUNT(*)` query passes the guard. |
| Agent.ExtractUserQuestion | backend/agent.py:280-287 | The question is the first message's content when that message is a human message, and empty otherwise. `show_query` is true only when the configuration says so. Messages are unchanged. |
| Agent.CallLlmThenRoute | backend/agent.py:150-184 | The reply is appended. `llm_response` is the reply text only when there are no tool calls. The answer is never final yet. The router goes to `call_tools` exactly when the reply has tool calls and to `review_response` exactly when it has none. The query and its result are untouched. |
| Agent.CallToolsWithoutCalls | backend/agent.py:187-191 | With any set of tools, when the last message has no tool calls, the node changes nothing. |
| Agent.CallToolsSucceeds | backend/agent.py:195-198 | With any set of tools, the node completes exactly when every tool call completes. |
| Agent.BoundToolCompletes | backend/agent.py:195-197 | With the agent's three tools, a call completes exactly when it is `ListTablesTool`, or `GetSampleRows` or `ExecuteQuery` carrying its argument. |
| Agent.InvokeExecuteQuery | backend/agent.py:98-99 | An `ExecuteQuery` call with its argument is answered by the guarded tool applied to that statement. |
| Agent.CallToolsAnswers | backend/agent.py:187-207 | With any set of tools, the node appends one tool message per call, in order, each answering its call's id with what the tool returned for it. A batch without `ExecuteQuery` keeps the executed query and result. Otherwise they are the last `ExecuteQuery` call's statement and its tool message. |
| Agent.CallToolsResolvesEveryCall | backend/agent.py:187-207 | With the agent's tools, one tool message per call is appended, each answering its call. After an `ExecuteQuery` call, the recorded statement is that call's and the recorded result is the guarded answer to it. |
| Agent.WithQueryShowsBoth | backend/agent.py:245-252 | The formatted response starts with the answer and contains the SQL text. |
| Agent.ReviewDecides | backend/agent.py:210-261 | With no query and a non-empty answer, the reviewer's text is ignored and the answer is approved. Otherwise revision is needed exactly when the review contains NEEDS_REVISION. An approved answer is final and becomes the approved response. Its formatted form carries the query exactly when `show_query` is set and a query ran. A rejected answer leaves both empty. |
| Agent.RevisionCarriesFeedback | backend/agent.py:264-277 | One human message is appended that contains the review feedback. The revision and final flags are cleared, and the next router step is not a revision. |
| Agent.RoutersFollowEdges | backend/agent.py:318-335 | Both routers only choose targets that the graph declares for their node. |
| AgentGraph.Step | backend/agent.py:309-336 | One step moves along a declared edge. `call_llm` never goes straight to END. Only `call_tools` can fail, on an unknown tool or a missing argument. |
| AgentGraph.StepInv | backend/agent.py:309-336 | Every step keeps the run invariant. Every tool call added since the start is answered by its tool messages, except the calls `call_tools` is about to run. Review and END see a plain assistant reply whose text is `llm_response`. END is reached only with an approved, final answer. |
| AgentGraph.RunInv | backend/agent.py:309-336 | The run invariant holds after any number of steps. |
| AgentGraph.FinishedRunIsAnswered | backend/agent.py:309-336 | A run that reaches END extends the input history and ends with an assistant message without tool calls. That message is the approved, final response. Every tool call issued during the run has its tool messages. |
| AgentGraph.StepKeepsHistory | backend/agent.py:136-147 | No step removes or rewrites a message: the history after a step begins with the history before it. |
| AgentGraph.RunKeepsHistory | backend/agent.py:136-147 | Messages are only ever appended: a run's history begins with the history it started from. |
| AgentGraph.CallToolsAppendsAnswers | backend/agent.py:195-206 | The tool messages are appended after the history, and they answer the last message's tool calls. |
| AgentGraph.OneRound | backend/agent.py:329-335 | A rejected review, the revision request and a plain reply bring the graph back to `review_response` with two more messages and the same executed statement. |
| AgentGraph.RevisionLoopUnbounded | backend/agent.py:329-335 | Suppose the reviewer always asks for revision after a query has run. Then for every n the graph comes back to `review_response` after n rounds, with 2n more messages. Nothing bounds the retries. |
| Prototype.ListTables | backend/prototyping/agent_prototype.py:33-45 | The tool returns the `sqlite_master` listing when it is non-empty, and otherwise "No tables found." |
| Prototype.ExecuteQueryUnguarded | backend/prototyping/agent_prototype.py:72-82 | Any `ExecuteQuery` call carrying a statement, whatever its id and other arguments, is answered with the driver's text for that statement, unchanged. |
| Prototype.ExtractUserQuestion | backend/prototyping/agent_prototype.py:150-157 | The question is the first message's content when that message is a human message, and empty otherwise. Nothing else changes. |
| Prototype.CallLlmThenRoute | backend/prototyping/agent_prototype.py:160-167 | After the model's reply, the graph goes to `call_tools` exactly when the reply has tool calls and to END exactly when it has none. |
| Prototype.CallToolsWithoutCalls | backend/prototyping/agent_prototype.py:123-128 | When the last message has no tool calls, the state is returned unchanged. |
| Prototype.CallToolsResolvesEveryCall | backend/prototyping/agent_prototype.py:123-147 | One tool message per call is appended, in order. The last `ExecuteQuery` call is recorded together with the driver's unguarded answer to it. |
| Prototype.CycleAvoidsEnds | backend/prototyping/agent_prototype.py:171-191 | No cycle of the graph passes through the entry node or END. |
| Prototype.OnlyCycleIsToolLoop | backend/prototyping/agent_prototype.py:171-191 | Every cycle alternates between `call_llm` and `call_tools`. |
| Prototype.EntryThenModel | backend/prototyping/agent_prototype.py:180-181 | The entry node leads only to `call_llm`. |
| ToolLoop.Dispatch | backend/agent.py:195-197 | An unknown tool name fails with an unknown-tool error, and only an unknown name does. `ExecuteQuery` with its argument runs that statement. `ListTablesTool` returns the listing. |
| ToolLoop.ResolveToolCalls | backend/agent.py:192-202 | The loop produces what the fold over the calls specifies. |
| ToolLoop.ResolveSucceeds | backend/agent.py:195-198 | The loop completes exactly when every call completes. |
| ToolLoop.ResolveAnswers | backend/agent.py:195-198 | The loop appends one result per call, in order. Each result answers its call with the text that the call's invocation returned. |
| ToolLoop.ResolveTracksLast | backend/agent.py:199-202 | Without an `ExecuteQuery` call, the tracked query and result are unchanged. Otherwise they are the last such call's statement and tool message. |
| DbTools.ListTables | backend/tools/db_tools.py:10-22 | The tool returns the listing when it is non-empty, and otherwise "No tables found." |
| DbTools.SampleRowsNamesTable | backend/tools/db_tools.py:25-46 | The sample query names the table as given, without brackets, and asks for two rows. |
| DbTools.GuardSwitchedOff | backend/tools/db_tools.py:119-147 | Every statement reaches the driver. Where the agent's guard would reject a statement, this tool returns the driver's answer instead. |
| DbTools.Matching | backend/tools/db_tools.py:84 | The filter succeeds exactly when every row has a name field. Its rows are then exactly the rows whose name is the column. |
| DbTools.FirstFields | backend/tools/db_tools.py:113 | Taking first fields succeeds exactly when no row is empty. It then yields each row's first field, in order. |
| DbTools.EmptyIsNotIdentifier | backend/tools/db_tools.py:63-64 | The empty column name fails the identifier check. |
| DbTools.InvalidColumnFirst | backend/tools/db_tools.py:63-64 | A column name that is not an identifier is refused before anything else, whatever the database or parser. |
| DbTools.RiskyInfoQueryRejected | backend/tools/db_tools.py:66-72 | A `PRAGMA` query judged risky is rejected without consulting the database. |
| DbTools.UnparsableInfo | backend/tools/db_tools.py:74-81 | When the column information cannot be parsed, the tool reports that it failed to retrieve it. |
| DbTools.AbsentColumn | backend/tools/db_tools.py:84-88 | When no row names the column, the tool reports that the column does not exist in the table. |
| DbTools.NoMatchingRow | backend/tools/db_tools.py:84-85 | With no row naming the column, the filter is empty. |
| DbTools.MatchingKeepsOrder | backend/tools/db_tools.py:84-90 | The type checked is the type of the first row that names the column. |
| DbTools.TextTypeIgnoresCase | backend/tools/db_tools.py:90-91 | A column counts as text when its lower-cased declared type is one of the six text types. Upper-casing the type changes nothing. |
| DbTools.TypeFieldKinds | backend/tools/db_tools.py:90-91 | A `bytes` type field is not a text type; a type field that is neither `str` nor `bytes` raises, and only such a field does. |
| DbTools.NonTextColumn | backend/tools/db_tools.py:84-94 | When the first row naming the column declares a type that is not a text type, the tool answers "Column '<c>' is not of a TEXT type and cannot be used." and runs no further statement. |
| DbTools.ValuesOnlyWhenValidated | backend/tools/db_tools.py:63-116 | Values are returned only after every check has passed. They are then what the distinct-values fetch gives. |
| DbTools.ColumnInfoValues | backend/tools/db_tools.py:84-98 | Values come back only for an existing column whose first matching row has a text type. |
| DbTools.FetchedValues | backend/tools/db_tools.py:96-116 | Returned values imply that the distinct query was judged safe and its result parsed. The values are that result's first fields, one per row, in order. |
| DbTools.ValidatedFetchesDistinct | backend/tools/db_tools.py:96-116 | Once validated, a risky distinct query is rejected, an unparsable result is reported as a failure, and an empty result gives no values. |
| DbTools.OnlyTwoStatements | backend/tools/db_tools.py:66-116 | The outcome depends on the database only through the `PRAGMA` query and the distinct query. |
| LanggraphRoute.ConvertToLangchainMessages | backend/add_langgraph_route.py:93-132 | The loop produces what the per-message conversion specifies. |
| LanggraphRoute.ConvertUserParts | backend/add_langgraph_route.py:100-107 | The loop over a user message's parts yields the specified content items. |
| LanggraphRoute.ConvertToolResults | backend/add_langgraph_route.py:124-131 | The loop over a tool message's results yields one tool message per result, as specified. |
| LanggraphRoute.ConvertAppend | backend/add_langgraph_route.py:96-132 | Conversion is message by message: converting a concatenation gives the concatenation of the two conversions. |
| LanggraphRoute.ConvertLength | backend/add_langgraph_route.py:96-132 | Each wire message yields one agent message, except a tool message, which yields one per result. |
| LanggraphRoute.UserItemsWithoutFiles | backend/add_langgraph_route.py:100-107 | User text and image parts become one content item each, in order. File parts are dropped. |
| LanggraphRoute.AssistantCallsAppend | backend/add_langgraph_route.py:108-123 | The text parts and the tool-call parts of an assistant message are collected separately, in order. |
| LanggraphRoute.AssistantHasCalls | backend/add_langgraph_route.py:114-122 | The converted assistant message has tool calls exactly when some part is a tool call. |
| LanggraphRoute.ToolResultsConverted | backend/add_langgraph_route.py:124-131 | Each tool result becomes one tool message with its text and call id. |
| LanggraphRoute.SelectFinalResponse | backend/add_langgraph_route.py:164-171 | The update loop produces the specified final response. |
| LanggraphRoute.FinalResponseIsLastQualifying | backend/add_langgraph_route.py:164-171 | The final response is the content of the last update whose last message is non-empty and has no tool calls. It is empty when there is no such update. |
| LanggraphRoute.FinalResponseTruthy | backend/add_langgraph_route.py:166-173 | The answer is non-empty exactly when some update qualifies. |
| LanggraphRoute.EmitDeltas | backend/add_langgraph_route.py:173-182 | The loop emits one delta per word, which the spacing rule specifies. |
| LanggraphRoute.DeltaTextsOfDeltas | backend/add_langgraph_route.py:174-179 | The delta texts are the words, each followed by a space except the last. |
| LanggraphRoute.StreamEndsWithDone | backend/add_langgraph_route.py:151-195 | On every path, success or exception, the stream is deltas closed by exactly one `[DONE]`. |
| LanggraphRoute.ErrorPath | backend/add_langgraph_route.py:192-195 | An exception gives one "Error: ..." delta and `[DONE]`. |
| LanggraphRoute.FallbackWhenNoAnswer | backend/add_langgraph_route.py:183-190 | With no qualifying update, the stream is the "No response was generated" delta and `[DONE]`. |
| LanggraphRoute.StreamReconstructsAnswer | backend/add_langgraph_route.py:173-182 | Joining the deltas gives the answer's words separated by single spaces. Splitting that text into words gives the answer's words back. |
| LanggraphRoute.BlankAnswerStreamsNothing | backend/add_langgraph_route.py:173-190 | A non-empty answer made only of whitespace streams no delta at all, only `[DONE]`. |
| ChatStore.FirstWithKey | frontend/src/stores/chat.ts:90 | `findIndex` on a key: the first element whose key is the id, or a report that no element has it. |
| ChatStore.ChatIndex | frontend/src/stores/chat.ts:90 | The lookup gives the first chat with the id, or reports that no chat has it. |
| ChatStore.MessageIndex | frontend/src/stores/chat.ts:143 | The lookup gives the first message with the id, or reports that no message has it. |
| ChatStore.Store.CurrentChat | frontend/src/stores/chat.ts:63-65 | The current chat exists exactly when the current id names a chat, and it is a chat with that id. |
| ChatStore.Store.constructor | frontend/src/stores/chat.ts:211-217 | The store starts from the saved chats and the saved current id, where an empty id means none. It always holds a chat. |
| ChatStore.LoadedHasAChat | frontend/src/stores/chat.ts:26-51 | Saved chats are kept as they are. With no saved chats, one "New Chat" is created and made current. |
| ChatStore.Store.CreateNewChat | frontend/src/stores/chat.ts:69-82 | The new state is the specified one, and the returned chat is an empty "New Chat" with the given id. |
| ChatStore.CreateNewChatInFront | frontend/src/stores/chat.ts:69-82 | The new chat goes in front of the others, unchanged chats follow it, and it becomes current. |
| ChatStore.Store.SelectChat | frontend/src/stores/chat.ts:84-87 | The new state is the specified one. |
| ChatStore.SelectExistingChat | frontend/src/stores/chat.ts:84-87 | Selecting an existing chat leaves the chats alone and makes the current id valid. |
| ChatStore.Store.DeleteChat | frontend/src/stores/chat.ts:89-102 | The new state is the specified one. |
| ChatStore.DeleteUnknownChat | frontend/src/stores/chat.ts:90-91 | Deleting an id that no chat has changes nothing. |
| ChatStore.DeleteOtherChat | frontend/src/stores/chat.ts:89-102 | Deleting a chat that is not current removes exactly its first occurrence and keeps the current id. |
| ChatStore.DeleteCurrentChat | frontend/src/stores/chat.ts:94-99 | After the current chat is deleted, the first remaining chat becomes current. When none remain, a fresh "New Chat" is created and made current. |
| ChatStore.DeleteKeepsValid | frontend/src/stores/chat.ts:89-102 | When the current id names a chat, it still does after any delete, and the store is not empty. |
| ChatStore.DeleteOnlyChatNotCurrent | frontend/src/stores/chat.ts:94-99 | Deleting the only chat while it is not current leaves no chat at all. |
| ChatStore.Store.AddMessage | frontend/src/stores/chat.ts:104-124 | The new state is the specified one. A message is returned exactly when the chat exists, and it is the given message with the new id. |
| ChatStore.AddMessageAppends | frontend/src/stores/chat.ts:104-124 | The message is appended to that chat only. Other chats and the current id are untouched. The title changes only when this is the chat's first message and it is the user's. |
| ChatStore.TitleRule | frontend/src/stores/chat.ts:118-120 | Lengths are JavaScript's, in UTF-16 code units. A title is the content when it has at most 50 code units. Otherwise it is the longest prefix that fits in 50 code units followed by "..."; for text inside the Basic Multilingual Plane, the first 50 characters. |
| ChatStore.Store.EditMessage | frontend/src/stores/chat.ts:126-199 | The new state is the specified edit of one message. |
| ChatStore.Store.UpdateMessage | frontend/src/stores/chat.ts:126-137 | The message gets the new content and leaves editing mode. |
| ChatStore.Store.StartMessageEditing | frontend/src/stores/chat.ts:151-159 | The message enters editing mode. |
| ChatStore.Store.CancelMessageEditing | frontend/src/stores/chat.ts:160-168 | The message leaves editing mode. |
| ChatStore.Store.UpdateLoadingMessage | frontend/src/stores/chat.ts:188-199 | The message gets its content and stops loading. |
| ChatStore.EditChangesOneMessage | frontend/src/stores/chat.ts:126-199 | An edit changes only the first message with the id, in the first chat with the id. An unknown chat or message changes nothing. |
| ChatStore.EditEffects | frontend/src/stores/chat.ts:126-199 | Each kind of edit sets exactly the fields the source sets and keeps the id, the role and the other flag. |
| ChatStore.Store.DeleteMessage | frontend/src/stores/chat.ts:139-149 | The new state is the specified removal. |
| ChatStore.Store.RemoveLoadingMessage | frontend/src/stores/chat.ts:201-210 | The loading message is removed exactly as `deleteMessage` would remove it. |
| ChatStore.RemoveMessageExactly | frontend/src/stores/chat.ts:139-149 | The first message with the id is removed from the first chat with the id, and nothing else changes. An unknown chat or message changes nothing. |
| ChatStore.Store.AddLoadingMessage | frontend/src/stores/chat.ts:170-186 | The new state is the specified one. A message is returned exactly when the chat exists. |
| ChatStore.AddLoadingAppends | frontend/src/stores/chat.ts:170-186 | An empty assistant message marked loading is appended to that chat only, and the title is kept. |
| ChatStore.MessageOpsKeepValid | frontend/src/stores/chat.ts:104-210 | No message operation can make the current id dangle. |
| ChatService.HandleLines | frontend/src/services/chat.ts:67-84 | The line loop yields the fragments the line scan specifies, and says whether `[DONE]` was met. |
| ChatService.ReadStream | frontend/src/services/chat.ts:59-85 | The buffered read loop yields exactly the fragments of the complete lines of the concatenated chunks, up to `[DONE]`, and reports whether `[DONE]` was met. |
| ChatService.BufferedLines | frontend/src/services/chat.ts:64-66 | Each chunk adds exactly the lines it completes, and the buffer holds the unfinished rest. |
| ChatService.BufferHasNoNewline | frontend/src/services/chat.ts:65-66 | The buffer never holds a newline. The complete lines, with the buffer, rebuild the text read so far. |
| ChatService.FinishedStreamIgnoresRest | frontend/src/services/chat.ts:71-73 | Once `[DONE]` has been read, later chunks add nothing, and the whole stream counts as finished. |
| ChatService.DoneEndsStream | frontend/src/services/chat.ts:71-73 | Lines after `[DONE]` are never read. |
| ChatService.UnfinishedLineIgnored | frontend/src/services/chat.ts:61-66 | A last line without a newline yields nothing. |
| ChatService.DeltaLineYields | frontend/src/services/chat.ts:69-78 | A data line whose JSON is a text-delta with non-empty text yields exactly that text. |
| ChatService.SkippedLine | frontend/src/services/chat.ts:74-82 | A data line that fails to parse, is not a text-delta, or has no text yields nothing. |
| ChatService.SkippedLinesChangeNothing | frontend/src/services/chat.ts:74-82 | Such a line can be removed from the stream without changing what it yields. |
| ChatService.DataLineNotBlank | frontend/src/services/chat.ts:68-69 | A line that starts with `data: ` is never skipped as blank. |
| ChatService.FragmentsComeFromDeltas | frontend/src/services/chat.ts:67-84 | Every fragment is non-empty and is the delta that some line carried. |
| ChatService.Service.constructor | frontend/src/services/chat.ts:12-14 | A new service starts online. |
| ChatService.Service.SetOfflineMode | frontend/src/services/chat.ts:159-161 | The offline flag becomes the given value. |
| ChatService.Service.StreamChat | frontend/src/services/chat.ts:21-100 | In offline mode, the demo reply is given. A delivered response is read as a stream. When the backend cannot be reached, the service switches to offline mode and gives the demo reply. A failure before the body is read is raised with nothing yielded. When the reader fails midway, the fragments of the lines read so far stay yielded; unless `[DONE]` had already ended the stream, the error is then raised, or, for a TypeError about fetch, offline mode is switched on and the demo reply follows. |
| ChatService.TopicPriority | frontend/src/services/chat.ts:109-145 | The demo topic is tables when the query mentions table or schema. Otherwise it is count for count or "how many", otherwise samples for sample or example, otherwise the fallback. Each case is an exact if-and-only-if. |
| ChatService.TopicIgnoresCase | frontend/src/services/chat.ts:105-106 | Upper- or lower-casing the last message keeps the topic, and so does replacing every message before it. |
| ChatService.NoMessagesFallback | frontend/src/services/chat.ts:105-106 | With no messages, the query is empty, the topic is the fallback, and the echoed question reads "undefined". |
| ChatService.QuerySectionShowsQuery | frontend/src/services/chat.ts:147-149 | Any reply followed by the SQL section contains the statement. |
| ChatService.QuerySectionWhenAsked | frontend/src/services/chat.ts:147-149 | The reply carries the topic's demo SQL exactly when `showQuery` is set. |
| ChatService.DemoChunksRebuildReply | frontend/src/services/chat.ts:151-157 | The demo chunks concatenate to the reply. There is one chunk per space-separated piece, and every chunk but the last ends with a space. |
| ChatService.ChunkWords | frontend/src/services/chat.ts:151-157 | The chunk loop yields each space-separated piece with the space restored. |
| ChatService.DemoStream | frontend/src/services/chat.ts:101-158 | The demo responder yields the chunks of the reply for the last message. |

## Left out

- **LangGraph runtime.** Scheduling, checkpointing and the `updates` stream are not modelled. Message merging is modelled as appending: the id-based replacement of `add_messages` is left out.
- **Tool-call validation.** Argument checking by the tool-call schema is reduced to checking that the named argument is present.
- **Serialisation and rendering.** Neither of the following is modelled:
  - the JSON encoding of the stream's frames and of the request body;
  - `str()` applied to non-text tool results and tool messages.
- **Character handling.**
  - Case mapping and `isidentifier` are ASCII only: JavaScript's `toLowerCase` and Python's `upper` also map non-ASCII letters.
  - Python's and JavaScript's whitespace sets are each modelled by the characters they include.
  - Text is a sequence of Unicode characters, which is how Python counts. The chat title is the one place where JavaScript's `length` and `slice` are used on text that may leave the Basic Multilingual Plane; there they are modelled in UTF-16 code units (`ChatStore.JsLength`, `ChatStore.JsSlice`).
- **Oracles.** The language models, the reviewer model, the SQLite driver, `ast.literal_eval`, `is_query_risky` and `JSON.parse` are parameters, not definitions.
- **Unused argument.** The `schema_name` argument of `GetUniqueColumnValues` is accepted and ignored, as in the source.
- **Prompts.** The system prompts and the review prompt are not modelled. The model's and the reviewer's replies are parameters, so the prompts' wording does not matter to any contract.
- **Not modelled in the chat store.**
  - timestamps;
  - `updatedAt`;
  - `localStorage` writes, and load failures;
  - random id generation (ids are parameters);
  - object aliasing between the store and its callers (chats and messages are values).
- **Not modelled in the chat service.**
  - `fetch`, the body reader and `TextDecoder`: the transport is a parameter, a list of decoded chunks, or unreachable, or failed;
  - `testConnection` and the connection status, since they depend on the network and timers;
  - the demo responder's delays;
  - `setShowQuery` / `getShowQuery` and the `show_query` field of the request.
- ChatStore.TitleFor: when the 50th UTF-16 code unit is the first half of a surrogate pair, JavaScript's title keeps that lone high surrogate; a Dafny `char` cannot hold one, so the model drops the whole character there.
- ChatService.LineActionOf: a truthy `textDelta` that is not a string is outside the model, which parses `textDelta` as text.
- LanggraphRoute.GenerateSse: an exception raised after some deltas were sent is not modelled. The graph's exception is taken to happen before any delta.
- **HTTP handler.** Request validation by the web framework and the `OPTIONS` handler are not modelled.
