# CafeAgentX orchestration, modelled in Dafny

CafeAgentX is a multi-agent chat assistant for a cafe. One chat turn runs
through these stages:

1. **Intake.** An intake agent asks a structured-output model to split the user's
   message into *assignments* (`{agent, command, result, finish}`). It validates the
   agent names against the registry and picks a direct reply from the assignments
   flagged `finish`.
2. **Routing.** A router either ends the run (the sentinel agent `END`) or fans out
   to every assigned agent.
3. **Handlers.** Two handlers run: the knowledge bot (`landscape_cafe_bot`, retrieval
   plus a chat model) and the database agent (`coffee_db_agent`, a chat model writes
   SQL for SQLite). Each reads the command of the first assignment addressed to it
   and writes its result into every assignment addressed to it.
4. **Aggregation.** An aggregator waits until every result is present. It then
   passes a single result through, summarises a single database result, or
   summarises all results together.
5. **Chat bookkeeping.** The chat entry point checks the API key and the message,
   runs the workflow, picks the reply or a fallback, and appends the turn to a
   history capped at 20 messages.

The repository has two generations of most agents:

- top-level modules `AG00`–`AG03` together with `core.py`;
- the `agents/` package together with `main.py`.

Both generations are modelled. Shared behaviour is defined once:

- `SqlExtraction`: SQL extraction and the `NO_SQL` guard;
- `LogFormat`: log clean-up;
- `Assignments`: the first-match and write-back walks;
- `ChatTurn`: the chat guards and the history cap.

The model is built as follows:

- **External calls are function parameters.** The chat models, the structured
  classifier, the retriever, the SQL runner and the whole workflow run each return
  a value or fail with the exception's text (`Ports`, `ChatTurn.Workflow`).
- **Formatting and timestamps are parameters.** Python's `repr`/`str` of lists and
  pandas' table rendering are the `Show` parameter. Timestamps are the `now`
  parameter.
- **In-place updates stay in place.** Handlers that mutate the shared assignment
  dicts are methods over an `array<Assignment>`. `core.py`'s `chat`, which appends
  to the caller's list, is a method that `modifies` a `ChatHistory` object.
  `main.py`'s `chat` only reads it.
- **Loops stay loops.** The loops of the source are methods with loop invariants,
  proved against specification functions:
  - first match and write-back;
  - validation;
  - choosing the final response;
  - collecting the agent outputs;
  - building the prompt with `+=`.
- **Pure code stays pure.** Pure logic is functions and lemmas: routing, SQL
  extraction, `format_logs`, the history cap, and the AG01/AG02 `process` bodies
  (which have no loops).

## Model

| member | source | states |
|---|---|---|
| Router.IntakeRouter | workflows/router.py:7-14 | With an `END` assignment anywhere the route is exactly `["finish"]`. Otherwise it is every agent name in assignment order, same length, duplicates kept. `END` is never a route. A missing `assigned_agents` counts as empty. The router in `core.py` makes the same decision. |
| Router.RouteOfNothing | workflows/router.py:8-14 | A missing or empty assignment list routes to `[]`. |
| Router.RouteDependsOnlyOnAgents | workflows/router.py:9-12 | Only the `agent` fields matter. Lists with the same names route alike, whatever their command, result and finish. |
| Router.RouteUnchangedByWriteBack | workflows/router.py:9-14 | A handler's result write-back never changes the route. |
| Router.RouteTargetsAreAssigned | workflows/router.py:9-14 | Unless the run finishes, a name is a fan-out target exactly when some assignment carries it. |
| Assignments.AgentNames | workflows/router.py:9 | One name per assignment, in order. |
| Assignments.FirstCommand | agents/cafe_bot.py:19-23 | The command of an assignment addressed to the agent with none before it, or `""` when there is none. |
| Assignments.FindFirstCommand | core.py:55-59 | The first-match loop with its `break` returns exactly `FirstCommand` of the shared list. |
| Assignments.FirstCommandAt | core.py:69-73 | When entry `i` is the first addressed to the agent, the question is its command. |
| Assignments.WithResult | core.py:62-64 | Same length; every assignment addressed to the agent gets the result; every other assignment is unchanged. |
| Assignments.WriteResult | core.py:76-78 | The in-place write-back loop leaves the array equal to `WithResult` of its old contents. |
| Assignments.WithResultKeepsRouting | agents/database_agent.py:111-113 | Writing results changes no agent name, no command and no finish flag, so the first command of the agent is kept too. |
| Assignments.WithResultIdempotent | agents/cafe_bot.py:45-47 | Writing the same result twice equals writing it once. |
| Intake.BuildMessages | agents/intake_agent.py:11-19 | The stripped system prompt if non-empty, then the history verbatim, then the stripped user message if non-empty. The emptiness tests use the unstripped text. The older intake agent builds the same list. |
| Intake.AgentCapabilitiesLines | agents/intake_agent.py:29-31 | When no name or capability contains a line break, the capability text reads back as one `- name: capability` line per registry entry, in order. An empty registry gives `""`. |
| Intake.AgentCapabilities | AG00_intake_agent.py:28-30 | No ensures of its own: `"\n".join` of one `- name: capability` line per registry entry, in registry order. The same text is built at agents/intake_agent.py:29-31. Its read-back is stated by `Intake.AgentCapabilitiesLines`. |
| Intake.UnknownAgentLines | agents/intake_agent.py:21-27 | At most one report line per assignment. |
| Intake.UnknownAgentLinesEmpty | agents/intake_agent.py:21-27 | The report is empty iff every agent is a registry key. |
| Intake.UnknownAgentLinesComplete | agents/intake_agent.py:21-27 | Every unknown agent has its line in the report. |
| Intake.UnknownAgentLinesSound | agents/intake_agent.py:21-27 | Every line of the report names an unknown agent. |
| Intake.UnknownAgentLinesSpec | agents/intake_agent.py:21-27 | The three facts together: empty iff all allowed, complete, and sound. |
| Intake.UnknownAgentLinesAppend | AG00_intake_agent.py:20-26 | The report of a concatenation is the concatenation of the reports, so lines keep assignment order. |
| Intake.ValidateAssignments | agents/intake_agent.py:21-27 | Raises iff some agent is not allowed. The message is the report lines joined by `"\n"`. An empty list validates. |
| Intake.ValidationMessageLines | AG00_intake_agent.py:20-26 | When neither the prefix nor any unknown agent name contains a line break, the raised message splits back into exactly one prefixed line per unknown agent, in order. |
| Intake.LastFinishCommand | agents/intake_agent.py:56-61 | `""` when nothing is flagged. Otherwise the command of a flagged assignment with no flagged assignment after it. |
| Intake.SelectFinalResponse | AG00_intake_agent.py:55-65 | The overwrite loop yields `LastFinishCommand`: the last flagged command wins. |
| IntakeOfficer.Process | AG00_intake_agent.py:32-73 | A classifier failure propagates. A validation failure propagates as the report. Otherwise the assignments are passed on unchanged (a missing key means `[]`), the reply is the last finish command, and there is exactly one log entry. |
| IntakeAgent.Process | agents/intake_agent.py:33-69 | A classifier or validation failure clears the assignments and the reply and appends the error log. Otherwise the assignments are unchanged and the reply is the last finish command. It shows the finished line or the sent line. A non-empty reply implies a `finish` assignment. |
| SqlExtraction.FirstFenceFrom | AG02_database_agent.py:75 | The fence found is at or after the start and none lies between. `None` means there is no fence. |
| SqlExtraction.FirstOpenerFrom | AG02_database_agent.py:75 | The first "```sql" opener in any case, or `None` when there is none. |
| SqlExtraction.SkipSpace | AG02_database_agent.py:75 | The greedy `\s*` stops at the first non-space character, or at the closing fence. |
| SqlExtraction.ExtractSql | AG02_database_agent.py:74-85 | The extracted SQL is never longer than the reply. |
| SqlExtraction.ExtractSqlBlock | AG02_database_agent.py:75-77 | With a `sql` block, the result is the stripped text between the first opener and the next fence. |
| SqlExtraction.ExtractBareFence | AG02_database_agent.py:79-80 | Without a block, a reply that starts and ends with a fence becomes `sql[3:-3].strip()`. |
| SqlExtraction.ExtractPrefixed | AG02_database_agent.py:82-83 | Otherwise a reply starting with `SQL:` in any case becomes the stripped rest. |
| SqlExtraction.ExtractUnchanged | AG02_database_agent.py:85 | Any other reply is returned as it is, unstripped. |
| SqlExtraction.NoBacktickNoBlock | agents/database_agent.py:61-64 | A reply without backticks has no `sql` block and no leading fence. |
| SqlExtraction.ExtractFromSqlBlock | agents/database_agent.py:61-63 | Round trip: a statement wrapped as "```sql\n…```" comes back stripped. |
| SqlExtraction.ExtractFromPrefix | agents/database_agent.py:66-67 | Round trip: `SQL: ` plus a backtick-free statement comes back stripped. |
| SqlExtraction.ExtractPlain | agents/database_agent.py:68 | A backtick-free reply without the `SQL:` prefix comes back unchanged. |
| SqlExtraction.LlmToSql | AG02_database_agent.py:59-85 | The model fails iff `llm_to_sql` fails, with the same error. On success the SQL is `ExtractSql` of the reply, so the `ExtractSql*` lemmas apply, and it is never longer than the reply. The database handler uses the same prompt and extraction. |
| SqlExtraction.QueryDatabase | AG02_database_agent.py:87-95 | `NO_SQL` in any case is refused with its message. Otherwise the query fails iff the runner fails. A success is a prefix of the runner's rows of length `min(n, 15)`. The database handler has the same guard and cap. |
| SqlExtraction.NoSqlNeverQueries | AG02_database_agent.py:88-90 | The refusal does not depend on the database: it comes before any connection. |
| SqlExtraction.NoSqlAnyCase | agents/database_agent.py:71-72 | `no_sql`, `No_Sql` and `NO_SQL` are all refused. |
| SqlExtraction.QueryOutcome | AG02_database_agent.py:120-128 | No rows give `No data found for your request.`. Rows give `Query result:\n` followed by exactly the rendered table. An error gives `❌ [DB Error]: e` and then `\n(SQL: sql)` with nothing between. |
| LogFormat.FormatLogs | AG02_database_agent.py:133-135 | Never more entries than given; every entry is non-blank and stripped at both ends. Which entries are dropped, and their order, is fixed by `FormatLogsOne` with `FormatLogsAppend`. |
| LogFormat.FormatLogsAppend | AG02_database_agent.py:134-135 | Cleaning respects concatenation, so order is kept. |
| LogFormat.FormatLogsOne | AG02_database_agent.py:134-135 | A whitespace-only entry is dropped. Any other entry comes back stripped. With `FormatLogsAppend` this fixes the result on every list. |
| LogFormat.FormatLogsAllBlank | AG01_cafe_bot.py:53-56 | A list of whitespace-only entries cleans to the empty list. |
| LogFormat.FormatLogsKeepsNonBlank | AG01_cafe_bot.py:53-56 | When no entry is blank, the result is every entry stripped, in order. |
| LogFormat.FormatLogsOfBracketed | AG01_cafe_bot.py:53-56 | A list of lines that each open with `[` keeps every line, stripped, in order. |
| LogFormat.StripEachAt | AG01_cafe_bot.py:53-56 | Entry `k` of the stripped list is entry `k` of the input, stripped. |
| LogFormat.FormatLogsOfClean | AG01_cafe_bot.py:53-56 | An already clean list is returned unchanged. |
| LogFormat.FormatLogsIdempotent | AG02_database_agent.py:134-135 | `format_logs(format_logs(l)) == format_logs(l)`. |
| DatabaseAgent.Process | AG02_database_agent.py:97-131 | No connection gives `❌ Database connection failed.`. A model failure gives `❌ [LLM Error]: e`. Otherwise the query-stage text for the extracted SQL. Every log is clean. |
| DatabaseAgent.ConnectionFailedLogs | AG02_database_agent.py:102-110 | Without a connection the log list is the connection line alone, unchanged by `format_logs`. |
| DatabaseAgent.LlmFailedLogs | AG02_database_agent.py:102-131 | A failing model call logs the schema line, then the LLM error, each stripped. |
| DatabaseAgent.QueriedLogs | AG02_database_agent.py:102-131 | Once there is SQL the log list is the schema line, the SQL line and `Done.`, in that order. |
| DatabaseAgent.NoConnectionNoModelCall | AG02_database_agent.py:102-104 | Without a connection the model is never consulted. |
| DatabaseAgent.NoSqlReported | AG02_database_agent.py:119-128 | A `NO_SQL` answer becomes a DB-error result naming the refusal and the SQL. |
| DatabaseHandler.Process | agents/database_agent.py:80-114 | The command comes from the first `coffee_db_agent` entry. A connection or model failure returns a `result` and leaves the array unchanged; the connection failure has one log. Otherwise every `coffee_db_agent` entry gets the query-stage text, the others are unchanged, and only logs are returned, from the received line to the `Done.` line. |
| CafeBotConfig.NewCafeBot | agents/cafe_bot.py:5-16 | `top_k` defaults to 8. A falsy system prompt falls back to the default. The prompt is never empty. |
| CafeBotConfig.CafeMessages | AG01_cafe_bot.py:39-43 | No ensures of its own: the system prompt, then the user turn of context and question. The same messages are built at agents/cafe_bot.py:33-37. Their shape is stated by `CafeBotConfig.CafeMessagesShape`. |
| CafeBotConfig.CafeMessagesShape | AG01_cafe_bot.py:39-43 | Exactly two messages. The first is the system prompt. The second is the user turn, which opens with `Reference context:\n` and the context and closes with `\n\nUser question: ` and the question. |
| CafeBotAgent.Process | AG01_cafe_bot.py:28-51 | A retrieval failure gives `❌ Failed to retrieve reference context: e`. A model failure gives `❌ Gemini LLM Error: e`. Otherwise the answer text, from the system-then-user messages. Every log is clean. |
| CafeBotAgent.RetrievalFailedLogs | AG01_cafe_bot.py:31-51 | A failed retrieval logs its error alone, stripped. |
| CafeBotAgent.GeminiFailedLogs | AG01_cafe_bot.py:31-51 | A failed model call logs the retrieval line unchanged, then the model error, stripped. |
| CafeBotAgent.AnsweredLogs | AG01_cafe_bot.py:31-51 | An answered question logs the retrieval line and the answered line, both unchanged. |
| CafeBotAgent.NoContextNoModelCall | AG01_cafe_bot.py:31-37 | A failed retrieval never reaches the model. |
| CafeBotHandler.Process | agents/cafe_bot.py:18-49 | The question comes from the first `landscape_cafe_bot` entry; retrieval uses `top_k`. A retrieval or model failure returns its marker and leaves the array unchanged. Otherwise every `landscape_cafe_bot` entry gets the answer, the others are unchanged, and only the four logs are returned. |
| Aggregator.OutputLinesSnoc | AG03_aggregator_agent.py:32-33 | One more output appends exactly its `[label]: text\n` line. |
| Aggregator.OutputLinesReadBack | AG03_aggregator_agent.py:30-33 | When no label or text contains a line break, the output section splits back into one `[label]: text` line per pair, in order, then the empty tail. Database results other than the no-data notice hold line breaks, so this read-back does not cover them. |
| Aggregator.AppendOutputLines | AG03_aggregator_agent.py:32-33 | The `+=` loop leaves the starting text followed by one `[label]: text\n` line per output, in order. |
| Aggregator.SummarizeMultipleAgents | AG03_aggregator_agent.py:21-35 | The model receives exactly the header followed by the output lines, as one user message. |
| Aggregator.SummarizeDatabaseOutput | AG03_aggregator_agent.py:7-19 | No ensures of its own: one model call with a single user message holding the database prompt. What that prompt keeps apart is stated by `Aggregator.DatabaseSummaryPromptReadBack`. |
| Aggregator.DatabaseSummaryPromptReadBack | AG03_aggregator_agent.py:9-17 | A one-line question and the table text are both determined by the database summary prompt. |
| Aggregator.Waiting | AG03_aggregator_agent.py:44 | At most one waiting name per assignment. |
| Aggregator.WaitingEmpty | AG03_aggregator_agent.py:44-47 | Nobody is waiting iff every result is truthy. |
| Aggregator.WaitingOne | AG03_aggregator_agent.py:44 | One assignment contributes its agent's name exactly when its result is falsy, and nothing otherwise. |
| Aggregator.WaitingAppend | AG03_aggregator_agent.py:44 | The waiting list of two runs of assignments is the first run's list followed by the second's, so names keep assignment order. With `WaitingOne` this fixes the list shown in the waiting log. |
| Aggregator.WaitingComplete | AG03_aggregator_agent.py:44 | Every assignment with a falsy result has its agent on the list. |
| Aggregator.WaitingSound | AG03_aggregator_agent.py:44 | Every name on the list is the agent of an assignment with a falsy result. |
| Aggregator.AgentOutputs | AG03_aggregator_agent.py:63-68 | At most one pair per assignment. |
| Aggregator.AllOutputsWhenNoneWaiting | AG03_aggregator_agent.py:44-68 | Once nobody is waiting, every assignment contributes its `(agent, result)` pair, in order. |
| Aggregator.CollectOutputs | AG03_aggregator_agent.py:63-68 | The collecting loop returns `AgentOutputs`. |
| Aggregator.Process | AG03_aggregator_agent.py:37-71 | The checks run in order. Waiting gives only the waiting log and no reply. A single non-DB result passes through with no model call. A single DB result is summarised unstripped. Any other count is summarised and stripped. Model failures propagate. Every return has exactly one log. |
| Aggregator.NoAssignmentsSummarisedEmpty | AG03_aggregator_agent.py:44-69 | Zero assignments pass the waiting check and are summarised with an empty output list. |
| ChatTurn.InternalError | core.py:159-160 | The internal-error prefix followed by the error text when it has at most 500 characters, and by exactly its first 500 characters otherwise. |
| ChatTurn.ReplyText | core.py:152 | The final response when truthy, else the fallback; never empty when the fallback is not. |
| ChatTurn.CapHistory | core.py:156-157 | `history[-20:]`: the latest `min(n, 20)` messages, as a suffix. |
| ChatTurn.Guard | core.py:129-132 | No ensures of its own: the key guard, then the blank guard. main.py:67-70 has the same guards. Its meaning is stated by `ChatTurn.GuardSpec`. |
| ChatTurn.GuardSpec | core.py:129-132 | The workflow runs iff the key is present and starts with `AI` and the stripped message is not empty. Otherwise the reply is `history or []`, with the key warning when the key fails and the blank warning when only the message fails. |
| ChatTurn.WithTurnEndsWithTurn | main.py:86-89 | After a turn the history ends with the user message, then the reply, and has at most 20 entries. |
| ChatTurn.WithTurnDropsOldest | main.py:86-89 | Past the cap only the oldest messages are dropped; the rest of the old history comes first, in order. |
| ChatTurn.WithTurnKeepsAll | main.py:86-89 | While there is room the history is the old one followed by the turn. |
| ChatTurn.CapHistoryIdempotent | main.py:89 | Capping twice equals capping once. |
| CoreNodes.CafeBotNode | core.py:54-66 | The agent is `NewCafeBot(rag, llm)` with the default prompt and `top_k`, as built at core.py:60. It runs on the first matching command. Its result goes into every `landscape_cafe_bot` entry and the others are unchanged. The update is exactly one log line. |
| CoreNodes.DatabaseNode | core.py:68-80 | The same for `coffee_db_agent` and the database agent. |
| CoreChat.Chat | core.py:127-160 | The reply equals the as-written outcome. The caller's history is appended to in place (user, then assistant) exactly when both guards pass, the run succeeds and a history was given; otherwise it is unchanged. |
| CoreChat.InitialState | core.py:140-150 | The state holds the message, the copied history, the `ALLOWED_AGENTS` keys, a bare empty assignment list, an empty final response and no logs. |
| CoreChat.GuardsSkipWorkflow | core.py:129-132 | A rejected key or a blank message returns `history or []` and its warning, and never runs the workflow. |
| CoreChat.FailureKeepsHistory | core.py:159-160 | A failing run returns `history or []` and the truncated internal error. |
| CoreChat.SuccessAppendsTurn | core.py:151-158 | A successful run with a history returns it with the turn appended and capped, so it ends with the user message and then the reply (the final response or the Thai fallback) and has at most 20 entries. The logs are joined by `"\n"`. |
| CoreChat.NoHistoryLosesReply | core.py:142-158 | With no history, a successful run ends in the internal error for `None.append` and an empty history. |
| CoreChat.FixedKeepsReply | core.py:142-158 | Appending to the copy instead always ends the history with the turn, and agrees with the code wherever that does not fail. |
| MainChat.InitialState | main.py:74-82 | The state holds the message, the copied history, the four registry names, `{"assignments": []}`, an empty final response and no logs. |
| MainChat.Chat | main.py:62-92 | The reply equals the outcome function. The method has no `modifies` clause, so the caller's history is never changed. |
| MainChat.GuardsSkipWorkflow | main.py:67-70 | A missing or non-`AI` key, or a blank message, returns `history or []` and its warning without running the workflow. |
| MainChat.FailureKeepsHistory | main.py:91-92 | A failing run returns `history or []` and the internal error truncated to 500 characters. |
| MainChat.SuccessOutcome | main.py:83-90 | A successful run returns the copied history with the turn appended and capped, and the run's logs joined. |
| MainChat.SuccessAppendsTurn | main.py:83-90 | With or without a history, the result ends with the user message, then the reply (the final response or the English fallback), and has at most 20 entries. The logs are joined by `"\n"`. |
| MainChat.SuccessKeepsShortHistory | main.py:86-89 | While there is room for the turn, the result is the old history followed by the turn. |

## Left out

- **Workflow composition.** The LangGraph wiring (`build_workflow` in `core.py:102-123` and `workflows/graph.py`) is library scheduling and is not visible here. Neither is the `operator.add` merge of `logs`. Both `chat` functions take the workflow run as a parameter, and each stage is modelled on its own.
- **`agents/aggregator_agent.py`.** `config/agent_registry.py` imports it, but it is not part of this model. The aggregator modelled is `AG03_aggregator_agent.py`.
- **External systems.** The chat models, the structured-output classifier, the retriever (`RAG.py`), SQLite and pandas are function parameters:
  - the `.content`/`str()` unwrapping of a model reply is inside the `Llm` port;
  - `check_connection` and `get_schema_overview` are fields of `Ports.Database`.
- **Rendering and side effects.** Python's `repr`/`str` of lists and dicts and `df.to_string(index=False)` are the opaque `Show` parameter. `datetime.now()` is the `now` parameter. The `print` calls are left out.
- **Prompt templating.** The `INTAKE_PROMPT.format(...)` result is taken as the `systemPrompt` parameter of the intake agents.
- **Malformed assignments.** An assignment dict without an `agent` or `command` key raises `KeyError` in the source; the model's assignments always have every field. `a.get("finish")` is read as a boolean.
- **State shape in `main.py`.** The handlers iterating over the dict `{"assignments": []}` is not modelled. The initial state is recorded as it is written.
- **`upper()`.** It is exact only for the ASCII targets it is compared with (`SQL`, `NO_SQL`, `SQL:`), which is every use here.
- **UI.** The UI (`create_demo`, `ui/app.py`), `clear_chat` (which returns `([], "")`), the `make_agents` factories and the CSV-to-SQLite scripts are construction, UI and I/O only.
- **Concurrency.** The parallel fan-out of the two handlers is not modelled.
- Intake.UnknownAgentLines: its own ensures states only the length bound. What the report contains is stated by `Intake.UnknownAgentLinesEmpty`, `Intake.UnknownAgentLinesComplete`, `Intake.UnknownAgentLinesSound` and `Intake.UnknownAgentLinesAppend`.
- SqlExtraction.ExtractSql: its own ensures states only the length bound. Each of its four branches is stated by a separate lemma (`ExtractSqlBlock`, `ExtractBareFence`, `ExtractPrefixed`, `ExtractUnchanged`).
- Aggregator.Waiting: its own ensures states only the length bound. Its emptiness is stated by `Aggregator.WaitingEmpty`. Its names and their order are stated by `Aggregator.WaitingOne` and `Aggregator.WaitingAppend`. `Aggregator.WaitingComplete` and `Aggregator.WaitingSound` state membership.
- Aggregator.AgentOutputs: its own ensures states only the length bound. Its meaning is stated by `Aggregator.AllOutputsWhenNoneWaiting` and `Aggregator.CollectOutputs`.

## Findings

| source | as written | input that shows it | evidently intended | confidence | as-written member | corrected member |
|---|---|---|---|---|---|---|
| core.py:154-155 | After a successful run, the turn is appended to the caller's `history`, which defaults to `None`. | `chat("hi", None, "AIkey")` with a workflow that succeeds: the reply is lost and the user gets `❌ Internal error: 'NoneType' object has no attribute 'append'` with an empty history. | Append to the copy `chat_history`, as `main.py:86-87` does, so the answer is kept and the history is `[user, assistant]`. | not executed | CoreChat.NoHistoryLosesReply | CoreChat.FixedKeepsReply |
