# Progress streaming for multi-agent runs: a verified model

The repository streams progress from LLM agent runs to browsers. It has
three services:

- a joke-writing flow that streams Server-Sent Events (SSE);
- an autonomous backend-analysis team that streams status updates over SSE
  and records its work in a shared context;
- a real-time status service that pushes updates over WebSockets keyed by
  session id.

This project models the sequential logic of the three services and proves
what it does:

- **SSE framing** (`sse_wire.dfy`):
  - `sse_event` of the joke service is proved against a reference reader of
    the event-stream format: line splitting from section 9.2.5 (Parsing an
    event stream) and field dispatch from section 9.2.6 (Interpreting an
    event stream) of the WHATWG HTML Living Standard;
  - one frame round-trips to exactly one event;
  - a stream of frames and keep-alive comments yields the frames' events in
    order;
  - the analysis service's frame is shown to dispatch nothing (see Findings).
- **Context tools** (`context_tools.dfy`): the five tool functions the agents
  call on the shared context (`log_task_completion`, `record_finding`,
  `create_recommendation`, `generate_summary_report`,
  `update_project_status`).
  - The context is a class whose fields the tools update in place.
  - Each method is tied to a pure `With...` function whose contract gives
    the new context: one entry appended at the end, earlier entries kept,
    the derived keys, and nothing else changed.
  - Lemmas about sequences of calls show the derived keys stay consistent,
    the summary counts what was logged, and "deep" analysis is never
    downgraded.
- **Configuration helpers** (`agent_config.dfy`):
  - the first-match agent lookup (a loop);
  - the discovery card with its defaults and capability merge;
  - the status text extracted from the speaker-selection agent's reply.
- **WebSocket sessions** (`ws_manager.dfy`): the session map, with connect,
  disconnect, send and membership.
  - Socket writes and closes are recorded in a trace.
  - A pure `Step` function states each call's effect.
  - Lemmas over call sequences show that after a connect (or a disconnect)
    followed only by calls for other sessions, the session maps to that socket
    (or is absent).
- **Final answer** (`insights.dfy`): how the last chat message becomes
  (answer, sources, suggestions). There is one definition as written and one
  as evidently intended.

Supporting modules: `wrappers.dfy` (`Option`, `Result`); `strings.dfy` (Python's `split`, `join`, `strip` and
`isspace` on `seq<char>`); `values.dfy` (JSON/YAML values and Python truthiness).

Timestamps (`datetime.now()`), JSON encoding and parsing, and the outcome of a socket write are
parameters of the model. JSON text is an opaque string.

## Model

| member | source | states |
|---|---|---|
| SseWire.SseEvent | joke_generator/backend/server.py:29-38 | the frame is `id: I` LF (only when an id is given), `event: E` LF (only when the name is non-empty), `data: D` LF, then LF |
| SseWire.FrameFields | joke_generator/backend/server.py:31-38 | the frame's complete lines are, in order: an `id` field first iff an id is given, an `event` field iff the name is non-empty, exactly one `data` field as the last non-blank line, then the blank line |
| SseWire.FrameRoundTrip | joke_generator/backend/server.py:29-38 | a client reading a frame whose parts hold no line break dispatches exactly one event with the given type (default "message"), data and id, and returns to idle |
| SseWire.StreamRoundTrip | joke_generator/backend/server.py:29-38 | any stream of frames and keep-alives is read as exactly the frames' events, in order, with the last event ID carried along |
| SseWire.JokeStreamEvents | joke_generator/backend/server.py:29-38 | from the start of a connection, the client's events are exactly the frames' events in order |
| SseWire.KeepAliveDispatchesNothing | joke_generator/backend/server.py:128 | the keep-alive comment dispatches nothing and leaves the reader idle |
| SseWire.SseJsonFrame | backend_bug_analysis/backend/group_chat_manager.py:34-35 | the frame is the JSON text followed by exactly two LFs |
| SseWire.JsonFrameDispatchesNothing | backend_bug_analysis/backend/group_chat_manager.py:34-35 | a bare JSON-object frame dispatches no event at a standard client |
| SseWire.StartedFrameIsLost | backend_bug_analysis/backend/group_chat_manager.py:365 | the first status frame is lost as written and delivered intact by the corrected frame |
| SseWire.SseDataFrame | backend_bug_analysis/backend/group_chat_manager.py:34-35 | the corrected frame is read back as one "message" event carrying the JSON text |
| AgentConfig.AgentCfgByName | backend_bug_analysis/backend/group_chat_manager.py:145-150 | returns the first agent entry whose `name` equals the argument, and the empty mapping when none does or the list is absent |
| AgentConfig.AgentCard | backend_bug_analysis/backend/group_chat_manager.py:320-341 | each field is the configured value when present, else its default; capabilities hold `streaming: true` overlaid by the configured ones; a non-mapping capabilities value is an error |
| AgentConfig.EmptyCapabilitiesMeanStreamingOnly | backend_bug_analysis/backend/group_chat_manager.py:325-328 | absent, null or empty capabilities give exactly `{"streaming": true}` |
| AgentConfig.ConfiguredStreamingWins | backend_bug_analysis/backend/group_chat_manager.py:325-328 | a configured `streaming` value overrides the default |
| AgentConfig.SpeakerStatus | backend_bug_analysis/backend/group_chat_manager.py:274 | the status holds no colon and starts and ends with non-whitespace |
| AgentConfig.StatusIsAfterLastColon | backend_bug_analysis/backend/group_chat_manager.py:274 | the status is the stripped text after the last colon |
| AgentConfig.StatusWithoutColon | backend_bug_analysis/backend/group_chat_manager.py:274 | without a colon the status is the whole stripped content |
| ContextTools.InitialIsConsistent | backend_bug_analysis/backend/group_chat_manager.py:164-173 | the session's initial context is consistent and its depth is "initial" |
| ContextTools.ProjectContext.Initial | backend_bug_analysis/backend/group_chat_manager.py:164-173 | builds the initial context, with the project name defaulting to "Backend Performance Analysis" |
| ContextTools.WithTaskLogged | backend_bug_analysis/backend/group_chat_manager.py:40-57 | appends exactly one task entry (completed by "coordinator") after the unchanged earlier ones; a missing list counts as empty; `task_count` is the new length; `last_task` is the task; nothing else changes; consistency is kept |
| ContextTools.ProjectContext.LogTaskCompletion | backend_bug_analysis/backend/group_chat_manager.py:40-57 | the new context is `WithTaskLogged` of the old one, and the message names the task and details |
| ContextTools.WithFinding | backend_bug_analysis/backend/group_chat_manager.py:59-76 | appends exactly one finding (by "analyst"); depth becomes "deep" iff severity is "high" or "critical", otherwise it is kept; nothing else changes |
| ContextTools.ProjectContext.RecordFinding | backend_bug_analysis/backend/group_chat_manager.py:59-76 | the new context is `WithFinding` of the old one; severity defaults to "medium" |
| ContextTools.WithRecommendation | backend_bug_analysis/backend/group_chat_manager.py:78-95 | appends exactly one recommendation (by "strategist") after the unchanged earlier ones; nothing else changes |
| ContextTools.ProjectContext.CreateRecommendation | backend_bug_analysis/backend/group_chat_manager.py:78-95 | the new context is `WithRecommendation` of the old one; priority defaults to "medium", effort to "unknown" |
| ContextTools.Filter | backend_bug_analysis/backend/group_chat_manager.py:102-103 | the comprehension has one entry per accepted position; each accepted element occurs as often as in the input and no other element occurs |
| ContextTools.FilterAppend | backend_bug_analysis/backend/group_chat_manager.py:102-103 | the comprehension keeps input order: filtering a concatenation concatenates the filtered parts |
| ContextTools.CriticalFindings | backend_bug_analysis/backend/group_chat_manager.py:102 | its length is the number of positions whose severity is "critical"; it holds each critical finding as often as the input does, and nothing else |
| ContextTools.HighPriorityRecommendations | backend_bug_analysis/backend/group_chat_manager.py:103 | its length is the number of positions whose priority is "high"; it holds each high-priority recommendation as often as the input does, and nothing else |
| ContextTools.SummaryOf | backend_bug_analysis/backend/group_chat_manager.py:97-113 | the counts equal the list lengths; critical issues and high-priority actions equal the numbers of critical findings and high-priority recommendations, so they are at most the list lengths; no critical issue iff no finding is critical |
| ContextTools.WithSummary | backend_bug_analysis/backend/group_chat_manager.py:114 | `final_summary` is the only key written |
| ContextTools.ProjectContext.GenerateSummaryReport | backend_bug_analysis/backend/group_chat_manager.py:97-115 | the new context is `WithSummary` of the old one; the message gives the three counts |
| ContextTools.WithStatus | backend_bug_analysis/backend/group_chat_manager.py:117-132 | appends exactly one status entry; `current_status` is the new status; nothing else changes |
| ContextTools.ProjectContext.UpdateProjectStatus | backend_bug_analysis/backend/group_chat_manager.py:117-132 | the new context is `WithStatus` of the old one; notes default to "" |
| ContextTools.RunKeepsConsistent | backend_bug_analysis/backend/group_chat_manager.py:40-132 | any sequence of tool calls keeps the derived keys consistent with the lists |
| ContextTools.RunCounts | backend_bug_analysis/backend/group_chat_manager.py:40-132 | each list grows by exactly the number of calls that append to it |
| ContextTools.ReportCountsSession | backend_bug_analysis/backend/group_chat_manager.py:97-115 | a report after a session counts exactly the tasks, findings and recommendations logged in it |
| ContextTools.DeepIsFinal | backend_bug_analysis/backend/group_chat_manager.py:74-75 | once "deep", the analysis depth never changes again |
| WsManager.Step | real_time_status.py:181-203 | other sessions are untouched; connect maps without closing; disconnect removes and closes only a mapped socket; a send to an unknown session does nothing; a failed write drops and closes the session |
| WsManager.WebSocketManager.constructor | real_time_status.py:177-179 | starts with no sessions and no socket actions |
| WsManager.WebSocketManager.Connect | real_time_status.py:181-184 | map and trace follow `Step` for a connect |
| WsManager.WebSocketManager.Disconnect | real_time_status.py:186-191 | map and trace follow `Step` for a disconnect |
| WsManager.WebSocketManager.SendJson | real_time_status.py:193-203 | map and trace follow `Step` for a send with the given write outcome |
| WsManager.WebSocketManager.Has | real_time_status.py:205-207 | true iff the session is mapped; changes nothing |
| WsManager.OthersDoNotInterfere | real_time_status.py:176-207 | calls for other sessions never change a session's entry |
| WsManager.LastConnectWins | real_time_status.py:181-184 | after a connect, and then only calls for other sessions, the session maps to that socket |
| WsManager.LastDisconnectWins | real_time_status.py:186-191 | after a disconnect, and then only calls for other sessions, the session is absent |
| WsManager.DisconnectTwice | real_time_status.py:186-191 | a second disconnect changes nothing and closes nothing |
| Insights.FinalAnswerAsWritten | real_time_status.py:149-163 | an empty history is an error; otherwise the answer is the last message verbatim, with no sources or suggestions |
| Insights.FinalAnswer | real_time_status.py:149-163 | a non-JSON or non-object reply falls back to the message. Otherwise `answer` comes from the object when present; `sources` is the converted list when present and convertible, else `[]`; `suggestions` is converted likewise only when `sources` did not fail, and is `[]` otherwise |
| Insights.ListOf | real_time_status.py:159-160 | `list()` keeps a list, splits a string into its characters, and fails on null, booleans and numbers |
| Insights.WellFormedReply | real_time_status.py:156-160 | a reply object with a string answer and list fields is taken apart exactly |
| Insights.AsWrittenNeverParses | real_time_status.py:153-163 | the code as written behaves as if no reply were ever JSON |
| Insights.AnswerFieldIgnored | real_time_status.py:156 | the reply `{"answer": "42"}` is answered with its raw text as written and with "42" as intended |

## Left out

- The asynchronous `event_stream` relays and the background threads, queues, timeouts and cancellation
  that feed them (group_chat_manager.py:355-382, server.py:108-135): their point is concurrency. Only
  the frames they write, keep-alives included, are modelled.
- The agent framework: agent construction, group chats, reply hooks and the patched message printer. Of
  the printer only the status expression (group_chat_manager.py:274) is modelled.
- `json.dumps`, `json.loads` and UTF-8 encoding: JSON text is an opaque string, parsing a parameter.
- `datetime.now()`: every timestamp is a parameter.
- YAML loading, environment variables, the FastAPI routes, CORS, response headers and server start-up;
  `agent_card` takes the already-loaded configuration section.
- WebSocket `accept`, the lock, and exceptions raised by `close` (suppressed in the source, so no effect
  on the model). Because the lock is released between a failed write and the disconnect it triggers,
  a concurrent connect could be dropped; the model is sequential and does not show this.
- `event_update` (real_time_status.py:41-57), a forward to the manager, and the error path at
  real_time_status.py:242-243, which calls a name that is not defined.
- The final `Answer: ...` event sent after the answer is computed (real_time_status.py:166-169).
- Floating-point JSON numbers: `Values.Value` has integers only.
- `print` output, including the `print` inside the modelled `sse_event` (server.py:30) and those at
  group_chat_manager.py:272 and real_time_status.py:148: it has no effect on the values computed.
- AgentConfig.AgentCfgByName: agent entries are typed as mappings; an entry that is not a mapping, on
  which `a.get` raises (group_chat_manager.py:148), is not representable.
- ContextTools.InitialCtx: the configured project name is a string or absent; a configured `null`,
  which the source keeps as `None` instead of using the default, is not representable.
- ContextTools.ProjectContext: each context key has a fixed type; a key present with a `None` value
  (on which the source's `append` would raise) is not representable.
- SseWire.Interpret: the `retry` field only sets the reconnection time and is ignored; reconnection
  itself, and events split across a connection drop, are not modelled.
- Insights.Text: Python's `str()` of a non-string value is a parameter, not defined here.
- Insights.ListOf: `list()` of a JSON object yields its keys in insertion order; objects here carry no
  order, so that case is treated like a value `list()` rejects.

## Findings

| source | as written | input that shows it | evidently intended | confidence | as-written member | corrected member |
|---|---|---|---|---|---|---|
| real_time_status.py:156 | `json.loads(content)` reads a name never assigned in the function; the NameError is swallowed, so a JSON reply is never parsed | a last message `{"answer": "42"}` yields the answer `{"answer": "42"}` with no sources | parse the last message (`answer`) | not executed | Insights.FinalAnswerAsWritten, Insights.AnswerFieldIgnored | Insights.FinalAnswer |
| backend_bug_analysis/backend/group_chat_manager.py:34-35 | each SSE frame is the bare JSON text and a blank line, with no `data:` field | the frame `{"status": "started the flow"}` (line 365) dispatches no event at a standards-following client | `data: <json>` and a blank line | not executed | SseWire.SseJsonFrame, SseWire.JsonFrameDispatchesNothing | SseWire.SseDataFrame |
