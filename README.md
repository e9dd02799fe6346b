# Hierarchical support-agent orchestration, modelled in Dafny

This project models the orchestration core of a multi-agent customer-support service.
A supervisor graph routes a chat request to one of three specialist teams: orders,
refunds/payments and human escalation. Each team is its own agent/tools graph with
its own tools. A streaming adapter turns the supervisor's intermediate states into
server-sent events.

The language model is treated as an opaque oracle: a total function from the message
history to either an assistant message (text plus an ordered list of tool calls
`{id, name, args}`) or the text of what the call raised. Tools are modelled as names
bound to total functions from an argument dictionary to either a serialised payload or
the text of what they raised.

Modules, one per component:

- `Messages` (`messages.dfy`): the message vocabulary (human, assistant with tool calls,
  tool result, and any other kind) and Python's `repr` of a string, used in lookup errors.
- `ToolsNode` (`tools_node.dfy`): a team's act step, `call_tools`.
- `GraphLoop` (`graph_loop.dfy`): the router and the agent → (act → agent)* → END loop
  that both kinds of graph share. It is given as a fuel-bounded function (`Loop`, `Run`)
  and as an imperative state machine over the graph's nodes (`RunGraph`), which is proved
  equal to the function.
- `Teams` (`teams.dfy`): the team facades, the supervisor's tool map and its act step,
  `call_teams_node`.
- `Stream` (`stream.dfy`): event classification and the stream generator.
- `Api` (`api.dfy`): thread-id defaulting, the per-thread store, `/chat/stream` and
  `/chat/invoke`.
- `Scenarios` (`scenarios.dfy`): two end-to-end streams with scripted models.

Behaviour of the code worth noting:

- The team facades do not catch failures of the team run. The supervisor's act step
  catches them and reports `Error executing team <name>: <e>`.
- The `error` event carries no thread id. Every other event does.
- The stream classifies each state snapshot by its last message only. A plan therefore
  shows only the first requested call. After an act step with several calls, only the
  last call's result is reported as `team_report`.
- The supervisor's act step looks the tool name up before it checks for `query`. So an
  unknown name without a `query` reports the lookup error, not the missing-query error.
- The lookup error's text is Python's `repr` of the missing name: single quotes, or double
  quotes when the name holds a single quote and no double quote, with escapes.

## Model

| member | source | states |
|---|---|---|
| `Messages.QuoteFor` | app/graph.py:60 | The quote the lookup error's text uses: double quotes exactly when the name holds a single quote and no double quote. |
| `Messages.ReprRoundTrip` | app/graph.py:60 | The lookup error's text is the name between quotes, escaped so that reading the escapes back recovers the name exactly. |
| `Messages.PlainReprIsQuoted` | app/graph.py:175 | A name with no single quote, backslash or ASCII control character appears as it is between single quotes. |
| `GraphLoop.ShouldContinue` | app/graph.py:71-76 | Routes to the act node exactly when the last message is an assistant message with a non-empty tool-call list, and to END otherwise. The supervisor's router at app/graph.py:189-195 is the same rule. |
| `ToolsNode.ToolMap` | app/graph.py:56 | The registry's keys are exactly the names of the team's tools. |
| `ToolsNode.ToolMapLastWins` | app/graph.py:56 | Under a duplicated name, the registry holds the last tool registered with that name. |
| `ToolsNode.ResolveToolCall` | app/graph.py:59-68 | A call's result is a tool message with the call's id. Its content is the payload, `Error: <e>` when the tool raised, or `Error: ` followed by the KeyError text, Python's `repr` of the name, when the name is not registered. |
| `ToolsNode.Dispatch` | app/graph.py:57-69 | An act step returns exactly one message per call, in request order. The i-th message depends on the i-th call alone. |
| `ToolsNode.DispatchAppend` | app/graph.py:58-68 | Results for the calls after any call, including a failed one, are exactly what those calls give on their own. A failure never aborts the remaining calls. |
| `ToolsNode.ToolResults` | app/graph.py:53-69 | `call_tools` returns as many results as there were calls, and the i-th result is correlated to the i-th call's id. |
| `ToolsNode.CallTools` | app/graph.py:53-69 | The imperative `call_tools` (builds the registry dict, then loops over the calls) returns exactly `ToolResults`. This gives one result per call, in order, with ids correlated. |
| `GraphLoop.Run` | app/graph.py:78-85 | The first state of every run is its input. |
| `GraphLoop.RunAlternates` | app/graph.py:78-85 | A run enters at the agent node and then alternates agent and act steps. An agent step appends the oracle's answer for the current history. An act step is taken only when the router chose it, appends the act node's results, and returns to the agent. |
| `GraphLoop.RunIsAppendOnly` | app/graph.py:38-40 | Every state of a run extends every earlier state. Messages are only appended, never changed or removed. |
| `GraphLoop.RunSnapshotsNonEmpty` | app/graph.py:55 | A run from a non-empty input never reaches an empty state, so `messages[-1]` always exists. |
| `GraphLoop.StopsAtFirstPlainAnswer` | app/graph.py:81-83 | Termination. Suppose the oracle's answer at agent step k has no tool calls and the budget allows k+1 agent steps. Then the loop ends normally after 2k+1 states, and the last message is that answer. |
| `GraphLoop.NormalEndIsPlainAnswer` | app/graph.py:71-83 | Converse of termination. A loop that ends normally stops within the budget, on the agent step whose answer has no tool calls, and that answer is the last message. |
| `GraphLoop.LoopFailureCause` | app/graph.py:42-51 | A loop fails either because the oracle raised on the state reached within the budget, with that error, or because the budget ran out after `fuel` full rounds, with `StepLimitError`. |
| `GraphLoop.RunFailureCause` | app/graph.py:42-51 | A run that fails with `e` has an odd number of states. Either the oracle raised `e` on the last state, before the budget was used up, or the budget was used up and `e` is `StepLimitError`. |
| `GraphLoop.RunEndsWithPlainAnswer` | app/graph.py:82 | A run that ends normally ends with a tool-call-free assistant message. |
| `GraphLoop.RunGraph` | app/graph.py:198-204 | The state machine has entry `agent`, a conditional edge to the act node or END, and an edge from the act node back to `agent`. It yields exactly `Run`'s states and failure. On a normal end, the last message is a final answer. The team graph wiring at app/graph.py:78-85 is the same. |
| `Teams.TeamRun` | app/graph.py:113-115 | Every facade call, successful or not, runs the team from a new state holding one human message with the query, and every state it reaches begins with that message, so nothing of the supervisor's conversation reaches the team. Its steps alternate the team's model and `call_tools` over the team's own tools. It fails only with the team model's error or, after the team's budget of agent steps, with `StepLimitError`. |
| `Teams.TeamFacade` | app/graph.py:109-116 | A facade call fails exactly when the team run raised, and it fails with that run's error. |
| `Teams.FacadeReturnsTeamAnswer` | app/graph.py:113-116 | A successful facade call returns the content of the last message of a team run. That run started from exactly `[Human(query)]`, and its last message is a tool-call-free assistant message. |
| `Teams.DirectAnswerPassesThrough` | app/graph.py:109-116 | A team whose model answers the query at once hands that answer back unchanged. |
| `Teams.CompileTeams` | app/graph.py:88-101 | The orders team's registry holds exactly `get_order_status_tool`. The refunds/payment team's holds exactly `get_refund_status_tool` and `get_payment_details_tool`. The escalation team's holds exactly `create_support_ticket_tool`. Each name is bound to its tool, and each team to its own model. |
| `Teams.TeamMap` | app/graph.py:144-148 | The supervisor's tool map holds exactly the three team tools. `orders_team_tool` runs the orders team under the name `Orders`, `refund_payment_team_tool` the refunds/payment team under `Refunds_Payment`, and `human_escalation_team_tool` the escalation team under `Human_Escalation`. |
| `Teams.ResolveTeamCall` | app/graph.py:173-186 | A call's result is a tool message with the call's id. An unknown name gives `Error executing team <n>: ` followed by `repr(<n>)`, the KeyError text. A known name with an absent or null `query` gives `Error executing team <n>: Team tool called without 'query' argument.` A known name with a query gives the answer of that name's own team facade on the query, or `Error executing team <n>: <e>` when that team run raised `e`. |
| `Teams.TeamResults` | app/graph.py:166-187 | `call_teams_node` returns one result per call, in order, correlated by id. |
| `Teams.OnlyTeamToolsDispatched` | app/graph.py:170-175 | A name other than the three team tools always gives the lookup error, whatever the teams are. |
| `Teams.MissingQueryNeverRunsTeam` | app/graph.py:176-178 | A known team called without a usable `query` gives the fixed error, and the result is the same whatever the teams would do. The team is never run. |
| `Teams.OrdersCallRunsOrdersTeam` | app/graph.py:179-182 | A call to `orders_team_tool` with a query reports the orders team's answer from a fresh run. If that run raised, it reports the prefixed error instead. |
| `Teams.CallTeams` | app/graph.py:166-187 | The imperative `call_teams_node` returns exactly `TeamResults`: one result per call, in order, with ids correlated. |
| `Teams.SupervisorRun` | app/graph.py:197-204 | A supervisor run starts from its input, alternates the supervisor's model and `call_teams_node` (every requested call answered, in order), and fails only with the supervisor model's error or, after its budget, with `StepLimitError`. |
| `Stream.ClassifyStep` | app/api.py:85-110 | Classification by the last message. An assistant message with calls gives `supervisor_plan`: the first call's name, and its `query` or `'N/A'`. An assistant message without calls gives `final_answer`. A tool message gives `team_report`. A human message is skipped. Any other kind gives `unknown_step`. An empty state raises. Every emitted event carries the thread id. |
| `Stream.StepEvents` | app/api.py:83-116 | Events after the first: there is at most one per state plus one error. An error event can only be the last event. Every non-error event carries the thread id. |
| `Stream.StepEventsAppend` | app/api.py:84-113 | States are reported one after another, in order. The events for a run split at any point are the events for the first part followed by those for the rest. |
| `Stream.StepEventsOfOne` | app/api.py:85-113 | A single non-empty state gives exactly its classification: one event, or none when its last message is human. |
| `Stream.StepEventsSnoc` | app/api.py:84-113 | Appending one state to a run appends exactly that state's event, or nothing for a human message. So the events are the classifications of the non-human states, one each, in order. |
| `Stream.StreamEvents` | app/api.py:77-80 | The first event is always `new_thread` with the thread id, and it is never repeated. |
| `Stream.ErrorIsTerminal` | app/api.py:114-116 | At most one `error` event is sent, and nothing follows it. |
| `Stream.ErrorReportsFailure` | app/api.py:83-116 | When no state is empty, the stream ends with an `error` event exactly when the run raised. That event carries what the run raised. |
| `Stream.NormalRunEndsWithFinalAnswer` | app/api.py:94-97 | A run that ends normally makes the stream's last event `final_answer`, carrying the last answer's content. |
| `Stream.StreamClosesAsRunEnds` | app/api.py:83-116 | A run ending normally on a final answer closes its stream with `final_answer` carrying that answer and no `error` event anywhere. A failed run closes its stream with `error` carrying the failure. |
| `Stream.StreamGenerator` | app/api.py:77-118 | The imperative generator yields exactly `StreamEvents`. It starts with `new_thread`, and an error can only be its last event. |
| `Api.ThreadIdFor` | app/api.py:71 | The request's thread id is used when it is present and non-empty. Otherwise the freshly generated id is used. |
| `Api.Resume` | app/api.py:72-75 | A turn starts from the thread's stored messages followed by the new human message, or from that message alone on a new thread. |
| `Api.Checkpoint` | app/graph.py:207-208 | After a turn, the thread holds the last state the run reached. Other threads are untouched. |
| `Api.ChatStream` | app/api.py:65-121 | `/chat/stream` yields the stream of the supervisor run for the resolved thread id and stores the result. The first event is `new_thread`, and every non-error event carries the same thread id. |
| `Api.ChatInvoke` | app/api.py:124-142 | `/chat/invoke` fails exactly when the run raised, with the same error. Otherwise it returns the resolved thread id and the content of the final state's last message, which is a tool-call-free assistant message. |
| `Api.InvokeAgreesWithStream` | app/api.py:137-142 | For the same turn, `/chat/invoke`'s answer is what the stream's closing `final_answer` carries, and then the stream has no error. If invoke fails, the stream closes with an `error` event carrying the same text. |
| `Api.NextTurnSeesPreviousTurn` | app/graph.py:207-208 | A second turn on a thread starts from everything the first turn started from, then what the first run appended, then the new query. Other threads are not touched. |
| `Scenarios.OrderStatusStream` | app/api.py:77-118 | Scripted order-status question: the stream is `new_thread`, then `supervisor_plan` for `orders_team_tool` with the delegated query, then `team_report` with the team's answer, then `final_answer`. |
| `Scenarios.UnrelatedQuestionStream` | app/api.py:77-118 | A question the model answers at once yields only `new_thread` and one `final_answer`, whatever the thread held before. |

## Left out

- The tool implementations: HTTP calls, random choices, the Airtable client and the Slack
  webhook. Tools are abstract name → (payload | error) functions. Their names and the
  team each belongs to are kept (`Teams.CompileTeams`).
- JSON serialisation of tool outputs (`json.dumps`) and of event payloads. A tool's
  payload is taken as already serialised. An event's fields are kept and the
  `event: X\ndata: ...` framing is abstract.
- The language-model client, the prompts and credential loading. Each graph's model is an
  oracle parameter already bound to its prompt and tool schemas. A call that raises is a
  decision `OracleFailed(e)`.
- Timeouts, async execution and streaming mechanics, `print` logging, the mock workflow
  fallback, the FastAPI app, CORS, the static page and `/health`.
- The step budget. Runs take a `fuel` bound on agent steps. Running out yields the model's
  own error text `StepLimitError`. The library's own recursion limit and its error text
  are not part of this model.
- The checkpointer's internals. The store is a map from thread id to messages, holding the
  last state a run reached. Concurrent requests on one thread are not modelled.
- The message reducer is modelled as plain append. Its replacement of messages that
  share an id is not modelled.
- Argument values other than strings and null. A non-string `query` passed to a team tool
  is not modelled.
- The printed form of an unknown message kind is carried as an opaque string. Message
  content is always text; structured content blocks are not modelled.
- Messages.KeyErrorText: follows Python's `repr` for ASCII text only. Non-ASCII characters that Python
  counts as non-printable (such as U+0085 or U+2028) are escaped by Python but kept as they are
  here, because the model does not include the Unicode printability table.
- `run_test.py` only prints and repeats the stream classification, so it is not modelled.
