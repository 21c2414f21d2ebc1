# mcp-windows-agent: the slot-filling dialogue orchestrator, in Dafny

This project models the conversation state machine of `langgraph_agent.py` and the `/chat`
handler of `main.py`. On each request the handler does the following:

- It picks the user's message and normalises the session id.
- It creates the session, or appends the message to the stored session.
- It runs one pass of the compiled LangGraph graph:
  - `check_chitchat` answers small talk;
  - `extract` asks the backend model which tool to call;
  - `ask_param` asks for missing parameters;
  - `call_tool` dispatches to the tool registry.
- It writes the resulting state back and replies with the last assistant message.

The model has four layers:

- `Agent` (agent.dfy) is the value model. The session state is a datatype. Each node is a
  function from state to `Outcome` (`Ok(state)` or `Raised`). The router and the graph's edge
  table are functions. A pass (`Run`, `Follow`, `Invoke`) runs nodes until an edge ends the pass,
  a node raises, or LangGraph's recursion limit (25 node runs) is spent.
- `AgentProperties` (agent_properties.dfy) proves what the nodes and a pass do:
  - the messages each node appends;
  - the session invariant every node keeps;
  - how the missing parameters shrink;
  - the shape of a pass, and the ways it fails to finish;
  - the router's quirks.
- `Graph` (graph.dfy) is the same machine run in place. The state dictionary is a class whose
  fields the nodes assign. Its message list is a separate object, and every copy of the
  dictionary shares it (`{**state, ...}` copies the reference). The graph's run loop (`Drive`)
  is proved to compute exactly `Agent.Run`, including the transcript a failed pass leaves behind
  in the shared list.
- `Server` (server.dfy) models `/chat`. On values, `ChatTurn` is one request against the store.
  In place, `SessionStore.Chat` works on the stored dictionaries and is proved to agree with
  `ChatTurn`. The properties of the session store are stated about `ChatTurn`.

`Common` and `Text` (common.dfy) hold `Option` and the few Python `str` operations the core
uses: `strip()`, ASCII `lower()` and `join`.

Things outside the core are parameters: the backend model, the chit-chat classifier, the tools,
`uuid4()` and the text of exceptions and tracebacks. The type `Agent.Oracles` bundles
the backend, the classifier, the tools (`tool`, and `rawFindFile` with `findFileArgError` for
find_file), Python's `str()` of a list (`showList`) and the traceback text. The classifier
gives its verdict on the stripped message, or `None` when its request raises. The backend is a function of the message window it is sent (the last four
messages). Its decoded reply has one of three shapes:

- `Call(name, args)`: the JSON object has a `"function"` key.
- `FreeText(content, args)`: it has no such key. A reply that is not JSON becomes
  `{"content": text}`.
- `Malformed`: call_llama raised (the POST failed, or the response body is not JSON), or the decoded value makes the node's dictionary access raise.

## Model

| member | source | states |
|---|---|---|
| Agent.Window | langgraph_agent.py:37 | the backend sees the whole transcript up to four messages, and exactly the last four beyond that |
| Agent.BuildInitialState | langgraph_agent.py:237-247 | a new session holds only the user's message, with no pending call, no collected parameters, no missing names, a zero retry counter, no resolved function and no call parameters |
| Agent.CheckChitchat | langgraph_agent.py:85-95 | the node raises exactly on an empty transcript or when the classifier's backend request raises (it sits outside is_chitchat's `try`); otherwise it changes nothing but the transcript and the pending function |
| Agent.IsMissing | langgraph_agent.py:97-103 | is_missing; what it decides is stated by `Agent.IsMissingExactly` |
| Agent.IsMissingExactly | langgraph_agent.py:97-103 | a parameter value is missing exactly when it is null, blank, `none`/`null` in any case, or contains `<` |
| Agent.ToMapSpec | langgraph_agent.py:110 | the parameters object read as a dictionary holds exactly the object's keys, each with its own value |
| Agent.MissingKeys | langgraph_agent.py:111 | the missing-argument list of extract; its order and membership are stated by `Agent.MissingKeysSpec` |
| Agent.MissingKeysSpec | langgraph_agent.py:111 | the missing keys are the object's keys whose values are missing, in the object's order, each once |
| Agent.StillMissing | langgraph_agent.py:147-150 | the still-missing list of ask_param; its order and membership are stated by `Agent.StillMissingSpec` |
| Agent.StillMissingSpec | langgraph_agent.py:147-150 | the still-missing names keep their order and are exactly the previously missing names that are absent or still missing; none is left exactly when every one is supplied |
| Agent.ExtractFunction | langgraph_agent.py:105-141 | extract raises exactly when the backend's reply is malformed; otherwise it keeps the session id and extends the transcript by at most one message (its three outcomes: `AgentProperties.ExtractOutcomes`) |
| Agent.FillMissingParam | langgraph_agent.py:143-176 | ask_param raises exactly when the backend's reply is malformed; otherwise the collected parameters are the old ones updated with the reply's, the session id is kept and the transcript grows by at most one message (its outcomes: `AgentProperties.FillShrinksMissingInOrder`, `FillResolves`, `FillGivesUpAfterOneAttempt`, `StillNeedOnlyFromNegativeRetry`) |
| Agent.FindFile | langgraph_agent.py:10-12 | the find_file wrapper keeps a prefix of at most ten results: all of them when there are at most ten, otherwise the first ten |
| Agent.UnknownTool | langgraph_agent.py:182-189 | an unregistered name is reported as a reply starting `Error: Unknown tool: ` followed by the name |
| Agent.ErrorText | langgraph_agent.py:186-189 | the reply for a failure: `Error: `, the message, and the traceback text (its prefix for an unknown name: `Agent.UnknownTool`) |
| Agent.ToolReply | langgraph_agent.py:178-190 | a name outside the six registered tools gives the unknown-tool error. find_file replies with its truncated result list when its keyword arguments bind (`filename`, and optionally `search_path`, defaulting to the wrapper's path), and with the binding error and traceback otherwise. Any other registered tool replies with its result, or with the error it raised and the traceback |
| Agent.CallTool | langgraph_agent.py:178-191 | call_tool appends exactly one assistant message, the tool's reply, and changes nothing else |
| Agent.Router | langgraph_agent.py:193-203 | router; what it decides in a pass is stated by `AgentProperties.RetryCapNeverDecides`, `FalsyNameLoopsOnExtract`, `ExtractStep` and `AskParamStep` |
| Agent.NextEdge | langgraph_agent.py:218-234 | the edges init_graph wires; stated through `AgentProperties.Step` and `RunIsOnePass` |
| Agent.Run | langgraph_agent.py:211-235 | a pass from a node with a budget of node runs; its shape is stated by `AgentProperties.RunIsOnePass`, `PassShape` and `RunKeepsWellFormed` |
| Agent.Follow | langgraph_agent.py:218-234 | the rest of a pass after one node ran; stated together with `Agent.Run` |
| Agent.Invoke | langgraph_agent.py:211-218 | `workflow.invoke` from check_chitchat under the limit of 25; stated by `AgentProperties.PassShape`, `FalsyCallExhaustsInvoke` and `FalsyAskExhaustsInvoke` |
| AgentProperties.ChitchatLabelsTurn | langgraph_agent.py:73-95 | on a non-empty transcript the node raises exactly when the classifier's request does; small talk gets exactly the canned answer and the end marker; anything else clears the pending call and leaves the transcript alone |
| AgentProperties.ExtractOutcomes | langgraph_agent.py:105-141 | extract raises only on a malformed reply. Missing arguments give one "Please provide" prompt, a pending call, the collected arguments, their missing names and a zero counter. A complete call is resolved with no message. Free text is said (or the apology) and ends the pass |
| AgentProperties.FalsyNameLoopsOnExtract | langgraph_agent.py:197-198 | a function name Python finds falsy routes extract back to itself |
| AgentProperties.FalsyCompleteCallHitsRecursionLimit | langgraph_agent.py:223-228 | with a falsy name and nothing missing, extract re-runs on an unchanged transcript; the backend, seeing the same window, gives the same falsy call each time, and the recursion limit stops the pass |
| AgentProperties.FalsyAskHitsRecursionLimit | langgraph_agent.py:113-123 | a backend that names a falsy function with an argument missing, whatever it is sent, makes extract ask once per run, until the recursion limit stops the pass with every prompt in the transcript |
| AgentProperties.FillShrinksMissingInOrder | langgraph_agent.py:145-150 | after a fill the collected parameters are the merge of the old ones with the reply's, and the missing names are the old ones, in order, less those now supplied |
| AgentProperties.FillResolves | langgraph_agent.py:152-159 | when nothing is missing, the pending function and the merged parameters become the resolved call, with no message and a zero counter |
| AgentProperties.FillGivesUpAfterOneAttempt | langgraph_agent.py:161-170 | from a non-negative counter, one failed fill counts one retry, apologises once listing the missing names, and ends the branch |
| AgentProperties.StillNeedOnlyFromNegativeRetry | langgraph_agent.py:161-175 | ask_param says "Still need" exactly when its counter starts negative and names stay missing; from a counter of zero or more it never does |
| AgentProperties.StillNeedWitness | langgraph_agent.py:172-175 | a concrete state with counter -1 whose fill says "Still need"; no session has a negative counter (`AgentProperties.InitialStateWellFormed`, `NodeKeepsWellFormed`), so no session reaches the prompt |
| AgentProperties.AllSuppliedNothingMissing | langgraph_agent.py:147-152 | a reply supplying a usable value for every missing name leaves none missing |
| AgentProperties.FillConverges | langgraph_agent.py:143-159 | a reply that supplies every missing name resolves the call, and the graph then goes to call_tool |
| AgentProperties.CallToolAnswersOnce | langgraph_agent.py:178-191 | call_tool appends one assistant message, never raises, keeps the parameters and the pending call, and reports an unregistered name as an unknown tool |
| AgentProperties.InitialStateWellFormed | langgraph_agent.py:237-247 | a new session satisfies the session invariant |
| AgentProperties.ChitchatKeeps | langgraph_agent.py:85-95 | check_chitchat appends only assistant messages; on a well-formed state it raises exactly when the classifier's request does, and otherwise keeps the invariant and the session id |
| AgentProperties.ExtractAskKeeps | langgraph_agent.py:113-123 | asking for missing arguments leaves a well-formed state: distinct missing names, each collected and missing |
| AgentProperties.ExtractKeeps | langgraph_agent.py:105-141 | extract appends only assistant messages and keeps a well-formed session well formed |
| AgentProperties.FillStillMissingKeeps | langgraph_agent.py:161-176 | a fill that leaves names missing keeps the session invariant |
| AgentProperties.FillKeeps | langgraph_agent.py:143-176 | ask_param appends only assistant messages and keeps a well-formed session well formed |
| AgentProperties.NodeKeepsWellFormed | langgraph_agent.py:213-216 | every node keeps the session invariant and the session id, and only extends the transcript; check_chitchat on a well-formed state raises exactly when the classifier's request does |
| AgentProperties.RunKeepsWellFormed | langgraph_agent.py:211-235 | a pass that finishes keeps the session invariant and the session id, and only extends the transcript |
| AgentProperties.NodeAppendsAssistantOnly | langgraph_agent.py:213-216 | every node appends only assistant messages |
| AgentProperties.RunAppendsAssistantOnly | langgraph_agent.py:211-235 | whether a pass finishes or fails, the transcript it leaves is the one it was given followed by assistant messages only |
| AgentProperties.RetryCapNeverDecides | langgraph_agent.py:199-202 | the router's cap of three retries never decides anything: after extract, or a fill from a non-negative counter, the router ends only on the end marker |
| AgentProperties.ChitchatStep | langgraph_agent.py:219-222 | check_chitchat either ends the pass having appended exactly one answer, or hands the same window to extract having appended nothing |
| AgentProperties.ExtractStep | langgraph_agent.py:223-228 | extract ends the pass having appended at most one answer, goes to ask_param having asked once, or goes to call_tool silently; it never takes the unmapped route |
| AgentProperties.AskParamStep | langgraph_agent.py:229-233 | ask_param from a pending call and a non-negative counter either resolves and goes to call_tool or apologises once and ends; it never takes the route to extract, which its edge table does not map |
| AgentProperties.CallToolStep | langgraph_agent.py:234 | call_tool answers once and ends |
| AgentProperties.Step | langgraph_agent.py:211-235 | every step of the graph moves forward in the pipeline check_chitchat, extract, ask_param, call_tool |
| AgentProperties.RunIsOnePass | langgraph_agent.py:211-235 | from any node that is ready, a pass runs the remaining nodes in pipeline order, each at most once. It fails only when a node raises, and appends between that node's fewest and most messages |
| AgentProperties.PassShape | langgraph_agent.py:211-235 | unless the backend names a falsy function, a pass never meets the recursion limit or the unmapped route, fails only when a node raises, and appends at most two assistant messages |
| AgentProperties.FalsyCallExhaustsInvoke | langgraph_agent.py:223-228 | a falsy name with nothing missing, repeated by the backend on the unchanged window, runs extract 24 times and stops at the recursion limit with the transcript unchanged |
| AgentProperties.FalsyAskExhaustsInvoke | langgraph_agent.py:223-228 | a backend that always names a falsy function with an argument missing runs extract 24 times; the pass stops at the recursion limit, leaving 24 more assistant messages in the transcript |
| AgentProperties.ChitchatEndsTurn | langgraph_agent.py:219-222 | small talk ends the pass after check_chitchat with the canned answer; no tool runs |
| AgentProperties.CompleteCallDispatchesOnce | langgraph_agent.py:124-133 | a complete call with a real name runs check_chitchat, extract and call_tool, dispatches once, and the tool's reply is the one message added |
| AgentProperties.ResolvedCallRun | langgraph_agent.py:223-234 | from extract, a complete call with a real name runs call_tool once and finishes |
| AgentProperties.EndNameEndsSilently | langgraph_agent.py:195-196 | a complete call naming the end marker itself resolves and ends the pass without adding any message |
| AgentProperties.PendingCallForgotten | langgraph_agent.py:93-94 | a pass does not depend on the stored pending function: a follow-up turn re-extracts instead of resuming at ask_param |
| Text.StripSpec | langgraph_agent.py:86 | `strip()` removes exactly the leading and trailing whitespace, and the result neither starts nor ends with whitespace |
| Text.StripBlank | langgraph_agent.py:100 | a text strips to nothing exactly when it is all whitespace |
| Text.StripIdempotent | main.py:21 | stripping twice is stripping once |
| Graph.Transcript.Append | langgraph_agent.py:88-91 | appending to the message list adds one message at the end |
| Graph.AgentState.constructor | langgraph_agent.py:25-33 | a dictionary holding the given message list and the given values for the other keys |
| Graph.CheckChitchat | langgraph_agent.py:85-95 | check_chitchat in place computes exactly `Agent.CheckChitchat` and keeps the message list |
| Graph.ExtractFunction | langgraph_agent.py:105-141 | extract in place computes exactly `Agent.ExtractFunction`. It updates the dictionary it was given, or returns a new one sharing its message list and leaves the one it was given as it was |
| Graph.FillMissingParam | langgraph_agent.py:143-176 | ask_param in place computes exactly `Agent.FillMissingParam`, merging into the collected parameters in place: the dictionary it was given holds the merged parameters too, and otherwise keeps its keys when a new one is returned |
| Graph.CallTool | langgraph_agent.py:178-191 | call_tool in place computes exactly `Agent.CallTool` |
| Graph.RunNode | langgraph_agent.py:213-216 | running a node label in place computes exactly `Agent.RunNode`, and the result shares the message list |
| Graph.Advance | langgraph_agent.py:218-234 | one step of the run loop: it stops with the result `Agent.Run` gives, or goes on where what is left of the pass equals what was left before |
| Graph.Drive | langgraph_agent.py:211-235 | the run loop yields exactly the outcome of `Agent.Run`. A failed pass leaves in the shared list exactly the transcript `Agent.Run` reports |
| Graph.Execute | langgraph_agent.py:211-235 | the graph runs on its own dictionary that shares the input's message list; the input's message list ends up holding the transcript of the pass |
| Graph.Invoke | langgraph_agent.py:218 | `workflow.invoke` from check_chitchat under the recursion limit yields exactly `Agent.Invoke` |
| Server.PickMessage | main.py:20 | the message is `user_input` when truthy, else `message` when truthy, else empty |
| Server.SessionIdFor | main.py:21-25 | the stripped id sent is kept unless it is blank or a reserved word in any case, which gives the fresh id |
| Server.SessionIdUsable | main.py:21-25 | with a usable fresh id the handler always works with a usable id, never `default` |
| Server.SessionIdRoundTrip | main.py:21-25 | sending back the id the handler works with reaches the same session |
| Server.AnsweredIdRoundTrip | main.py:21-40 | sending back the id a response names reaches the session that request worked on, unless the response names `default` |
| Server.FailedTurnStrandsSession | main.py:30-45 | when the pass raises, the user's message stays stored under the session id, but the response names `default`, and sending that back gets a new id |
| Server.LastAssistantReply | main.py:38 | the reply picked from the final transcript; stated by `Server.LastAssistantReplySpec` |
| Server.LastAssistantReplySpec | main.py:38 | the reply is the content of the last assistant message, or empty when no message is the assistant's |
| Server.TurnInput | main.py:30-33 | the state a pass starts from ends with the user's message: the stored session's transcript followed by it, every other key as stored, or a new session when no dictionary is stored under the id |
| Server.Settle | main.py:35-45 | writing a pass back; stated by `Server.SettleReply`, `SettleKeepsTail`, `SettleKeepsStoreWellFormed` and `DefaultMeansFailure` |
| Server.ChatTurn | main.py:14-45 | one request against the store; stated by `Server.ChatTouchesOneSession`, `BadRequestChangesNothing`, `DefaultMeansFailure`, `TranscriptOnlyGrows`, `ReplyIsLastAssistantMessage` and `ChatKeepsStoreWellFormed` |
| Server.ChatTouchesOneSession | main.py:30-36 | a request changes at most the entry under its own session id |
| Server.BadRequestChangesNothing | main.py:27-28 | an unreadable body or an empty message leaves the store as it was, and an empty message is answered with the prompt for one |
| Server.DefaultMeansFailure | main.py:42-45 | the response names the session `default` exactly when the body was unreadable or the pass raised |
| Server.SettleKeepsTail | main.py:35-36 | writing back a pass that appended only assistant messages stores the input's transcript followed by those messages |
| Server.TranscriptOnlyGrows | main.py:30-36 | a request with a message stores, under its session id, the old transcript, then the user's message, then assistant messages only |
| Server.FreshIdStartsNewSession | main.py:24-31 | a fresh id not in the store starts a new session holding only the user's message |
| Server.EndNameRepeatsLastAnswer | main.py:35-40 | when the backend returns a complete call to the end marker, the handler replies with the previous turn's answer again (empty on a new session) |
| Server.SettleReply | main.py:36-40 | writing back a successful pass answers with the last assistant message stored, which is the newest message whenever the pass added one |
| Server.ReplyIsLastAssistantMessage | main.py:35-40 | on success the reply names the session and is the last assistant message stored under it, this turn's answer whenever the pass said anything |
| Server.SettleKeepsStoreWellFormed | main.py:35-36 | writing back a pass that kept the invariant keeps every stored session well formed and filed under its own id |
| Server.ChatKeepsStoreWellFormed | main.py:14-45 | requests keep every stored session well formed and filed under its own id |
| Server.SessionStore.constructor | main.py:8 | the store starts empty |
| Server.SessionStore.Admit | main.py:30-33 | creates the session, or appends the user's message to the stored list in place; the store then holds exactly the turn's input under the id |
| Server.SessionStore.RunPass | main.py:35 | runs the pass on the stored dictionary, which changes no other session's messages, and yields exactly `Agent.Invoke` |
| Server.SessionStore.Replace | main.py:36 | overwrites the entry under the id and leaves every other entry as it was |
| Server.SessionStore.Record | main.py:36-45 | after a pass, writes the final state back and answers with its last assistant message, or answers with the error and the `default` id |
| Server.SessionStore.Converse | main.py:30-40 | admitting the message, running the pass and recording it yields exactly what `Settle` says |
| Server.SessionStore.Chat | main.py:14-45 | handling a request in place gives exactly the response and the store `ChatTurn` describes, and keeps sessions from sharing message lists |

## Left out

- HTTP, FastAPI and JSON decoding are not modelled. A body that is not a JSON object, or whose `.get` raises, is `None` in `Server.ChatTurn`. `print` calls are not modelled.
- call_llama (`langgraph_agent.py:36-71`) and is_chitchat (`langgraph_agent.py:73-83`) are not modelled. Their prompt text, the HTTP call and the JSON decoding are replaced by the oracles `llm` and `isChitchat`. Each is a function of what it is given, so sampling nondeterminism is not captured. Their failure paths are kept: a request that raises (a failed POST, a body that is not JSON) is `Malformed` for `llm` and `None` for `isChitchat`, and the node then raises.
- The tools are not modelled. `tools/windows_service.py`, `tools/registry_tool.py` and `tools/file_search.py` are oracles (`tool`, `rawFindFile`). Python's `str()` of a list is the oracle `showList`. The message of the TypeError raised when keyword arguments do not fit find_file is the oracle `findFileArgError`; whether they fit is modelled.
- `uuid4()` is the parameter `freshId`. The text of an exception is the parameter `errorText`. `traceback.format_exc()` is the oracle field `traceback`.
- gradio-ui.py and run.py are not part of this model.
- Agent.IsMissingExactly: parameter values are modelled as strings or null. A JSON number, boolean, list or object value is not modelled, and neither is its `str()` text.
- Server.PickMessage: `user_input` and `message` are modelled as strings or absent. A truthy non-string value (a number, say) passes the empty-message check and is stored in the session; check_chitchat's `.strip()` then raises, and the handler answers with `default`. The model does not capture this. `AgentProperties.ChitchatKeeps` ties check_chitchat's raise to the classifier alone because messages are strings.
- Agent.ExtractFunction: a reply's `content` is modelled as a string or absent. A JSON `null` content would be appended as `None`, since `.get` applies its default only when the key is absent. The model says the apology instead.
- Agent.ToolReply: a function name is modelled as a string or null. A list or object name makes the registry lookup raise "unhashable type", and a number is reported as an unknown tool by its `str()` text. The model does not capture these.
- Dictionaries are maps, so insertion order is not kept. Nothing in the core reads a dictionary in order. The one ordered use, the list of missing names, is built from the argument object, which is kept as an ordered sequence of distinct keys.
- Text.Lower: lower-cases ASCII letters only. For the words the core compares against (`none`, `null`, `undefined`, `default`), Python's full Unicode `lower()` gives the same answers. Two non-ASCII characters lower-case to text containing an ASCII letter. The Kelvin sign maps to `k`, which none of these words contains. U+0130 maps to `i` followed by a combining dot, which is not ASCII, so the result cannot be one of these words.
- The router's `except` branch (`langgraph_agent.py:204-209`) is not modelled. Nothing in the router's `try` can raise on the state dictionaries the graph passes it.
- LangGraph's recursion limit is modelled as at most 25 node runs per pass. Running out is the failure `RecursionLimitReached`. When exactly LangGraph counts the limit is not modelled.
- The graph is modelled as exactly one node per step. LangGraph's channel machinery is not modelled. The graph copies its input into its own dictionary, which shares the message list, as `Graph.Execute` shows.
- Graph.FillMissingParam: when `collected_params` and `parameters` are the same dict object, `update` changes both. The model does not capture this. A resolved call's `parameters` share the collected dictionary, but every later turn replaces `collected_params` in extract before any fill merges into it, so the difference is not observable.
- Concurrency between requests is not modelled: one request runs at a time.

Behaviour of the code that the model keeps as written:

- Every turn enters at check_chitchat, which clears a pending call, so a follow-up turn re-extracts instead of resuming at ask_param (`AgentProperties.PendingCallForgotten`).
- The code has two retry thresholds, and only the first one acts:
  - fill_missing_param gives up after the first failed attempt (`AgentProperties.FillGivesUpAfterOneAttempt`);
  - the router's cap of three never decides anything (`AgentProperties.RetryCapNeverDecides`);
  - the "Still need" prompt is said only from a negative counter (`AgentProperties.StillNeedOnlyFromNegativeRetry`).
- call_tool puts the traceback text in the user-visible reply (`Agent.ErrorText`).
- The handler answers with the session id `default` for any exception, including a pass that raises (`Server.DefaultMeansFailure`).
- check_chitchat stores the end marker as the pending function after small talk. Every turn's check_chitchat sets it again: to the end marker on small talk, to nothing otherwise (`AgentProperties.ChitchatLabelsTurn`).
- When a pass raises, the response names `default` rather than the session the message was stored in. Sending `default` back gets a new id, so the client cannot reach that session again (`Server.FailedTurnStrandsSession`).
- When a pass raises, the handler does not write back, but the stored dictionary still holds the shared message list the pass appended to (`Server.Settle`, `Graph.Drive`).
- The comment on the find_file wrapper speaks of the top 3 results; the code keeps 10 (`Agent.FindFile`).
