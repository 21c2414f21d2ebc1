/**
  The compiled graph of langgraph_agent.py as it runs: the state dictionary a pass works on is an
  object whose fields the nodes assign in place, and whose message list is a separate object that
  every copy of the dictionary shares (`{**state, ...}` copies the reference, and so does the
  graph when it takes its input). Each node and the whole pass are proved against the value model
  in module Agent.
 */
module Graph {
  import opened Common
  import opened Text
  import Agent

  /** A Python list of messages, appended to in place. */
  class Transcript {
    var items: seq<Agent.Message>

    constructor (items: seq<Agent.Message>)
      ensures this.items == items
    {
      this.items := items;
    }

    method Append(m: Agent.Message)
      modifies this
      ensures items == old(items) + [m]
    {
      items := items + [m];
    }
  }

  /** An AgentState dictionary. */
  class AgentState {
    var messages: Transcript
    var pendingFunction: Option<string>
    var collectedParams: Agent.Params
    var missingParams: seq<string>
    var sessionId: string
    var retryCount: int
    var resolvedFunction: Option<string>
    var parameters: Agent.Params

    /** A dictionary holding the list `messages` and, for every other key, the value `v` has. */
    constructor (messages: Transcript, v: Agent.State)
      ensures this.messages == messages
      ensures View() == v.(messages := messages.items)
    {
      this.messages := messages;
      pendingFunction := v.pendingFunction;
      collectedParams := v.collectedParams;
      missingParams := v.missingParams;
      sessionId := v.sessionId;
      retryCount := v.retryCount;
      resolvedFunction := v.resolvedFunction;
      parameters := v.parameters;
    }

    /** The dictionary's contents as a value. */
    function View(): Agent.State
      reads this, messages
    {
      Agent.State(messages.items, pendingFunction, collectedParams, missingParams, sessionId,
                  retryCount, resolvedFunction, parameters)
    }
  }

  /** check_chitchat, in place. */
  method CheckChitchat(state: AgentState, o: Agent.Oracles) returns (r: Agent.Outcome<AgentState>)
    modifies state, state.messages
    ensures r.Raised? <==> Agent.CheckChitchat(old(state.View()), o).Raised?
    ensures state.messages == old(state.messages)
    ensures r.Raised? ==> state.messages.items == old(state.messages.items)
    ensures r.Ok? ==> r.value == state
    ensures r.Ok? ==> state.View() == Agent.CheckChitchat(old(state.View()), o).value
  {
    var ms := state.messages.items;
    if ms == [] {
      return Agent.Raised;
    }
    var lastMsg := Strip(ms[|ms| - 1].content);
    var verdict := o.isChitchat(lastMsg);
    if verdict.None? {
      return Agent.Raised;
    }
    if verdict.value {
      state.messages.Append(Agent.Message(Agent.Assistant, Agent.ChitchatReply));
      state.pendingFunction := Some(Agent.EndMark);
    } else {
      state.pendingFunction := None;
    }
    return Agent.Ok(state);
  }

  /** extract_function: the missing-argument and free-text branches update `state` in place,
      the resolved branch returns a new dictionary sharing its message list. */
  method ExtractFunction(state: AgentState, o: Agent.Oracles) returns (r: Agent.Outcome<AgentState>)
    modifies state, state.messages
    ensures r.Raised? <==> Agent.ExtractFunction(old(state.View()), o).Raised?
    ensures state.messages == old(state.messages)
    ensures r.Raised? ==> state.messages.items == old(state.messages.items)
    ensures r.Ok? ==> (r.value == state || fresh(r.value)) && r.value.messages == old(state.messages)
    ensures r.Ok? ==> r.value.View() == Agent.ExtractFunction(old(state.View()), o).value
    ensures r.Ok? && r.value != state ==> state.View() == old(state.View())
  {
    ghost var s := state.View();
    var reply := o.llm(Agent.Window(state.messages.items));
    match reply
    case Malformed =>
      return Agent.Raised;
    case Call(name, args) =>
      var missing := Agent.MissingKeys(args);
      if missing != [] {
        state.pendingFunction := name;
        state.collectedParams := Agent.ToMap(args);
        state.missingParams := missing;
        state.retryCount := 0;
        state.messages.Append(Agent.Message(Agent.Assistant, "Please provide: " + Join(missing, ", ")));
        assert Agent.ExtractFunction(s, o) == Agent.Ok(state.View());
        return Agent.Ok(state);
      }
      var resolved := new AgentState(state.messages, state.View().(
        resolvedFunction := name, parameters := Agent.ToMap(args), pendingFunction := name,
        collectedParams := Agent.ToMap(args), missingParams := [], retryCount := 0));
      assert Agent.ExtractFunction(s, o) == Agent.Ok(resolved.View());
      return Agent.Ok(resolved);
    case FreeText(content, _) =>
      state.messages.Append(Agent.Message(Agent.Assistant, content.GetOr(Agent.NotUnderstood)));
      state.pendingFunction := Some(Agent.EndMark);
      assert Agent.ExtractFunction(s, o) == Agent.Ok(state.View());
      return Agent.Ok(state);
  }

  /** fill_missing_param: merges the reply's parameters into `collectedParams` in place, then
      either returns a new resolved dictionary or records what is still missing. */
  method FillMissingParam(state: AgentState, o: Agent.Oracles) returns (r: Agent.Outcome<AgentState>)
    modifies state, state.messages
    ensures r.Raised? <==> Agent.FillMissingParam(old(state.View()), o).Raised?
    ensures state.messages == old(state.messages)
    ensures r.Raised? ==> state.messages.items == old(state.messages.items)
    ensures r.Ok? ==> (r.value == state || fresh(r.value)) && r.value.messages == old(state.messages)
    ensures r.Ok? ==> r.value.View() == Agent.FillMissingParam(old(state.View()), o).value
    ensures r.Ok? ==> state.collectedParams == r.value.collectedParams
    ensures r.Ok? && r.value != state ==> state.View() == old(state.View()).(collectedParams := r.value.collectedParams)
  {
    ghost var s := state.View();
    var reply := o.llm(Agent.Window(state.messages.items));
    if reply.Malformed? {
      return Agent.Raised;
    }
    state.collectedParams := state.collectedParams + Agent.ToMap(Agent.ReplyArgs(reply));
    var still := Agent.StillMissing(state.missingParams, state.collectedParams);
    if still == [] {
      var resolved := new AgentState(state.messages, state.View().(
        resolvedFunction := state.pendingFunction, parameters := state.collectedParams,
        missingParams := [], retryCount := 0));
      assert Agent.FillMissingParam(s, o) == Agent.Ok(resolved.View());
      return Agent.Ok(resolved);
    }
    state.missingParams := still;
    state.retryCount := state.retryCount + 1;
    if state.retryCount >= 1 {
      state.messages.Append(Agent.Message(Agent.Assistant, Agent.ApologyPrefix + Join(still, ", ") + "."));
      state.pendingFunction := Some(Agent.EndMark);
      assert Agent.FillMissingParam(s, o) == Agent.Ok(state.View());
      return Agent.Ok(state);
    }
    state.messages.Append(Agent.Message(Agent.Assistant, "Still need: " + Join(still, ", ")));
    assert Agent.FillMissingParam(s, o) == Agent.Ok(state.View());
    return Agent.Ok(state);
  }

  /** call_tool: appends the tool's reply, or the error it raised, and never raises itself. */
  method CallTool(state: AgentState, o: Agent.Oracles)
    modifies state.messages
    ensures state.View() == Agent.CallTool(old(state.View()), o)
  {
    var reply := Agent.ToolReply(state.resolvedFunction, state.parameters, o);
    state.messages.Append(Agent.Message(Agent.Assistant, reply));
  }

  /** Runs the node a label names. */
  method RunNode(n: Agent.Node, state: AgentState, o: Agent.Oracles) returns (r: Agent.Outcome<AgentState>)
    modifies state, state.messages
    ensures r.Raised? <==> Agent.RunNode(n, old(state.View()), o).Raised?
    ensures state.messages == old(state.messages)
    ensures r.Raised? ==> state.messages.items == old(state.messages.items)
    ensures r.Ok? ==> (r.value == state || fresh(r.value)) && r.value.messages == old(state.messages)
    ensures r.Ok? ==> r.value.View() == Agent.RunNode(n, old(state.View()), o).value
  {
    match n
    case CheckChitchatNode =>
      r := CheckChitchat(state, o);
    case ExtractNode =>
      r := ExtractFunction(state, o);
    case AskParamNode =>
      r := FillMissingParam(state, o);
    case CallToolNode =>
      CallTool(state, o);
      r := Agent.Ok(state);
  }

  /** What `workflow.invoke` gives back: the final state, or the error it raised. */
  datatype PassResult = Finished(state: AgentState) | Aborted(failure: Agent.Failure)

  /** The pass outcome a result stands for, given the transcript the shared message list holds. */
  ghost function Reached(r: PassResult, transcript: seq<Agent.Message>): Agent.PassOutcome
    reads if r.Finished? then {r.state, r.state.messages} else {}
  {
    match r
    case Finished(state) => Agent.Done(state.View())
    case Aborted(failure) => Agent.Failed(failure, transcript)
  }

  /** After one step of the run loop: the pass goes on at `node` with `state`, or it is over. */
  datatype Move = Continue(node: Agent.Node, state: AgentState) | Stop(result: PassResult)

  /** One step of the run loop: gives up when no node runs are left, otherwise runs node `n` on
      `state` and follows the edge after it. What is left of the pass is what was left before. */
  method Advance(n: Agent.Node, state: AgentState, o: Agent.Oracles, fuel: nat) returns (m: Move)
    modifies state, state.messages
    ensures state.messages == old(state.messages)
    ensures m.Continue? ==>
      && fuel > 0 && (m.state == state || fresh(m.state)) && m.state.messages == state.messages
      && Agent.Run(m.node, m.state.View(), o, fuel - 1).outcome == Agent.Run(n, old(state.View()), o, fuel).outcome
    ensures m.Stop? ==>
      && (m.result.Finished? ==> (m.result.state == state || fresh(m.result.state)) && m.result.state.messages == state.messages)
      && Agent.Run(n, old(state.View()), o, fuel).outcome == Reached(m.result, state.messages.items)
  {
    if fuel == 0 {
      return Stop(Aborted(Agent.RecursionLimitReached));
    }
    var step := RunNode(n, state, o);
    if step.Raised? {
      return Stop(Aborted(Agent.NodeRaised));
    }
    var next := step.value;
    match Agent.NextEdge(n, next.View())
    case Finish =>
      return Stop(Finished(next));
    case Unmapped =>
      return Stop(Aborted(Agent.UnmappedRoute));
    case Goto(following) =>
      return Continue(following, next);
  }

  /** The graph's run loop from node `n` on the graph's own dictionary `state`, with `fuel` node
      runs left: runs nodes until an edge leads to END, a node raises, or the fuel is spent. */
  method Drive(n: Agent.Node, state: AgentState, o: Agent.Oracles, fuel: nat) returns (r: PassResult)
    modifies state, state.messages
    ensures state.messages == old(state.messages)
    ensures r.Finished? ==> (r.state == state || fresh(r.state)) && r.state.messages == state.messages
    ensures Reached(r, state.messages.items) == Agent.Run(n, old(state.View()), o, fuel).outcome
    decreases fuel
  {
    var m := Advance(n, state, o, fuel);
    if m.Stop? {
      return m.result;
    }
    r := Drive(m.node, m.state, o, fuel - 1);
  }

  /** Copies the input into the graph's own dictionary (sharing its message list) and drives the
      graph from `entry`. The input dictionary's own keys are never assigned; its message list
      ends up holding the transcript the pass reached, whether or not it succeeds. */
  method Execute(entry: Agent.Node, input: AgentState, o: Agent.Oracles, limit: nat) returns (r: PassResult)
    modifies input.messages
    ensures r.Finished? ==> fresh(r.state) && r.state.messages == input.messages
    ensures Reached(r, input.messages.items) == Agent.Run(entry, old(input.View()), o, limit).outcome
  {
    var own := new AgentState(input.messages, input.View());
    r := Drive(entry, own, o, limit);
  }

  /** workflow.invoke(input): a run from check_chitchat under LangGraph's default recursion limit. */
  method Invoke(input: AgentState, o: Agent.Oracles) returns (r: PassResult)
    modifies input.messages
    ensures r.Finished? ==> fresh(r.state) && r.state.messages == input.messages
    ensures Reached(r, input.messages.items) == Agent.Invoke(old(input.View()), o).outcome
  {
    r := Execute(Agent.CheckChitchatNode, input, o, Agent.RecursionLimit);
  }
}
