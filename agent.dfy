/**
  The dialogue orchestrator of langgraph_agent.py, as values: the session state, the four graph
  nodes as transitions on that state, the router, the edges of the compiled graph, and one pass
  through the graph. The backend model, the chit-chat classifier and the tools are oracles.
 */
module Agent {
  import opened Common
  import opened Text

  datatype Role = User | Assistant

  datatype Message = Message(role: Role, content: string)

  /** A decoded JSON parameter value: `null` or a string (other JSON values are not modelled). */
  datatype Value = Null | Str(text: string)

  /** A parameter dictionary as a map (nothing in the core reads it in insertion order). */
  type Params = map<string, Value>

  predicate DistinctKeys(a: seq<(string, Value)>)
  {
    forall i, j :: 0 <= i < j < |a| ==> a[i].0 != a[j].0
  }

  /** A decoded JSON object of parameters, keys in the order the backend wrote them. */
  type Args = a: seq<(string, Value)> | DistinctKeys(a)

  /** What `call_llama` hands back once decoded. */
  datatype LlmReply =
    | Call(name: Option<string>, args: Args)          // an object with a "function" key
    | FreeText(content: Option<string>, args: Args)   // an object without one (a non-JSON reply becomes {"content": text})
    | Malformed                                       // the request or the JSON decoding raised, or the node's dictionary access on the value does

  /** What invoking a registered tool yields: its (stringified) return value or the message of what it raised. */
  datatype ToolOutcome = ToolResult(text: string) | ToolError(message: string)

  /** Everything outside the core that a pass consults. */
  datatype Oracles = Oracles(
    isChitchat: string -> Option<bool>,       // is_chitchat on the stripped last message; None when its call_llama raises
    llm: seq<Message> -> LlmReply,            // call_llama on the message window it actually sends
    tool: (string, Params) -> ToolOutcome,    // the registered tools, called with keyword arguments
    rawFindFile: (Value, Value) -> seq<string>, // tools/file_search.py's find_file(filename, path), which returns a list
    findFileArgError: Params -> string,       // the TypeError message when keyword arguments do not fit find_file's signature
    showList: seq<string> -> string,          // Python's str() of a list of strings
    traceback: string)                        // the text traceback.format_exc() gives

  /** AgentState; `resolvedFunction` is the source's `function` field. */
  datatype State = State(
    messages: seq<Message>,
    pendingFunction: Option<string>,
    collectedParams: Params,
    missingParams: seq<string>,
    sessionId: string,
    retryCount: int,
    resolvedFunction: Option<string>,
    parameters: Params)

  const EndMark := "__end__"
  const ChitchatReply := "Got it! Let me know if you need help with system tasks."
  const NotUnderstood := "Sorry, I didn't understand."
  const ApologyPrefix :=
    "I'm sorry, I still don't " + "have enough information to continue. " + "Missing parameters: "
  const UnknownToolPrefix := "Error: Unknown tool: "
  const FindFileLimit := 10
  const FindFileDefaultPath := "C:\\Users\\santo"
  /** LangGraph's default recursion limit: the most node runs one invocation may take. */
  const RecursionLimit: nat := 25
  const ToolNames: set<string> := {
    "is_service_running", "start_service", "stop_service",
    "find_file", "get_registry_value", "set_registry_value" }

  datatype Outcome<T> = Ok(value: T) | Raised

  /** Python truthiness of an optional name: `None` and `""` are falsy. */
  predicate Falsy(p: Option<string>)
  {
    p.None? || p.value == ""
  }

  /** Python's `str(value)`. */
  function PyStr(v: Value): string
  {
    match v
    case Null => "None"
    case Str(t) => t
  }

  predicate Distinct(s: seq<string>)
  {
    forall i, j :: 0 <= i < j < |s| ==> s[i] != s[j]
  }

  /** `a` is `b` with some elements left out, the rest in the same order. */
  ghost predicate Subseq(a: seq<string>, b: seq<string>)
    decreases |b|
  {
    a == [] || (b != [] && ((a[0] == b[0] && Subseq(a[1..], b[1..])) || Subseq(a, b[1..])))
  }

  lemma {:induction false} SubseqMembers(a: seq<string>, b: seq<string>)
    requires Subseq(a, b)
    ensures forall x :: x in a ==> x in b
    decreases |b|
  {
    if a != [] {
      if a[0] == b[0] && Subseq(a[1..], b[1..]) {
        SubseqMembers(a[1..], b[1..]);
        forall x | x in a ensures x in b {
          if x != a[0] {
            assert x in a[1..];
          }
        }
      } else {
        SubseqMembers(a, b[1..]);
      }
    }
  }

  lemma {:induction false} SubseqDistinct(a: seq<string>, b: seq<string>)
    requires Subseq(a, b) && Distinct(b)
    ensures Distinct(a)
    decreases |b|
  {
    if a != [] {
      if a[0] == b[0] && Subseq(a[1..], b[1..]) {
        SubseqDistinct(a[1..], b[1..]);
        SubseqMembers(a[1..], b[1..]);
        forall j | 0 < j < |a| ensures a[0] != a[j] {
          assert a[j] == a[1..][j - 1];
          assert a[j] in b[1..];
        }
      } else {
        SubseqDistinct(a, b[1..]);
      }
    }
  }

  /** is_missing: whether a parameter value still has to be asked for. */
  predicate IsMissing(v: Value)
  {
    v.Null? || Strip(PyStr(v)) == "" || Lower(PyStr(v)) in {"none", "null"} || '<' in PyStr(v)
  }

  /** A value is missing exactly when it is null, blank, "none" or "null" in any case, or
      contains a '<' placeholder. */
  lemma IsMissingExactly(v: Value)
    ensures IsMissing(v) <==>
      || v.Null?
      || AllSpace(v.text)
      || Lower(v.text) == "none" || Lower(v.text) == "null"
      || '<' in v.text
  {
    StripBlank(PyStr(v));
  }

  /** The keys of an argument object, in order. */
  function Keys(args: Args): seq<string>
  {
    seq(|args|, i requires 0 <= i < |args| => args[i].0)
  }

  /** The argument object as a dictionary. */
  function ToMap(args: Args): Params
  {
    if args == [] then map[] else ToMap(args[1..])[args[0].0 := args[0].1]
  }

  lemma KeysDistinct(args: Args)
    ensures Distinct(Keys(args))
    ensures args != [] ==> Keys(args) == [args[0].0] + Keys(args[1..]) && args[0].0 !in Keys(args[1..])
  {
    if args != [] {
      assert Keys(args) == [args[0].0] + Keys(args[1..]);
    }
  }

  /** The dictionary holds exactly the object's keys, each with its own value. */
  lemma {:induction false} ToMapSpec(args: Args)
    ensures forall k :: k in ToMap(args) ==> k in Keys(args)
    ensures forall i :: 0 <= i < |args| ==> args[i].0 in ToMap(args) && ToMap(args)[args[i].0] == args[i].1
  {
    if args != [] {
      ToMapSpec(args[1..]);
      KeysDistinct(args);
      assert forall i :: 0 < i < |args| ==> args[i] == args[1..][i - 1];
    }
  }

  /** `[k for k, v in args.items() if is_missing(v)]`. */
  function MissingKeys(args: Args): seq<string>
  {
    if args == [] then []
    else if IsMissing(args[0].1) then [args[0].0] + MissingKeys(args[1..])
    else MissingKeys(args[1..])
  }

  lemma {:induction false} MissingKeysSubseq(args: Args)
    ensures Subseq(MissingKeys(args), Keys(args))
  {
    if args != [] {
      MissingKeysSubseq(args[1..]);
      KeysDistinct(args);
      var rest := MissingKeys(args[1..]);
      var keys := Keys(args);
      assert keys[1..] == Keys(args[1..]);
      if IsMissing(args[0].1) {
        assert MissingKeys(args)[1..] == rest;
      }
    }
  }

  lemma {:induction false} MissingKeysMembers(args: Args)
    ensures forall k :: k in MissingKeys(args) <==> k in ToMap(args) && IsMissing(ToMap(args)[k])
  {
    if args != [] {
      MissingKeysMembers(args[1..]);
      MissingKeysSubseq(args[1..]);
      SubseqMembers(MissingKeys(args[1..]), Keys(args[1..]));
      KeysDistinct(args);
    }
  }

  /** The missing keys are the object's keys, in order, whose values are missing, each once. */
  lemma MissingKeysSpec(args: Args)
    ensures Subseq(MissingKeys(args), Keys(args))
    ensures Distinct(MissingKeys(args))
    ensures forall k :: k in MissingKeys(args) <==> k in ToMap(args) && IsMissing(ToMap(args)[k])
  {
    MissingKeysSubseq(args);
    MissingKeysMembers(args);
    KeysDistinct(args);
    SubseqDistinct(MissingKeys(args), Keys(args));
  }

  /** The names among `missing` that are absent from `collected` or still missing there. */
  function StillMissing(missing: seq<string>, collected: Params): seq<string>
  {
    if missing == [] then []
    else if missing[0] !in collected || IsMissing(collected[missing[0]]) then
      [missing[0]] + StillMissing(missing[1..], collected)
    else StillMissing(missing[1..], collected)
  }

  /** Still-missing names keep their order and are exactly those absent or still missing. */
  lemma {:induction false} StillMissingSpec(missing: seq<string>, collected: Params)
    ensures Subseq(StillMissing(missing, collected), missing)
    ensures forall k :: k in StillMissing(missing, collected) <==>
      k in missing && (k !in collected || IsMissing(collected[k]))
    ensures StillMissing(missing, collected) == [] <==>
      forall k :: k in missing ==> k in collected && !IsMissing(collected[k])
  {
    if missing != [] {
      StillMissingSpec(missing[1..], collected);
      assert missing == [missing[0]] + missing[1..];
    }
  }

  /** The message window `call_llama` sends: `messages[-4:]`. */
  function Window(ms: seq<Message>): (w: seq<Message>)
    ensures |ms| <= 4 ==> w == ms
    ensures |ms| > 4 ==> |w| == 4 && w == ms[|ms| - 4..]
  {
    if |ms| > 4 then ms[|ms| - 4..] else ms
  }

  /** Appends one assistant message to the transcript. */
  function Say(s: State, text: string): State
  {
    s.(messages := s.messages + [Message(Assistant, text)])
  }

  /** build_initial_state: a fresh session holding the first user message. */
  function BuildInitialState(userInput: string, sessionId: string): (s: State)
    ensures s.messages == [Message(User, userInput)]
    ensures s.pendingFunction == None && s.collectedParams == map[] && s.missingParams == []
    ensures s.retryCount == 0 && s.sessionId == sessionId
    ensures s.resolvedFunction == None && s.parameters == map[]
  {
    State([Message(User, userInput)], None, map[], [], sessionId, 0, None, map[])
  }

  /** check_chitchat. Indexing the last message raises on an empty transcript; the classifier's
      backend request raises outside its `try`. */
  function CheckChitchat(s: State, o: Oracles): (r: Outcome<State>)
    ensures r.Raised? <==> s.messages == [] || o.isChitchat(Strip(s.messages[|s.messages| - 1].content)).None?
    ensures r.Ok? ==> r.value.(messages := s.messages, pendingFunction := s.pendingFunction) == s
  {
    if s.messages == [] then Raised
    else
      match o.isChitchat(Strip(s.messages[|s.messages| - 1].content))
      case None => Raised
      case Some(true) => Ok(Say(s, ChitchatReply).(pendingFunction := Some(EndMark)))
      case Some(false) => Ok(s.(pendingFunction := None))
  }

  /** extract_function. */
  function ExtractFunction(s: State, o: Oracles): (r: Outcome<State>)
    ensures r.Raised? <==> o.llm(Window(s.messages)).Malformed?
    ensures r.Ok? ==> && s.messages <= r.value.messages && |r.value.messages| <= |s.messages| + 1
                      && r.value.sessionId == s.sessionId
  {
    match o.llm(Window(s.messages))
    case Malformed => Raised
    case FreeText(content, _) =>
      Ok(Say(s, content.GetOr(NotUnderstood)).(pendingFunction := Some(EndMark)))
    case Call(name, args) =>
      var missing := MissingKeys(args);
      if missing != [] then
        var t := s.(pendingFunction := name, collectedParams := ToMap(args),
                    missingParams := missing, retryCount := 0);
        Ok(Say(t, "Please provide: " + Join(missing, ", ")))
      else
        Ok(s.(resolvedFunction := name, parameters := ToMap(args), pendingFunction := name,
              collectedParams := ToMap(args), missingParams := [], retryCount := 0))
  }

  /** The `parameters` a reply carries (`{}` when it has none). */
  function ReplyArgs(r: LlmReply): Args
  {
    match r
    case Call(_, args) => args
    case FreeText(_, args) => args
    case Malformed => []
  }

  /** fill_missing_param. */
  function FillMissingParam(s: State, o: Oracles): (r: Outcome<State>)
    ensures r.Raised? <==> o.llm(Window(s.messages)).Malformed?
    ensures r.Ok? ==> && s.messages <= r.value.messages && |r.value.messages| <= |s.messages| + 1
                      && r.value.sessionId == s.sessionId
                      && r.value.collectedParams == s.collectedParams + ToMap(ReplyArgs(o.llm(Window(s.messages))))
  {
    var reply := o.llm(Window(s.messages));
    if reply.Malformed? then Raised
    else
      var merged := s.collectedParams + ToMap(ReplyArgs(reply));
      var still := StillMissing(s.missingParams, merged);
      if still == [] then
        Ok(s.(resolvedFunction := s.pendingFunction, parameters := merged, collectedParams := merged,
              missingParams := [], retryCount := 0))
      else
        var t := s.(collectedParams := merged, missingParams := still, retryCount := s.retryCount + 1);
        if t.retryCount >= 1 then
          Ok(Say(t, ApologyPrefix + Join(still, ", ") + ".").(pendingFunction := Some(EndMark)))
        else
          Ok(Say(t, "Still need: " + Join(still, ", ")))
  }

  /** The find_file wrapper: a list result is cut to its first ten entries. */
  function FindFile(raw: seq<string>): (r: seq<string>)
    ensures |r| <= FindFileLimit && |r| <= |raw|
    ensures r == raw[..|r|]
    ensures |raw| <= FindFileLimit ==> r == raw
    ensures |raw| >= FindFileLimit ==> |r| == FindFileLimit
  {
    if |raw| > FindFileLimit then raw[..FindFileLimit] else raw
  }

  /** Whether `find_file(**params)` binds: `filename` is given and nothing but `filename` and
      `search_path` is. */
  predicate FindFileBinds(params: Params)
  {
    "filename" in params && forall k :: k in params ==> k == "filename" || k == "search_path"
  }

  /** The search path find_file passes on: the one given, or the wrapper's default. */
  function SearchPath(params: Params): Value
  {
    if "search_path" in params then params["search_path"] else Str(FindFileDefaultPath)
  }

  /** The text of a failure as call_tool reports it. */
  function ErrorText(message: string, traceback: string): string
  {
    "Error: " + message + "\nTraceback:\n" + traceback
  }

  /** The error call_tool reports when the registry has no tool by that name. */
  function UnknownTool(fn: Option<string>, traceback: string): (r: string)
    ensures |r| >= |UnknownToolPrefix + PyStr(NameValue(fn))|
    ensures r[..|UnknownToolPrefix + PyStr(NameValue(fn))|] == UnknownToolPrefix + PyStr(NameValue(fn))
  {
    var head := UnknownToolPrefix + PyStr(NameValue(fn));
    assert "Error: " + ("Unknown tool: " + PyStr(NameValue(fn))) == head;
    var r := ErrorText("Unknown tool: " + PyStr(NameValue(fn)), traceback);
    assert r == head + ("\nTraceback:\n" + traceback);
    r
  }

  /** What call_tool says: the tool's result, or the error it (or the registry lookup) raised. */
  function ToolReply(fn: Option<string>, params: Params, o: Oracles): (r: string)
    ensures fn.None? || fn.value !in ToolNames ==> r == UnknownTool(fn, o.traceback)
    ensures fn == Some("find_file") && FindFileBinds(params) ==>
      r == o.showList(FindFile(o.rawFindFile(params["filename"], SearchPath(params))))
    ensures fn == Some("find_file") && !FindFileBinds(params) ==>
      r == ErrorText(o.findFileArgError(params), o.traceback)
    ensures fn.Some? && fn.value in ToolNames && fn.value != "find_file" ==>
      && (o.tool(fn.value, params).ToolResult? ==> r == o.tool(fn.value, params).text)
      && (o.tool(fn.value, params).ToolError? ==> r == ErrorText(o.tool(fn.value, params).message, o.traceback))
  {
    if fn.None? || fn.value !in ToolNames then
      UnknownTool(fn, o.traceback)
    else if fn.value == "find_file" then
      if FindFileBinds(params) then
        o.showList(FindFile(o.rawFindFile(params["filename"], SearchPath(params))))
      else
        ErrorText(o.findFileArgError(params), o.traceback)
    else
      match o.tool(fn.value, params)
      case ToolResult(text) => text
      case ToolError(message) => ErrorText(message, o.traceback)
  }

  function NameValue(fn: Option<string>): Value
  {
    if fn.None? then Null else Str(fn.value)
  }

  /** call_tool: appends the tool's reply and changes nothing else. */
  function CallTool(s: State, o: Oracles): (r: State)
    ensures |r.messages| == |s.messages| + 1 && r.messages[..|s.messages|] == s.messages
    ensures r.messages[|s.messages|] == Message(Assistant, ToolReply(s.resolvedFunction, s.parameters, o))
    ensures r.(messages := s.messages) == s
  {
    Say(s, ToolReply(s.resolvedFunction, s.parameters, o))
  }

  datatype Route = ToEnd | ToExtract | ToAskParam | ToCallTool

  /** router. */
  function Router(s: State): Route
  {
    if s.pendingFunction == Some(EndMark) then ToEnd
    else if Falsy(s.pendingFunction) then ToExtract
    else if s.missingParams != [] then
      if s.retryCount >= 3 then ToEnd else ToAskParam
    else ToCallTool
  }

  datatype Node = CheckChitchatNode | ExtractNode | AskParamNode | CallToolNode

  datatype Edge = Goto(node: Node) | Finish | Unmapped

  /** The edges init_graph wires after each node; a route missing from a node's path map is Unmapped. */
  function NextEdge(n: Node, s: State): Edge
  {
    match n
    case CheckChitchatNode =>
      if s.pendingFunction == Some(EndMark) then Finish else Goto(ExtractNode)
    case ExtractNode =>
      (match Router(s)
       case ToEnd => Finish
       case ToExtract => Goto(ExtractNode)
       case ToAskParam => Goto(AskParamNode)
       case ToCallTool => Goto(CallToolNode))
    case AskParamNode =>
      (match Router(s)
       case ToEnd => Finish
       case ToExtract => Unmapped
       case ToAskParam => Goto(AskParamNode)
       case ToCallTool => Goto(CallToolNode))
    case CallToolNode => Finish
  }

  function RunNode(n: Node, s: State, o: Oracles): Outcome<State>
  {
    match n
    case CheckChitchatNode => CheckChitchat(s, o)
    case ExtractNode => ExtractFunction(s, o)
    case AskParamNode => FillMissingParam(s, o)
    case CallToolNode => Ok(CallTool(s, o))
  }

  datatype Failure = NodeRaised | RecursionLimitReached | UnmappedRoute

  /** How a pass ends; a failed pass still leaves behind the transcript it had reached, since
      the nodes append to the one message list the session shares with the graph. */
  datatype PassOutcome = Done(state: State) | Failed(failure: Failure, transcript: seq<Message>)

  /** The result of a pass and the nodes it ran, in order. */
  datatype Pass = Pass(outcome: PassOutcome, trace: seq<Node>)

  /** Runs the graph from node `n` with at most `fuel` more node runs. */
  function Run(n: Node, s: State, o: Oracles, fuel: nat): Pass
    decreases fuel, 0
  {
    if fuel == 0 then Pass(Failed(RecursionLimitReached, s.messages), [])
    else Follow(n, RunNode(n, s, o), s, o, fuel - 1)
  }

  /** The rest of a pass once node `n` has run on `s` and given `step`, with `left` node runs to go. */
  function Follow(n: Node, step: Outcome<State>, s: State, o: Oracles, left: nat): Pass
    decreases left, 1
  {
    if step.Raised? then Pass(Failed(NodeRaised, s.messages), [n])
    else
      match NextEdge(n, step.value)
      case Finish => Pass(Done(step.value), [n])
      case Unmapped => Pass(Failed(UnmappedRoute, step.value.messages), [n])
      case Goto(m) =>
        var rest := Run(m, step.value, o, left);
        Pass(rest.outcome, [n] + rest.trace)
  }

  /** `workflow.invoke(state)`: one pass from the entry point. */
  function Invoke(s: State, o: Oracles): Pass
  {
    Run(CheckChitchatNode, s, o, RecursionLimit)
  }

  /** The state every session keeps between turns. */
  predicate WellFormed(s: State)
  {
    && |s.messages| > 0
    && s.retryCount >= 0
    && Distinct(s.missingParams)
    && forall k :: k in s.missingParams ==> k in s.collectedParams && IsMissing(s.collectedParams[k])
  }
}
