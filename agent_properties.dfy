/**
  What the orchestrator's nodes and graph promise: the messages each node appends, the session
  invariant every node keeps, the order-preserving shrinking of the missing names, the router's
  table as it plays out in a pass, and the termination and shape of one pass.
 */
module AgentProperties {
  import opened Common
  import opened Text
  import opened Agent

  /** `s2` holds the transcript of `s1` followed by exactly `k` assistant messages. */
  ghost predicate AppendsAssistant(s1: State, s2: State, k: nat)
  {
    && |s2.messages| == |s1.messages| + k
    && s2.messages[..|s1.messages|] == s1.messages
    && forall i :: |s1.messages| <= i < |s2.messages| ==> s2.messages[i].role == Assistant
  }

  lemma AppendsCompose(s1: State, s2: State, s3: State, k1: nat, k2: nat)
    requires AppendsAssistant(s1, s2, k1) && AppendsAssistant(s2, s3, k2)
    ensures AppendsAssistant(s1, s3, k1 + k2)
  {
    assert s3.messages[..|s1.messages|] == s3.messages[..|s2.messages|][..|s1.messages|];
  }

  /** `after` is `before` followed by assistant messages only. */
  predicate AssistantTail(before: seq<Message>, after: seq<Message>)
  {
    && before <= after
    && forall i :: |before| <= i < |after| ==> after[i].role == Assistant
  }

  lemma AssistantTailCompose(a: seq<Message>, b: seq<Message>, c: seq<Message>)
    requires AssistantTail(a, b) && AssistantTail(b, c)
    ensures AssistantTail(a, c)
  {
  }

  /** A reply naming a function whose name Python finds falsy. */
  predicate FalsyCall(r: LlmReply)
  {
    r.Call? && Falsy(r.name)
  }

  // ---------------------------------------------------------------- check_chitchat

  /** The node raises exactly when the classifier's request does. Small talk gets exactly one
      canned answer and ends the turn; anything else clears the pending call, whatever it was,
      and leaves the transcript alone. */
  lemma ChitchatLabelsTurn(s: State, o: Oracles)
    requires s.messages != []
    ensures CheckChitchat(s, o).Ok? <==> o.isChitchat(Strip(s.messages[|s.messages| - 1].content)).Some?
    ensures CheckChitchat(s, o).Ok? ==> var r := CheckChitchat(s, o).value;
      if o.isChitchat(Strip(s.messages[|s.messages| - 1].content)) == Some(true) then
        && AppendsAssistant(s, r, 1) && r.messages[|s.messages|].content == ChitchatReply
        && r.pendingFunction == Some(EndMark)
      else
        r.messages == s.messages && r.pendingFunction == None
  {
  }

  // ---------------------------------------------------------------- extract_function

  /** The three outcomes of extract_function, by the shape of the backend's reply. */
  lemma ExtractOutcomes(s: State, o: Oracles)
    ensures var reply := o.llm(Window(s.messages));
      var r := ExtractFunction(s, o);
      && (reply.Malformed? <==> r.Raised?)
      && (reply.Call? && MissingKeys(reply.args) != [] ==>
            && AppendsAssistant(s, r.value, 1)
            && r.value.messages[|s.messages|].content == "Please provide: " + Join(MissingKeys(reply.args), ", ")
            && r.value.pendingFunction == reply.name
            && r.value.collectedParams == ToMap(reply.args)
            && r.value.missingParams == MissingKeys(reply.args)
            && r.value.retryCount == 0
            && r.value.resolvedFunction == s.resolvedFunction && r.value.parameters == s.parameters)
      && (reply.Call? && MissingKeys(reply.args) == [] ==>
            && r.value.messages == s.messages
            && r.value.resolvedFunction == reply.name && r.value.pendingFunction == reply.name
            && r.value.parameters == ToMap(reply.args) && r.value.collectedParams == ToMap(reply.args)
            && r.value.missingParams == [] && r.value.retryCount == 0)
      && (reply.FreeText? ==>
            && AppendsAssistant(s, r.value, 1)
            && r.value.messages[|s.messages|].content == reply.content.GetOr(NotUnderstood)
            && r.value.pendingFunction == Some(EndMark)
            && r.value.(messages := s.messages, pendingFunction := s.pendingFunction) == s)
  {
  }

  /** A falsy function name sends the extract node back to itself, whether or not
      arguments are missing. */
  lemma FalsyNameLoopsOnExtract(s: State, o: Oracles)
    requires FalsyCall(o.llm(Window(s.messages)))
    ensures ExtractFunction(s, o).Ok?
    ensures Router(ExtractFunction(s, o).value) == ToExtract
    ensures NextEdge(ExtractNode, ExtractFunction(s, o).value) == Goto(ExtractNode)
  {
  }

  /** With a falsy name and nothing missing, extract leaves the transcript as it was, so the
      backend sees the same window again; since the backend is a function of its window, it
      gives the same falsy call each time, and the pass can only stop at the recursion limit. */
  lemma {:induction false} FalsyCompleteCallHitsRecursionLimit(s: State, o: Oracles, fuel: nat)
    requires var reply := o.llm(Window(s.messages)); FalsyCall(reply) && MissingKeys(reply.args) == []
    ensures Run(ExtractNode, s, o, fuel).outcome == Failed(RecursionLimitReached, s.messages)
    ensures Run(ExtractNode, s, o, fuel).trace == seq(fuel, _ => ExtractNode)
    decreases fuel
  {
    if fuel > 0 {
      var s1 := ExtractFunction(s, o).value;
      assert s1.messages == s.messages;
      FalsyNameLoopsOnExtract(s, o);
      FalsyCompleteCallHitsRecursionLimit(s1, o, fuel - 1);
      assert [ExtractNode] + seq(fuel - 1, _ => ExtractNode) == seq(fuel, _ => ExtractNode);
    }
  }

  /** A backend that names a falsy function with some argument missing, whatever it is sent, makes
      extract ask again and again: every run appends one more "Please provide" prompt, until the
      recursion limit stops the pass with all of them in the transcript. */
  lemma {:induction false} FalsyAskHitsRecursionLimit(s: State, o: Oracles, fuel: nat)
    requires forall w :: FalsyCall(o.llm(w)) && MissingKeys(o.llm(w).args) != []
    ensures var p := Run(ExtractNode, s, o, fuel);
      && p.outcome.Failed? && p.outcome.failure == RecursionLimitReached
      && |p.outcome.transcript| == |s.messages| + fuel
      && AssistantTail(s.messages, p.outcome.transcript)
      && p.trace == seq(fuel, _ => ExtractNode)
    decreases fuel
  {
    if fuel > 0 {
      var reply := o.llm(Window(s.messages));
      ExtractAskCase(s, o, reply.name, reply.args);
      FalsyNameLoopsOnExtract(s, o);
      var s1 := ExtractFunction(s, o).value;
      FalsyAskHitsRecursionLimit(s1, o, fuel - 1);
      var rest := Run(ExtractNode, s1, o, fuel - 1);
      assert Run(ExtractNode, s, o, fuel) == Pass(rest.outcome, [ExtractNode] + rest.trace);
      AssistantTailCompose(s.messages, s1.messages, rest.outcome.transcript);
      assert [ExtractNode] + seq(fuel - 1, _ => ExtractNode) == seq(fuel, _ => ExtractNode);
    }
  }

  // ---------------------------------------------------------------- fill_missing_param

  /** The names still missing after a fill are the previous ones, in the same order, less
      those the merged parameters now supply. */
  lemma FillShrinksMissingInOrder(s: State, o: Oracles)
    requires FillMissingParam(s, o).Ok?
    ensures var r := FillMissingParam(s, o).value;
      && Subseq(r.missingParams, s.missingParams)
      && r.collectedParams == s.collectedParams + ToMap(ReplyArgs(o.llm(Window(s.messages))))
      && forall k :: k in r.missingParams <==>
           k in s.missingParams && (k !in r.collectedParams || IsMissing(r.collectedParams[k]))
  {
    var merged := s.collectedParams + ToMap(ReplyArgs(o.llm(Window(s.messages))));
    StillMissingSpec(s.missingParams, merged);
  }

  /** When nothing is missing any more the call is resolved to the pending function and the
      merged parameters, and the retry counter starts again. */
  lemma FillResolves(s: State, o: Oracles)
    requires FillMissingParam(s, o).Ok?
    requires FillMissingParam(s, o).value.missingParams == []
    ensures var r := FillMissingParam(s, o).value;
      && r.messages == s.messages
      && r.resolvedFunction == s.pendingFunction && r.pendingFunction == s.pendingFunction
      && r.parameters == r.collectedParams && r.retryCount == 0
  {
  }

  /** With a non-negative retry counter a fill that leaves names missing always apologises once,
      counts one more retry and ends the conversation branch: the "Still need" prompt is never said. */
  lemma FillGivesUpAfterOneAttempt(s: State, o: Oracles)
    requires s.retryCount >= 0
    requires FillMissingParam(s, o).Ok?
    requires FillMissingParam(s, o).value.missingParams != []
    ensures var r := FillMissingParam(s, o).value;
      && r.retryCount == s.retryCount + 1
      && r.pendingFunction == Some(EndMark)
      && AppendsAssistant(s, r, 1)
      && r.messages[|s.messages|].content == ApologyPrefix + Join(r.missingParams, ", ") + "."
  {
  }

  /** ask_param appended a "Still need" prompt. */
  predicate SaysStillNeed(s: State, r: State)
  {
    |r.messages| == |s.messages| + 1 && "Still need: " <= r.messages[|s.messages|].content
  }

  /** ask_param says "Still need" exactly when the retry counter it starts from is negative and
      some names stay missing; from any counter of zero or more it never does. */
  lemma StillNeedOnlyFromNegativeRetry(s: State, o: Oracles)
    requires FillMissingParam(s, o).Ok?
    ensures var r := FillMissingParam(s, o).value;
      SaysStillNeed(s, r) <==> s.retryCount < 0 && r.missingParams != []
  {
    var still := StillMissing(s.missingParams, Merged(s, o));
    var r := FillMissingParam(s, o).value;
    if still != [] && s.retryCount >= 0 {
      FillApologyCase(s, o);
      var c := r.messages[|s.messages|].content;
      assert c == ApologyPrefix + (Join(still, ", ") + ".");
      assert c[0] == ApologyPrefix[0];
      assert !("Still need: " <= c);
    }
  }

  /** A state from which ask_param says "Still need": a counter of -1 and a backend reply that
      supplies nothing. No session has such a counter (`WellFormed` keeps it at zero or more), so
      no session reaches the prompt. */
  lemma StillNeedWitness(o: Oracles)
    requires o.llm([Message(User, "start a service")]) == FreeText(None, [])
    ensures var s := State([Message(User, "start a service")], Some("start_service"),
                           map["service_name" := Null], ["service_name"], "id", -1, None, map[]);
      FillMissingParam(s, o) == Ok(Say(s.(retryCount := 0), "Still need: service_name"))
  {
    var s := State([Message(User, "start a service")], Some("start_service"),
                    map["service_name" := Null], ["service_name"], "id", -1, None, map[]);
    assert Window(s.messages) == s.messages;
    var merged := s.collectedParams + ToMap([]);
    assert merged == s.collectedParams;
    assert IsMissing(merged["service_name"]);
    var still := StillMissing(s.missingParams, merged);
    assert still == ["service_name"] + StillMissing(s.missingParams[1..], merged);
    assert s.missingParams[1..] == [];
    assert still == s.missingParams;
    assert s.(collectedParams := merged, missingParams := still, retryCount := s.retryCount + 1)
        == s.(retryCount := 0);
    assert "Still need: " + Join(still, ", ") == "Still need: service_name";
  }

  /** Supplying a usable value for every missing name resolves the call, and the graph then
      dispatches it. */
  lemma FillConverges(s: State, o: Oracles)
    requires WellFormed(s)
    requires !Falsy(s.pendingFunction) && s.pendingFunction != Some(EndMark)
    requires var reply := o.llm(Window(s.messages));
      && !reply.Malformed?
      && forall k :: k in s.missingParams ==> k in ToMap(ReplyArgs(reply)) && !IsMissing(ToMap(ReplyArgs(reply))[k])
    ensures FillMissingParam(s, o).Ok?
    ensures FillMissingParam(s, o).value.missingParams == []
    ensures NextEdge(AskParamNode, FillMissingParam(s, o).value) == Goto(CallToolNode)
  {
    AllSuppliedNothingMissing(s, o);
    FillResolvedCase(s, o);
    assert Router(FillMissingParam(s, o).value) == ToCallTool;
  }

  lemma AllSuppliedNothingMissing(s: State, o: Oracles)
    requires var reply := o.llm(Window(s.messages));
      forall k :: k in s.missingParams ==> k in ToMap(ReplyArgs(reply)) && !IsMissing(ToMap(ReplyArgs(reply))[k])
    ensures StillMissing(s.missingParams, Merged(s, o)) == []
  {
    var supplied := ToMap(ReplyArgs(o.llm(Window(s.messages))));
    StillMissingSpec(s.missingParams, Merged(s, o));
    forall k | k in s.missingParams
      ensures k in Merged(s, o) && !IsMissing(Merged(s, o)[k])
    {
      assert Merged(s, o)[k] == supplied[k];
    }
  }

  // ---------------------------------------------------------------- call_tool

  /** call_tool answers exactly once, never fails, leaves the call's state alone, and reports
      an unregistered name as an unknown tool. */
  lemma CallToolAnswersOnce(s: State, o: Oracles)
    ensures var r := CallTool(s, o);
      && AppendsAssistant(s, r, 1)
      && r.collectedParams == s.collectedParams && r.missingParams == s.missingParams
      && r.pendingFunction == s.pendingFunction
      && (s.resolvedFunction.None? || s.resolvedFunction.value !in ToolNames ==>
            var c := r.messages[|s.messages|].content;
            var head := UnknownToolPrefix + PyStr(NameValue(s.resolvedFunction));
            |c| >= |head| && c[..|head|] == head)
  {
  }

  // ---------------------------------------------------------------- the session invariant

  lemma InitialStateWellFormed(userInput: string, sessionId: string)
    ensures WellFormed(BuildInitialState(userInput, sessionId))
  {
  }

  /** `r` continues session `s`: it is well formed, has the same id, and extends the transcript. */
  predicate Continues(s: State, r: State)
  {
    WellFormed(r) && r.sessionId == s.sessionId && s.messages <= r.messages
  }

  lemma ContinuesCompose(a: State, b: State, c: State)
    requires Continues(a, b) && Continues(b, c)
    ensures Continues(a, c)
  {
  }

  /** Saying something on top of an unchanged transcript appends one assistant message. */
  lemma SayTail(s: State, t: State, text: string)
    requires t.messages == s.messages
    ensures AssistantTail(s.messages, Say(t, text).messages)
    ensures AppendsAssistant(s, Say(t, text), 1)
  {
  }

  /** On a well-formed state check_chitchat raises only when the classifier's request does; it
      keeps the state well formed and says at most the canned answer. */
  lemma ChitchatKeeps(s: State, o: Oracles)
    ensures CheckChitchat(s, o).Ok? ==> AssistantTail(s.messages, CheckChitchat(s, o).value.messages)
    ensures WellFormed(s) ==>
      && (CheckChitchat(s, o).Ok? <==> o.isChitchat(Strip(s.messages[|s.messages| - 1].content)).Some?)
      && (CheckChitchat(s, o).Ok? ==> Continues(s, CheckChitchat(s, o).value))
  {
    if s.messages != [] && o.isChitchat(Strip(s.messages[|s.messages| - 1].content)) == Some(true) {
      SayTail(s, s, ChitchatReply);
    }
  }

  // Each outcome of extract and ask_param on its own: the state the node yields, and that it
  // appends only assistant messages and keeps a well-formed session well formed.

  lemma ExtractFreeTextCase(s: State, o: Oracles, content: Option<string>, args: Args)
    requires o.llm(Window(s.messages)) == FreeText(content, args)
    ensures var r := Say(s, content.GetOr(NotUnderstood)).(pendingFunction := Some(EndMark));
      && ExtractFunction(s, o) == Ok(r)
      && AppendsAssistant(s, r, 1) && AssistantTail(s.messages, r.messages)
  {
    SayTail(s, s, content.GetOr(NotUnderstood));
  }

  lemma ExtractAskCase(s: State, o: Oracles, name: Option<string>, args: Args)
    requires o.llm(Window(s.messages)) == Call(name, args) && MissingKeys(args) != []
    ensures var t := s.(pendingFunction := name, collectedParams := ToMap(args),
                        missingParams := MissingKeys(args), retryCount := 0);
      var r := Say(t, "Please provide: " + Join(MissingKeys(args), ", "));
      && ExtractFunction(s, o) == Ok(r)
      && AppendsAssistant(s, r, 1) && AssistantTail(s.messages, r.messages)
  {
    var t := s.(pendingFunction := name, collectedParams := ToMap(args),
                missingParams := MissingKeys(args), retryCount := 0);
    SayTail(s, t, "Please provide: " + Join(MissingKeys(args), ", "));
  }

  lemma ExtractAskKeeps(s: State, o: Oracles, name: Option<string>, args: Args)
    requires WellFormed(s)
    requires o.llm(Window(s.messages)) == Call(name, args) && MissingKeys(args) != []
    ensures Continues(s, ExtractFunction(s, o).value)
  {
    ExtractAskCase(s, o, name, args);
    MissingKeysSpec(args);
  }

  lemma ExtractResolvedCase(s: State, o: Oracles, name: Option<string>, args: Args)
    requires o.llm(Window(s.messages)) == Call(name, args) && MissingKeys(args) == []
    ensures var r := s.(resolvedFunction := name, parameters := ToMap(args), pendingFunction := name,
                        collectedParams := ToMap(args), missingParams := [], retryCount := 0);
      && ExtractFunction(s, o) == Ok(r)
      && AppendsAssistant(s, r, 0) && AssistantTail(s.messages, r.messages)
  {
  }

  /** The parameters ask_param holds after merging the backend's reply. */
  function Merged(s: State, o: Oracles): Params
  {
    s.collectedParams + ToMap(ReplyArgs(o.llm(Window(s.messages))))
  }

  lemma FillResolvedCase(s: State, o: Oracles)
    requires !o.llm(Window(s.messages)).Malformed?
    requires StillMissing(s.missingParams, Merged(s, o)) == []
    ensures var r := s.(resolvedFunction := s.pendingFunction, parameters := Merged(s, o),
                        collectedParams := Merged(s, o), missingParams := [], retryCount := 0);
      && FillMissingParam(s, o) == Ok(r)
      && AppendsAssistant(s, r, 0) && AssistantTail(s.messages, r.messages)
  {
  }

  lemma FillApologyCase(s: State, o: Oracles)
    requires !o.llm(Window(s.messages)).Malformed?
    requires StillMissing(s.missingParams, Merged(s, o)) != [] && s.retryCount + 1 >= 1
    ensures var still := StillMissing(s.missingParams, Merged(s, o));
      var t := s.(collectedParams := Merged(s, o), missingParams := still, retryCount := s.retryCount + 1);
      var r := Say(t, ApologyPrefix + Join(still, ", ") + ".").(pendingFunction := Some(EndMark));
      && FillMissingParam(s, o) == Ok(r)
      && AppendsAssistant(s, r, 1) && AssistantTail(s.messages, r.messages)
  {
    var still := StillMissing(s.missingParams, Merged(s, o));
    var t := s.(collectedParams := Merged(s, o), missingParams := still, retryCount := s.retryCount + 1);
    SayTail(s, t, ApologyPrefix + Join(still, ", ") + ".");
  }

  lemma FillStillMissingKeeps(s: State, o: Oracles)
    requires WellFormed(s)
    requires !o.llm(Window(s.messages)).Malformed?
    requires StillMissing(s.missingParams, Merged(s, o)) != []
    ensures Continues(s, FillMissingParam(s, o).value)
  {
    var still := StillMissing(s.missingParams, Merged(s, o));
    if s.retryCount + 1 >= 1 {
      FillApologyCase(s, o);
    } else {
      FillStillNeedCase(s, o);
    }
    StillMissingSpec(s.missingParams, Merged(s, o));
    SubseqDistinct(still, s.missingParams);
  }

  lemma FillStillNeedCase(s: State, o: Oracles)
    requires !o.llm(Window(s.messages)).Malformed?
    requires StillMissing(s.missingParams, Merged(s, o)) != [] && s.retryCount + 1 < 1
    ensures var still := StillMissing(s.missingParams, Merged(s, o));
      var t := s.(collectedParams := Merged(s, o), missingParams := still, retryCount := s.retryCount + 1);
      var r := Say(t, "Still need: " + Join(still, ", "));
      && FillMissingParam(s, o) == Ok(r)
      && AppendsAssistant(s, r, 1) && AssistantTail(s.messages, r.messages)
  {
    var still := StillMissing(s.missingParams, Merged(s, o));
    var t := s.(collectedParams := Merged(s, o), missingParams := still, retryCount := s.retryCount + 1);
    SayTail(s, t, "Still need: " + Join(still, ", "));
  }

  /** extract keeps a well-formed state well formed and says at most one thing. */
  lemma ExtractKeeps(s: State, o: Oracles)
    ensures ExtractFunction(s, o).Ok? ==> AssistantTail(s.messages, ExtractFunction(s, o).value.messages)
    ensures WellFormed(s) && ExtractFunction(s, o).Ok? ==> Continues(s, ExtractFunction(s, o).value)
  {
    match o.llm(Window(s.messages))
    case Malformed =>
    case FreeText(content, args) => ExtractFreeTextCase(s, o, content, args);
    case Call(name, args) =>
      if MissingKeys(args) != [] {
        ExtractAskCase(s, o, name, args);
        if WellFormed(s) {
          ExtractAskKeeps(s, o, name, args);
        }
      } else {
        ExtractResolvedCase(s, o, name, args);
      }
  }

  /** ask_param keeps a well-formed state well formed and says at most one thing. */
  lemma FillKeeps(s: State, o: Oracles)
    ensures FillMissingParam(s, o).Ok? ==> AssistantTail(s.messages, FillMissingParam(s, o).value.messages)
    ensures WellFormed(s) && FillMissingParam(s, o).Ok? ==> Continues(s, FillMissingParam(s, o).value)
  {
    if !o.llm(Window(s.messages)).Malformed? {
      if StillMissing(s.missingParams, Merged(s, o)) == [] {
        FillResolvedCase(s, o);
      } else {
        FillUnresolvedKeeps(s, o);
      }
    }
  }

  /** The ask_param branches that still miss a key: one message appended, invariant kept. */
  lemma FillUnresolvedKeeps(s: State, o: Oracles)
    requires !o.llm(Window(s.messages)).Malformed?
    requires StillMissing(s.missingParams, Merged(s, o)) != []
    ensures AssistantTail(s.messages, FillMissingParam(s, o).value.messages)
    ensures WellFormed(s) ==> Continues(s, FillMissingParam(s, o).value)
  {
    if s.retryCount + 1 >= 1 {
      FillApologyCase(s, o);
    } else {
      FillStillNeedCase(s, o);
    }
    if WellFormed(s) {
      FillStillMissingKeeps(s, o);
    }
  }

  /** Every node keeps the session invariant, keeps the session id, only appends to the
      transcript, and check_chitchat on a well-formed state raises only with the classifier. */
  lemma NodeKeepsWellFormed(n: Node, s: State, o: Oracles)
    requires WellFormed(s)
    ensures n == CheckChitchatNode ==>
      (RunNode(n, s, o).Ok? <==> o.isChitchat(Strip(s.messages[|s.messages| - 1].content)).Some?)
    ensures RunNode(n, s, o).Ok? ==> Continues(s, RunNode(n, s, o).value)
  {
    match n
    case CheckChitchatNode => ChitchatKeeps(s, o);
    case ExtractNode => ExtractKeeps(s, o);
    case AskParamNode => FillKeeps(s, o);
    case CallToolNode =>
  }

  /** A whole pass, from any node, keeps the invariant and the session id. */
  lemma {:induction false} RunKeepsWellFormed(n: Node, s: State, o: Oracles, fuel: nat)
    requires WellFormed(s)
    ensures Run(n, s, o, fuel).outcome.Done? ==> Continues(s, Run(n, s, o, fuel).outcome.state)
    decreases fuel
  {
    if fuel > 0 {
      NodeKeepsWellFormed(n, s, o);
      var step := RunNode(n, s, o);
      if step.Ok? && NextEdge(n, step.value).Goto? {
        var m := NextEdge(n, step.value).node;
        RunKeepsWellFormed(m, step.value, o, fuel - 1);
        var rest := Run(m, step.value, o, fuel - 1).outcome;
        if rest.Done? {
          ContinuesCompose(s, step.value, rest.state);
        }
      }
    }
  }

  /** Every node only appends assistant messages. */
  lemma NodeAppendsAssistantOnly(n: Node, s: State, o: Oracles)
    ensures RunNode(n, s, o).Ok? ==> AssistantTail(s.messages, RunNode(n, s, o).value.messages)
  {
    match n
    case CheckChitchatNode => ChitchatKeeps(s, o);
    case ExtractNode => ExtractKeeps(s, o);
    case AskParamNode => FillKeeps(s, o);
    case CallToolNode =>
  }

  /** The transcript a pass leaves behind, whether it finishes or fails. */
  function FinalTranscript(p: PassOutcome): seq<Message>
  {
    match p
    case Done(r) => r.messages
    case Failed(_, t) => t
  }

  /** Whether a pass finishes or fails, it has only appended assistant messages. */
  lemma {:induction false} RunAppendsAssistantOnly(n: Node, s: State, o: Oracles, fuel: nat)
    ensures AssistantTail(s.messages, FinalTranscript(Run(n, s, o, fuel).outcome))
    decreases fuel
  {
    if fuel > 0 {
      NodeAppendsAssistantOnly(n, s, o);
      var step := RunNode(n, s, o);
      if step.Ok? && NextEdge(n, step.value).Goto? {
        var m := NextEdge(n, step.value).node;
        RunAppendsAssistantOnly(m, step.value, o, fuel - 1);
        AssistantTailCompose(s.messages, step.value.messages, FinalTranscript(Run(m, step.value, o, fuel - 1).outcome));
      }
    }
  }

  /** The router's retry cap (three) never decides anything: after extract, and after a fill from
      a non-negative counter, the router ends the pass only on the end marker. */
  lemma RetryCapNeverDecides(n: Node, s: State, o: Oracles)
    requires n == ExtractNode || (n == AskParamNode && s.retryCount >= 0)
    requires RunNode(n, s, o).Ok?
    ensures Router(RunNode(n, s, o).value) == ToEnd ==> RunNode(n, s, o).value.pendingFunction == Some(EndMark)
  {
  }

  // ---------------------------------------------------------------- one pass

  /** The position of a node in the graph's pipeline: check_chitchat, extract, ask_param, call_tool. */
  function Rank(n: Node): nat
  {
    match n
    case CheckChitchatNode => 0
    case ExtractNode => 1
    case AskParamNode => 2
    case CallToolNode => 3
  }

  /** The nodes of a trace come in pipeline order, each at most once. */
  predicate Ascending(t: seq<Node>)
  {
    forall i, j :: 0 <= i < j < |t| ==> Rank(t[i]) < Rank(t[j])
  }

  /** A pass that starts at `first`, runs nodes in pipeline order each at most once (so it never
      meets the recursion limit), and fails only because a node raised. */
  ghost predicate OnePass(p: Pass, first: Node)
  {
    && p.trace != [] && p.trace[0] == first && Ascending(p.trace)
    && (p.outcome.Failed? ==> p.outcome.failure == NodeRaised)
  }

  /** `s2` holds the transcript of `s1` followed by between `lo` and `hi` assistant messages. */
  ghost predicate Answers(s1: State, s2: State, lo: nat, hi: nat)
  {
    exists k :: lo <= k <= hi && AppendsAssistant(s1, s2, k)
  }

  /** The fewest assistant messages a pass from each node appends. */
  function Fewest(n: Node): nat
  {
    if n == AskParamNode || n == CallToolNode then 1 else 0
  }

  /** The most assistant messages a pass from each node appends. */
  function Most(n: Node): nat
  {
    if n == AskParamNode || n == CallToolNode then 1 else 2
  }

  /** The fewest assistant messages a node appends when its edge ends the pass: extract may end
      it silently, every other node answers. */
  function EndFewest(n: Node): nat
  {
    if n == ExtractNode then 0 else 1
  }

  /** The most assistant messages a node appends when its edge ends the pass: one. */
  function EndMost(n: Node): nat
  {
    1
  }

  /** Widening the bounds keeps an answer within them. */
  lemma AnswersWiden(s1: State, s2: State, lo: nat, hi: nat, lo2: nat, hi2: nat)
    requires Answers(s1, s2, lo, hi) && lo2 <= lo && hi <= hi2
    ensures Answers(s1, s2, lo2, hi2)
  {
    var k :| lo <= k <= hi && AppendsAssistant(s1, s2, k);
  }

  /** The messages a node itself appends before the graph moves on to `m`. */
  function Said(n: Node, m: Node): nat
  {
    if n == ExtractNode && m == AskParamNode then 1 else 0
  }

  /** What a pass from `n` assumes of the state it starts from. */
  ghost predicate Ready(n: Node, s: State, o: Oracles)
  {
    match n
    case CheckChitchatNode => !FalsyCall(o.llm(Window(s.messages)))
    case ExtractNode => !FalsyCall(o.llm(Window(s.messages)))
    case AskParamNode => s.retryCount >= 0 && !Falsy(s.pendingFunction) && s.pendingFunction != Some(EndMark)
    case CallToolNode => true
  }

  /** One step of the graph moves forward in the pipeline. */
  ghost predicate StepsForward(n: Node, s: State, o: Oracles)
  {
    RunNode(n, s, o).Ok? ==>
      var r := RunNode(n, s, o).value;
      match NextEdge(n, r)
      case Unmapped => false
      case Finish => Answers(s, r, EndFewest(n), EndMost(n))
      case Goto(m) => Rank(n) < Rank(m) && Ready(m, r, o) && AppendsAssistant(s, r, Said(n, m))
  }

  lemma ChitchatAnswersStep(s: State, o: Oracles)
    requires s.messages != [] && o.isChitchat(Strip(s.messages[|s.messages| - 1].content)) == Some(true)
    ensures StepsForward(CheckChitchatNode, s, o)
  {
    var r := Say(s, ChitchatReply).(pendingFunction := Some(EndMark));
    assert RunNode(CheckChitchatNode, s, o) == Ok(r);
    SayTail(s, s, ChitchatReply);
    assert AppendsAssistant(s, r, 1);
    assert NextEdge(CheckChitchatNode, r) == Finish;
    assert Answers(s, r, EndFewest(CheckChitchatNode), EndMost(CheckChitchatNode));
  }

  lemma ChitchatPassesStep(s: State, o: Oracles)
    requires s.messages != [] && o.isChitchat(Strip(s.messages[|s.messages| - 1].content)) == Some(false)
    requires Ready(CheckChitchatNode, s, o)
    ensures StepsForward(CheckChitchatNode, s, o)
  {
    var r := s.(pendingFunction := None);
    assert RunNode(CheckChitchatNode, s, o) == Ok(r);
    assert NextEdge(CheckChitchatNode, r) == Goto(ExtractNode);
    assert Window(r.messages) == Window(s.messages);
    assert Ready(ExtractNode, r, o);
    assert AppendsAssistant(s, r, Said(CheckChitchatNode, ExtractNode));
  }

  /** check_chitchat either answers small talk and ends, or hands the same transcript to extract. */
  lemma ChitchatStep(s: State, o: Oracles)
    requires Ready(CheckChitchatNode, s, o)
    ensures StepsForward(CheckChitchatNode, s, o)
  {
    if s.messages != [] {
      if o.isChitchat(Strip(s.messages[|s.messages| - 1].content)) == Some(true) {
        ChitchatAnswersStep(s, o);
      } else if o.isChitchat(Strip(s.messages[|s.messages| - 1].content)) == Some(false) {
        ChitchatPassesStep(s, o);
      }
    }
  }

  lemma ExtractFreeTextStep(s: State, o: Oracles, content: Option<string>, args: Args)
    requires o.llm(Window(s.messages)) == FreeText(content, args)
    ensures StepsForward(ExtractNode, s, o)
  {
    ExtractFreeTextCase(s, o, content, args);
    var r := ExtractFunction(s, o).value;
    assert NextEdge(ExtractNode, r) == Finish;
    assert Answers(s, r, EndFewest(ExtractNode), EndMost(ExtractNode));
  }

  lemma ExtractAskStep(s: State, o: Oracles, name: Option<string>, args: Args)
    requires o.llm(Window(s.messages)) == Call(name, args) && MissingKeys(args) != [] && !Falsy(name)
    ensures StepsForward(ExtractNode, s, o)
  {
    ExtractAskCase(s, o, name, args);
    var r := ExtractFunction(s, o).value;
    if name == Some(EndMark) {
      assert NextEdge(ExtractNode, r) == Finish;
      assert Answers(s, r, EndFewest(ExtractNode), EndMost(ExtractNode));
    } else {
      assert NextEdge(ExtractNode, r) == Goto(AskParamNode);
    }
  }

  lemma ExtractResolvedStep(s: State, o: Oracles, name: Option<string>, args: Args)
    requires o.llm(Window(s.messages)) == Call(name, args) && MissingKeys(args) == [] && !Falsy(name)
    ensures StepsForward(ExtractNode, s, o)
  {
    ExtractResolvedCase(s, o, name, args);
    var r := ExtractFunction(s, o).value;
    assert RunNode(ExtractNode, s, o) == Ok(r);
    if name == Some(EndMark) {
      assert NextEdge(ExtractNode, r) == Finish;
      assert Answers(s, r, EndFewest(ExtractNode), EndMost(ExtractNode));
    } else {
      assert Router(r) == ToCallTool;
      assert AppendsAssistant(s, r, Said(ExtractNode, CallToolNode));
    }
  }

  /** extract ends the pass (having answered at most once), asks for parameters (having
      answered once), or goes straight to call_tool; a falsy name, the one way back to extract, is excluded. */
  lemma ExtractStep(s: State, o: Oracles)
    requires Ready(ExtractNode, s, o)
    ensures StepsForward(ExtractNode, s, o)
  {
    match o.llm(Window(s.messages))
    case Malformed =>
    case FreeText(content, args) => ExtractFreeTextStep(s, o, content, args);
    case Call(name, args) =>
      if MissingKeys(args) != [] {
        ExtractAskStep(s, o, name, args);
      } else {
        ExtractResolvedStep(s, o, name, args);
      }
  }

  lemma FillResolvedStep(s: State, o: Oracles)
    requires !o.llm(Window(s.messages)).Malformed?
    requires StillMissing(s.missingParams, Merged(s, o)) == []
    requires Ready(AskParamNode, s, o)
    ensures StepsForward(AskParamNode, s, o)
  {
    FillResolvedCase(s, o);
    var r := FillMissingParam(s, o).value;
    assert RunNode(AskParamNode, s, o) == Ok(r);
    assert Router(r) == ToCallTool;
    assert AppendsAssistant(s, r, Said(AskParamNode, CallToolNode));
  }

  lemma FillApologyStep(s: State, o: Oracles)
    requires !o.llm(Window(s.messages)).Malformed?
    requires StillMissing(s.missingParams, Merged(s, o)) != [] && s.retryCount + 1 >= 1
    ensures StepsForward(AskParamNode, s, o)
  {
    FillApologyCase(s, o);
    var r := FillMissingParam(s, o).value;
    assert NextEdge(AskParamNode, r) == Finish;
    assert Answers(s, r, EndFewest(AskParamNode), EndMost(AskParamNode));
  }

  /** ask_param, from a pending call and a non-negative counter, either resolves the call and goes
      to call_tool or apologises once and ends; it never takes the route the graph leaves unmapped. */
  lemma AskParamStep(s: State, o: Oracles)
    requires Ready(AskParamNode, s, o)
    ensures StepsForward(AskParamNode, s, o)
  {
    if !o.llm(Window(s.messages)).Malformed? {
      if StillMissing(s.missingParams, Merged(s, o)) == [] {
        FillResolvedStep(s, o);
      } else {
        FillApologyStep(s, o);
      }
    }
  }

  /** call_tool answers once and ends. */
  lemma CallToolStep(s: State, o: Oracles)
    ensures StepsForward(CallToolNode, s, o)
  {
    assert AppendsAssistant(s, CallTool(s, o), 1);
  }

  lemma Step(n: Node, s: State, o: Oracles)
    requires Ready(n, s, o)
    ensures StepsForward(n, s, o)
  {
    match n
    case CheckChitchatNode => ChitchatStep(s, o);
    case ExtractNode => ExtractStep(s, o);
    case AskParamNode => AskParamStep(s, o);
    case CallToolNode => CallToolStep(s, o);
  }

  /** Putting an earlier node in front of a pass keeps it a single ordered pass. */
  lemma OnePassCons(s: State, r: State, p: Pass, n: Node, m: Node, k: nat, lo: nat, hi: nat)
    requires AppendsAssistant(s, r, k) && OnePass(p, m) && Rank(n) < Rank(m)
    requires p.outcome.Done? ==> Answers(r, p.outcome.state, lo, hi)
    ensures OnePass(Pass(p.outcome, [n] + p.trace), n)
    ensures p.outcome.Done? ==> Answers(s, p.outcome.state, lo + k, hi + k)
  {
    var u := [n] + p.trace;
    forall i, j | 0 <= i < j < |u| ensures Rank(u[i]) < Rank(u[j]) {
      if i > 0 {
        assert u[i] == p.trace[i - 1] && u[j] == p.trace[j - 1];
      } else {
        assert u[j] == p.trace[j - 1];
        if j > 1 {
          assert Rank(p.trace[0]) < Rank(p.trace[j - 1]);
        }
      }
    }
    if p.outcome.Done? {
      var k2 :| lo <= k2 <= hi && AppendsAssistant(r, p.outcome.state, k2);
      AppendsCompose(s, r, p.outcome.state, k, k2);
    }
  }

  /** A node's bounds contain those of any later node, shifted by what the node itself says. */
  lemma BoundsNest(n: Node, m: Node)
    requires Rank(n) < Rank(m)
    ensures Fewest(n) <= Fewest(m) + Said(n, m) && Most(m) + Said(n, m) <= Most(n)
  {
  }

  /** A node whose edge finishes is the whole pass. */
  lemma FinishCase(n: Node, s: State, r: State, o: Oracles, fuel: nat)
    requires fuel > 0 && RunNode(n, s, o) == Ok(r) && NextEdge(n, r) == Finish
    requires Answers(s, r, EndFewest(n), EndMost(n))
    ensures OnePass(Run(n, s, o, fuel), n)
    ensures Run(n, s, o, fuel).outcome.Done? ==> Answers(s, Run(n, s, o, fuel).outcome.state, Fewest(n), Most(n))
  {
    assert Run(n, s, o, fuel) == Pass(Done(r), [n]);
    AnswersWiden(s, r, EndFewest(n), EndMost(n), Fewest(n), Most(n));
  }

  /** A node whose edge leads on is followed by the pass from the next node. */
  lemma GotoCase(n: Node, m: Node, s: State, r: State, o: Oracles, fuel: nat)
    requires fuel > 0 && RunNode(n, s, o) == Ok(r) && NextEdge(n, r) == Goto(m) && Rank(n) < Rank(m)
    requires AppendsAssistant(s, r, Said(n, m))
    requires OnePass(Run(m, r, o, fuel - 1), m)
    requires Run(m, r, o, fuel - 1).outcome.Done? ==> Answers(r, Run(m, r, o, fuel - 1).outcome.state, Fewest(m), Most(m))
    ensures OnePass(Run(n, s, o, fuel), n)
    ensures Run(n, s, o, fuel).outcome.Done? ==> Answers(s, Run(n, s, o, fuel).outcome.state, Fewest(n), Most(n))
  {
    var rest := Run(m, r, o, fuel - 1);
    assert Run(n, s, o, fuel) == Pass(rest.outcome, [n] + rest.trace);
    OnePassCons(s, r, rest, n, m, Said(n, m), Fewest(m), Most(m));
    if rest.outcome.Done? {
      var k :| Fewest(m) + Said(n, m) <= k <= Most(m) + Said(n, m) && AppendsAssistant(s, rest.outcome.state, k);
      BoundsNest(n, m);
    }
  }

  /** From any node, on a state that node is ready for, a pass runs the remaining nodes in
      pipeline order, each at most once, fails only when a node raises, and appends between
      `Fewest(n)` and `Most(n)` assistant messages. */
  lemma {:induction false} RunIsOnePass(n: Node, s: State, o: Oracles, fuel: nat)
    requires Ready(n, s, o) && fuel >= 4 - Rank(n)
    ensures OnePass(Run(n, s, o, fuel), n)
    ensures Run(n, s, o, fuel).outcome.Done? ==> Answers(s, Run(n, s, o, fuel).outcome.state, Fewest(n), Most(n))
    decreases 4 - Rank(n)
  {
    Step(n, s, o);
    if RunNode(n, s, o).Ok? {
      var r := RunNode(n, s, o).value;
      if NextEdge(n, r).Goto? {
        var m := NextEdge(n, r).node;
        RunIsOnePass(m, r, o, fuel - 1);
        GotoCase(n, m, s, r, o, fuel);
      } else {
        FinishCase(n, s, r, o, fuel);
      }
    }
  }

  /** One pass from the entry point, unless the backend names a falsy function: it runs
      check_chitchat, extract, ask_param and call_tool each at most once and in that order, so it
      never meets the recursion limit or the unmapped route; it fails only when a node raises; and
      it appends at most two assistant messages. */
  lemma PassShape(s: State, o: Oracles)
    requires !FalsyCall(o.llm(Window(s.messages)))
    ensures OnePass(Invoke(s, o), CheckChitchatNode)
    ensures Invoke(s, o).outcome.Done? ==> Answers(s, Invoke(s, o).outcome.state, 0, 2)
  {
    RunIsOnePass(CheckChitchatNode, s, o, RecursionLimit);
  }

  /** A falsy function name with nothing missing makes the graph re-run extract on an unchanged
      transcript, the backend repeating itself on the unchanged window, until the recursion limit
      stops it. */
  lemma FalsyCallExhaustsInvoke(s: State, o: Oracles)
    requires s.messages != []
    requires o.isChitchat(Strip(s.messages[|s.messages| - 1].content)) == Some(false)
    requires var reply := o.llm(Window(s.messages)); FalsyCall(reply) && MissingKeys(reply.args) == []
    ensures Invoke(s, o).outcome == Failed(RecursionLimitReached, s.messages)
    ensures Invoke(s, o).trace == [CheckChitchatNode] + seq(RecursionLimit - 1, _ => ExtractNode)
  {
    var s1 := s.(pendingFunction := None);
    FalsyCompleteCallHitsRecursionLimit(s1, o, RecursionLimit - 1);
    var rest := Run(ExtractNode, s1, o, RecursionLimit - 1);
    assert Invoke(s, o) == Pass(rest.outcome, [CheckChitchatNode] + rest.trace);
  }

  /** A backend that names a falsy function with an argument missing, whatever it is sent, fills
      the session's transcript with one "Please provide" prompt per extract run, 24 in all, and
      the pass stops at the recursion limit. */
  lemma FalsyAskExhaustsInvoke(s: State, o: Oracles)
    requires s.messages != []
    requires o.isChitchat(Strip(s.messages[|s.messages| - 1].content)) == Some(false)
    requires forall w :: FalsyCall(o.llm(w)) && MissingKeys(o.llm(w).args) != []
    ensures Invoke(s, o).outcome.Failed? && Invoke(s, o).outcome.failure == RecursionLimitReached
    ensures |Invoke(s, o).outcome.transcript| == |s.messages| + RecursionLimit - 1
    ensures AssistantTail(s.messages, Invoke(s, o).outcome.transcript)
    ensures Invoke(s, o).trace == [CheckChitchatNode] + seq(RecursionLimit - 1, _ => ExtractNode)
  {
    var s1 := s.(pendingFunction := None);
    FalsyAskHitsRecursionLimit(s1, o, RecursionLimit - 1);
    var rest := Run(ExtractNode, s1, o, RecursionLimit - 1);
    assert Invoke(s, o) == Pass(rest.outcome, [CheckChitchatNode] + rest.trace);
  }

  /** Small talk ends the turn at once with the canned answer; no tool runs. */
  lemma ChitchatEndsTurn(s: State, o: Oracles)
    requires s.messages != []
    requires o.isChitchat(Strip(s.messages[|s.messages| - 1].content)) == Some(true)
    ensures Invoke(s, o) ==
      Pass(Done(Say(s, ChitchatReply).(pendingFunction := Some(EndMark))), [CheckChitchatNode])
  {
  }

  /** A complete call with a real name is dispatched exactly once, and the tool's reply is the one
      message the pass adds. */
  lemma CompleteCallDispatchesOnce(s: State, o: Oracles, name: string, args: Args)
    requires s.messages != []
    requires o.isChitchat(Strip(s.messages[|s.messages| - 1].content)) == Some(false)
    requires o.llm(Window(s.messages)) == Call(Some(name), args)
    requires name != "" && name != EndMark && MissingKeys(args) == []
    ensures var resolved := s.(resolvedFunction := Some(name), parameters := ToMap(args),
                               pendingFunction := Some(name), collectedParams := ToMap(args),
                               missingParams := [], retryCount := 0);
      Invoke(s, o) == Pass(Done(Say(resolved, ToolReply(Some(name), ToMap(args), o))),
                           [CheckChitchatNode, ExtractNode, CallToolNode])
  {
    CompleteCallRun(s, o, name, args, RecursionLimit);
  }

  lemma CompleteCallRun(s: State, o: Oracles, name: string, args: Args, fuel: nat)
    requires fuel >= 3
    requires s.messages != []
    requires o.isChitchat(Strip(s.messages[|s.messages| - 1].content)) == Some(false)
    requires o.llm(Window(s.messages)) == Call(Some(name), args)
    requires name != "" && name != EndMark && MissingKeys(args) == []
    ensures var resolved := s.(resolvedFunction := Some(name), parameters := ToMap(args),
                               pendingFunction := Some(name), collectedParams := ToMap(args),
                               missingParams := [], retryCount := 0);
      Run(CheckChitchatNode, s, o, fuel) == Pass(Done(Say(resolved, ToolReply(Some(name), ToMap(args), o))),
                                                 [CheckChitchatNode, ExtractNode, CallToolNode])
  {
    var s1 := s.(pendingFunction := None);
    assert RunNode(CheckChitchatNode, s, o) == Ok(s1);
    ResolvedCallRun(s1, o, name, args, fuel - 1);
  }

  /** From extract, a complete call with a real name runs call_tool once and ends. */
  lemma ResolvedCallRun(s: State, o: Oracles, name: string, args: Args, fuel: nat)
    requires fuel >= 2
    requires o.llm(Window(s.messages)) == Call(Some(name), args)
    requires name != "" && name != EndMark && MissingKeys(args) == []
    ensures var resolved := s.(resolvedFunction := Some(name), parameters := ToMap(args),
                               pendingFunction := Some(name), collectedParams := ToMap(args),
                               missingParams := [], retryCount := 0);
      Run(ExtractNode, s, o, fuel) == Pass(Done(Say(resolved, ToolReply(Some(name), ToMap(args), o))),
                                           [ExtractNode, CallToolNode])
  {
    ExtractResolvedCase(s, o, Some(name), args);
    var resolved := RunNode(ExtractNode, s, o).value;
    assert NextEdge(ExtractNode, resolved) == Goto(CallToolNode);
    assert Run(CallToolNode, resolved, o, fuel - 1) == Pass(Done(CallTool(resolved, o)), [CallToolNode]);
  }

  /** A complete call naming the end marker itself ends the pass after extract without a word:
      the pass finishes with the transcript it was given. */
  lemma EndNameEndsSilently(s: State, o: Oracles, args: Args)
    requires s.messages != []
    requires o.isChitchat(Strip(s.messages[|s.messages| - 1].content)) == Some(false)
    requires o.llm(Window(s.messages)) == Call(Some(EndMark), args) && MissingKeys(args) == []
    ensures Invoke(s, o).trace == [CheckChitchatNode, ExtractNode]
    ensures Invoke(s, o).outcome.Done? && Invoke(s, o).outcome.state.messages == s.messages
  {
    var s1 := s.(pendingFunction := None);
    assert RunNode(CheckChitchatNode, s, o) == Ok(s1);
    ExtractResolvedCase(s1, o, Some(EndMark), args);
    var r := RunNode(ExtractNode, s1, o).value;
    assert NextEdge(ExtractNode, r) == Finish;
    assert Run(ExtractNode, s1, o, RecursionLimit - 1) == Pass(Done(r), [ExtractNode]);
  }

  /** A follow-up turn forgets any call left pending by the previous one: the pass does not
      depend on the stored pending function, so it re-extracts instead of resuming at ask_param. */
  lemma PendingCallForgotten(s: State, p: Option<string>, o: Oracles, fuel: nat)
    ensures Run(CheckChitchatNode, s.(pendingFunction := p), o, fuel) == Run(CheckChitchatNode, s, o, fuel)
  {
    if fuel > 0 && s.messages != [] {
      assert CheckChitchat(s.(pendingFunction := p), o) == CheckChitchat(s, o);
    }
  }
}
