/**
  The `/chat` handler of main.py: picking the message, normalising the session id, creating or
  resuming the session, running one pass of the graph, writing the result back and picking the
  reply. `ChatTurn` says what one request does to the store, on values; `SessionStore.Chat` does it
  in place on the stored dictionaries and is proved to agree with it.
 */
module Server {
  import opened Common
  import opened Text
  import Agent
  import AgentProperties
  import Graph

  /** The keys of the request body the handler reads. A key that is absent (or JSON `null`, for
      the two message keys) is `None`; `sessionId` holds `str()` of whatever value was sent. */
  datatype Request = Request(userInput: Option<string>, message: Option<string>, sessionId: Option<string>)

  datatype Response = Response(response: string, sessionId: string)

  const ErrorPrefix := "\U{274C} Internal Server Error: "
  const DefaultId := "default"
  const NoMessage := "Please provide a message."
  const ReservedIds: set<string> := {"none", "null", "undefined", "default"}

  /** `body.get("user_input") or body.get("message") or ""`. */
  function PickMessage(req: Request): (m: string)
    ensures m == "" <==> Agent.Falsy(req.userInput) && Agent.Falsy(req.message)
    ensures !Agent.Falsy(req.userInput) ==> m == req.userInput.value
    ensures Agent.Falsy(req.userInput) && !Agent.Falsy(req.message) ==> m == req.message.value
  {
    if !Agent.Falsy(req.userInput) then req.userInput.value
    else if !Agent.Falsy(req.message) then req.message.value
    else ""
  }

  /** A session id the handler keeps rather than replacing. */
  predicate Usable(id: string)
  {
    id != "" && Lower(id) !in ReservedIds
  }

  /** The session id the handler works with: the stripped id sent, unless it is blank or a
      reserved word, in which case the fresh id. */
  function SessionIdFor(req: Request, freshId: string): (sid: string)
    ensures Usable(Strip(req.sessionId.GetOr(""))) ==> sid == Strip(req.sessionId.GetOr(""))
    ensures !Usable(Strip(req.sessionId.GetOr(""))) ==> sid == freshId
  {
    var sent := Strip(req.sessionId.GetOr(""));
    if sent == "" || Lower(sent) in ReservedIds then freshId else sent
  }

  /** With a usable fresh id, the handler always ends up with a usable id. */
  lemma SessionIdUsable(req: Request, freshId: string)
    requires Usable(freshId)
    ensures Usable(SessionIdFor(req, freshId))
    ensures SessionIdFor(req, freshId) != DefaultId
  {
    var sid := SessionIdFor(req, freshId);
    if sid == DefaultId {
      assert Lower(sid) == "default";
    }
  }

  /** A client that sends back the session id it was given reaches the same session. */
  lemma SessionIdRoundTrip(req: Request, freshId: string, userInput: Option<string>, message: Option<string>, laterId: string)
    requires Usable(freshId) && Strip(freshId) == freshId
    ensures var sid := SessionIdFor(req, freshId);
      SessionIdFor(Request(userInput, message, Some(sid)), laterId) == sid
  {
    StripIdempotent(req.sessionId.GetOr(""));
  }

  /** The content of the last assistant message, or "" when there is none. */
  function LastAssistantReply(ms: seq<Agent.Message>): string
  {
    if ms == [] then ""
    else if ms[|ms| - 1].role == Agent.Assistant then ms[|ms| - 1].content
    else LastAssistantReply(ms[..|ms| - 1])
  }

  /** `ms[i]` is the last assistant message of `ms`. */
  predicate LastAssistantAt(ms: seq<Agent.Message>, i: int)
  {
    0 <= i < |ms| && ms[i].role == Agent.Assistant && forall j :: i < j < |ms| ==> ms[j].role != Agent.Assistant
  }

  /** The reply is the content of the last assistant message, or "" when no message is the
      assistant's. */
  lemma {:induction false} LastAssistantReplySpec(ms: seq<Agent.Message>)
    ensures (forall i :: 0 <= i < |ms| ==> ms[i].role != Agent.Assistant) ==> LastAssistantReply(ms) == ""
    ensures (exists i :: 0 <= i < |ms| && ms[i].role == Agent.Assistant) ==>
      exists i :: LastAssistantAt(ms, i) && LastAssistantReply(ms) == ms[i].content
  {
    if ms != [] && ms[|ms| - 1].role != Agent.Assistant {
      var front := ms[..|ms| - 1];
      LastAssistantReplySpec(front);
      if exists i :: 0 <= i < |ms| && ms[i].role == Agent.Assistant {
        var i :| 0 <= i < |ms| && ms[i].role == Agent.Assistant;
        assert front[i] == ms[i];
        var k :| LastAssistantAt(front, k) && LastAssistantReply(front) == front[k].content;
        assert LastAssistantAt(ms, k);
      } else {
        forall i | 0 <= i < |front| ensures front[i].role != Agent.Assistant {
          assert front[i] == ms[i];
        }
      }
    } else if ms != [] {
      assert LastAssistantAt(ms, |ms| - 1);
    }
  }

  /** A stored session: a state dictionary, or some other value under that key. */
  datatype Stored = StoredDict(state: Agent.State) | StoredOther

  /** The session store, as values. */
  type Snapshot = map<string, Stored>

  /** What one request yields: the response, and the store afterwards. */
  datatype Turn = Turn(response: Response, store: Snapshot)

  /** The state a pass starts from: the stored session with the user's message appended, or a
      fresh session when there is no stored dictionary under that id. */
  function TurnInput(store: Snapshot, message: string, sid: string): (s: Agent.State)
    ensures s.messages != [] && s.messages[|s.messages| - 1] == Agent.Message(Agent.User, message)
    ensures sid in store && store[sid].StoredDict? ==>
      s.messages[..|s.messages| - 1] == store[sid].state.messages
      && s.(messages := store[sid].state.messages) == store[sid].state
    ensures !(sid in store && store[sid].StoredDict?) ==> s == Agent.BuildInitialState(message, sid)
  {
    if sid in store && store[sid].StoredDict? then
      var s := store[sid].state;
      s.(messages := s.messages + [Agent.Message(Agent.User, message)])
    else Agent.BuildInitialState(message, sid)
  }

  /** Writes the outcome of the pass back: the final state on success, and on failure the
      dictionary the pass started from with the transcript the graph appended to. */
  function Settle(store: Snapshot, sid: string, input: Agent.State, outcome: Agent.PassOutcome, errorText: string): Turn
  {
    match outcome
    case Done(v) => Turn(Response(LastAssistantReply(v.messages), sid), store[sid := StoredDict(v)])
    case Failed(_, t) => Turn(Response(ErrorPrefix + errorText, DefaultId), store[sid := StoredDict(input.(messages := t))])
  }

  /** chat: one request against the store. `body` is `None` when the body is not a JSON object
      (reading it or calling `.get` on it raises); `freshId` is what `uuid4()` yields;
      `errorText` is `str()` of whatever was raised. */
  function ChatTurn(store: Snapshot, body: Option<Request>, freshId: string, o: Agent.Oracles, errorText: string): Turn
  {
    if body.None? then Turn(Response(ErrorPrefix + errorText, DefaultId), store)
    else
      var message := PickMessage(body.value);
      var sid := SessionIdFor(body.value, freshId);
      if message == "" then Turn(Response(NoMessage, sid), store)
      else
        var input := TurnInput(store, message, sid);
        Settle(store, sid, input, Agent.Invoke(input, o).outcome, errorText)
  }

  /** A readable request with a message settles the pass run on its session. */
  lemma ChatTurnSettles(store: Snapshot, req: Request, freshId: string, o: Agent.Oracles, errorText: string)
    requires PickMessage(req) != ""
    ensures var sid := SessionIdFor(req, freshId);
      var input := TurnInput(store, PickMessage(req), sid);
      ChatTurn(store, Some(req), freshId, o, errorText) == Settle(store, sid, input, Agent.Invoke(input, o).outcome, errorText)
  {
  }

  /** A request changes at most the entry under its own session id. */
  lemma ChatTouchesOneSession(store: Snapshot, req: Request, freshId: string, o: Agent.Oracles, errorText: string)
    ensures var t := ChatTurn(store, Some(req), freshId, o, errorText);
      && t.store.Keys <= store.Keys + {SessionIdFor(req, freshId)}
      && forall k :: k in store && k != SessionIdFor(req, freshId) ==> k in t.store && t.store[k] == store[k]
  {
  }

  /** A request that cannot be read, or whose message is empty, leaves the store as it was. */
  lemma BadRequestChangesNothing(store: Snapshot, body: Option<Request>, freshId: string, o: Agent.Oracles, errorText: string)
    requires body.None? || PickMessage(body.value) == ""
    ensures var t := ChatTurn(store, body, freshId, o, errorText);
      && t.store == store
      && (body.Some? ==> t.response == Response(NoMessage, SessionIdFor(body.value, freshId)))
  {
  }

  /** The response names the session "default" exactly when the handler failed: the body was
      unreadable or the pass raised. */
  lemma DefaultMeansFailure(store: Snapshot, body: Option<Request>, freshId: string, o: Agent.Oracles, errorText: string)
    requires Usable(freshId)
    ensures var t := ChatTurn(store, body, freshId, o, errorText);
      t.response.sessionId == DefaultId <==>
        || body.None?
        || (&& PickMessage(body.value) != ""
            && Agent.Invoke(TurnInput(store, PickMessage(body.value), SessionIdFor(body.value, freshId)), o).outcome.Failed?)
  {
    if body.Some? {
      SessionIdUsable(body.value, freshId);
    }
  }

  /** A client that sends back the id a response names reaches the session that request worked
      on, unless the response names `default`. */
  lemma AnsweredIdRoundTrip(store: Snapshot, req: Request, freshId: string, o: Agent.Oracles, errorText: string,
                            later: Request, laterId: string)
    requires Usable(freshId) && Strip(freshId) == freshId
    requires later.sessionId == Some(ChatTurn(store, Some(req), freshId, o, errorText).response.sessionId)
    ensures var answered := ChatTurn(store, Some(req), freshId, o, errorText).response.sessionId;
      answered != DefaultId ==> answered == SessionIdFor(req, freshId) && SessionIdFor(later, laterId) == answered
  {
    SessionIdRoundTrip(req, freshId, later.userInput, later.message, laterId);
  }

  /** A turn whose pass raised leaves the user's message in its session but answers `default`;
      sending that back gets the next fresh id instead, so the client cannot reach the session
      again. */
  lemma FailedTurnStrandsSession(store: Snapshot, req: Request, freshId: string, o: Agent.Oracles, errorText: string,
                                 later: Request, laterId: string)
    requires Usable(freshId)
    requires PickMessage(req) != ""
    requires Agent.Invoke(TurnInput(store, PickMessage(req), SessionIdFor(req, freshId)), o).outcome.Failed?
    requires later.sessionId == Some(ChatTurn(store, Some(req), freshId, o, errorText).response.sessionId)
    ensures var sid := SessionIdFor(req, freshId);
      var t := ChatTurn(store, Some(req), freshId, o, errorText);
      && t.response.sessionId == DefaultId && sid != DefaultId
      && sid in t.store && t.store[sid].StoredDict?
      && Agent.Message(Agent.User, PickMessage(req)) in t.store[sid].state.messages
      && SessionIdFor(later, laterId) == laterId
  {
    var sid := SessionIdFor(req, freshId);
    var input := TurnInput(store, PickMessage(req), sid);
    SessionIdUsable(req, freshId);
    AgentProperties.RunAppendsAssistantOnly(Agent.CheckChitchatNode, input, o, Agent.RecursionLimit);
    ChatTurnSettles(store, req, freshId, o, errorText);
    var ms := ChatTurn(store, Some(req), freshId, o, errorText).store[sid].state.messages;
    assert ms[|input.messages| - 1] == Agent.Message(Agent.User, PickMessage(req));
    assert Strip(DefaultId) == DefaultId;
    assert Lower(DefaultId) == "default";
  }

  /** Writing back a pass that only appended assistant messages leaves the input's transcript
      followed by those messages under the session id. */
  lemma SettleKeepsTail(store: Snapshot, sid: string, input: Agent.State, outcome: Agent.PassOutcome, errorText: string)
    requires AgentProperties.AssistantTail(input.messages, AgentProperties.FinalTranscript(outcome))
    ensures var t := Settle(store, sid, input, outcome, errorText);
      && sid in t.store && t.store[sid].StoredDict?
      && AgentProperties.AssistantTail(input.messages, t.store[sid].state.messages)
  {
  }

  /** A readable request with a message always leaves a dictionary under its session id whose
      transcript is the old one (or nothing, for a new session), then the user's message, then
      only assistant messages. */
  lemma TranscriptOnlyGrows(store: Snapshot, req: Request, freshId: string, o: Agent.Oracles, errorText: string)
    requires PickMessage(req) != ""
    ensures var sid := SessionIdFor(req, freshId);
      var t := ChatTurn(store, Some(req), freshId, o, errorText);
      var before := if sid in store && store[sid].StoredDict? then store[sid].state.messages else [];
      && sid in t.store && t.store[sid].StoredDict?
      && AgentProperties.AssistantTail(before + [Agent.Message(Agent.User, PickMessage(req))], t.store[sid].state.messages)
  {
    var sid := SessionIdFor(req, freshId);
    var input := TurnInput(store, PickMessage(req), sid);
    var outcome := Agent.Invoke(input, o).outcome;
    AgentProperties.RunAppendsAssistantOnly(Agent.CheckChitchatNode, input, o, Agent.RecursionLimit);
    SettleKeepsTail(store, sid, input, outcome, errorText);
  }

  /** A fresh id that is not in the store starts a new session holding only the user's message. */
  lemma FreshIdStartsNewSession(store: Snapshot, req: Request, freshId: string)
    requires PickMessage(req) != "" && freshId !in store
    requires !Usable(Strip(req.sessionId.GetOr("")))
    ensures TurnInput(store, PickMessage(req), SessionIdFor(req, freshId)) == Agent.BuildInitialState(PickMessage(req), freshId)
  {
  }

  /** When the backend answers with a complete call to the end marker, the pass adds nothing and
      the handler replies with the previous turn's answer again ("" on a new session). */
  lemma EndNameRepeatsLastAnswer(store: Snapshot, req: Request, freshId: string, o: Agent.Oracles, errorText: string, args: Agent.Args)
    requires PickMessage(req) != "" && o.isChitchat(Strip(PickMessage(req))) == Some(false)
    requires var input := TurnInput(store, PickMessage(req), SessionIdFor(req, freshId));
      o.llm(Agent.Window(input.messages)) == Agent.Call(Some(Agent.EndMark), args) && Agent.MissingKeys(args) == []
    ensures var sid := SessionIdFor(req, freshId);
      var before := if sid in store && store[sid].StoredDict? then store[sid].state.messages else [];
      ChatTurn(store, Some(req), freshId, o, errorText).response == Response(LastAssistantReply(before), sid)
  {
    var sid := SessionIdFor(req, freshId);
    var input := TurnInput(store, PickMessage(req), sid);
    var before := if sid in store && store[sid].StoredDict? then store[sid].state.messages else [];
    assert input.messages == before + [Agent.Message(Agent.User, PickMessage(req))];
    AgentProperties.EndNameEndsSilently(input, o, args);
    ChatTurnSettles(store, req, freshId, o, errorText);
    assert input.messages[..|input.messages| - 1] == before;
  }

  /** The response to a successful turn: it names session `sid`, and its reply is the last
      assistant message of the transcript stored under `sid` ("" when there is none), which is
      the newest message whenever the transcript grew past the `before` the pass started from. */
  ghost predicate RepliesWithLast(t: Turn, sid: string, before: seq<Agent.Message>)
  {
    && t.response.sessionId == sid
    && sid in t.store && t.store[sid].StoredDict?
    && var ms := t.store[sid].state.messages;
       var reply := t.response.response;
       && ((exists i :: LastAssistantAt(ms, i) && reply == ms[i].content)
           || (reply == "" && forall i :: 0 <= i < |ms| ==> ms[i].role != Agent.Assistant))
       && (|ms| > |before| ==> reply == ms[|ms| - 1].content)
  }

  /** Writing back a successful pass that appended only assistant messages answers with the
      last of them. */
  lemma SettleReply(store: Snapshot, sid: string, input: Agent.State, outcome: Agent.PassOutcome, errorText: string)
    requires outcome.Done?
    requires AgentProperties.AssistantTail(input.messages, outcome.state.messages)
    ensures RepliesWithLast(Settle(store, sid, input, outcome, errorText), sid, input.messages)
  {
    var ms := outcome.state.messages;
    LastAssistantReplySpec(ms);
    if |ms| > |input.messages| {
      assert ms[|ms| - 1].role == Agent.Assistant;
    }
  }

  /** On success the reply is the last assistant message of the stored transcript ("" when
      there is none), and this turn's answer whenever the pass appended anything. */
  lemma ReplyIsLastAssistantMessage(store: Snapshot, req: Request, freshId: string, o: Agent.Oracles, errorText: string)
    requires PickMessage(req) != ""
    requires Agent.Invoke(TurnInput(store, PickMessage(req), SessionIdFor(req, freshId)), o).outcome.Done?
    ensures RepliesWithLast(ChatTurn(store, Some(req), freshId, o, errorText), SessionIdFor(req, freshId),
                            TurnInput(store, PickMessage(req), SessionIdFor(req, freshId)).messages)
  {
    var sid := SessionIdFor(req, freshId);
    var input := TurnInput(store, PickMessage(req), sid);
    var outcome := Agent.Invoke(input, o).outcome;
    AgentProperties.RunAppendsAssistantOnly(Agent.CheckChitchatNode, input, o, Agent.RecursionLimit);
    SettleReply(store, sid, input, outcome, errorText);
    assert ChatTurn(store, Some(req), freshId, o, errorText) == Settle(store, sid, input, outcome, errorText);
  }

  /** Every stored dictionary is a well-formed session filed under its own id. */
  ghost predicate StoreWellFormed(store: Snapshot)
  {
    forall k :: k in store && store[k].StoredDict? ==> Agent.WellFormed(store[k].state) && store[k].state.sessionId == k
  }

  /** Writing back a pass that kept the invariant keeps the store well formed. */
  lemma SettleKeepsStoreWellFormed(store: Snapshot, sid: string, input: Agent.State, outcome: Agent.PassOutcome, errorText: string)
    requires StoreWellFormed(store) && Agent.WellFormed(input) && input.sessionId == sid
    requires outcome.Done? ==> Agent.WellFormed(outcome.state) && outcome.state.sessionId == sid
    requires AgentProperties.AssistantTail(input.messages, AgentProperties.FinalTranscript(outcome))
    ensures StoreWellFormed(Settle(store, sid, input, outcome, errorText).store)
  {
  }

  /** Requests keep every stored session well formed and filed under its own id. */
  lemma ChatKeepsStoreWellFormed(store: Snapshot, body: Option<Request>, freshId: string, o: Agent.Oracles, errorText: string)
    requires StoreWellFormed(store)
    ensures StoreWellFormed(ChatTurn(store, body, freshId, o, errorText).store)
  {
    if body.Some? && PickMessage(body.value) != "" {
      var sid := SessionIdFor(body.value, freshId);
      var input := TurnInput(store, PickMessage(body.value), sid);
      if !(sid in store && store[sid].StoredDict?) {
        AgentProperties.InitialStateWellFormed(PickMessage(body.value), sid);
      }
      AgentProperties.RunKeepsWellFormed(Agent.CheckChitchatNode, input, o, Agent.RecursionLimit);
      AgentProperties.RunAppendsAssistantOnly(Agent.CheckChitchatNode, input, o, Agent.RecursionLimit);
      SettleKeepsStoreWellFormed(store, sid, input, Agent.Invoke(input, o).outcome, errorText);
    }
  }

  /** Filing two values under one key keeps the second. */
  lemma OverwriteTwice(store: Snapshot, k: string, first: Stored, second: Stored)
    ensures store[k := first][k := second] == store[k := second]
  {
  }

  /** What `session_store` holds under a key. */
  datatype Entry = Dict(state: Graph.AgentState) | NotDict

  /** The module-level `session_store`. */
  class SessionStore {
    var sessions: map<string, Entry>

    ghost function States(): set<Graph.AgentState>
      reads this
    {
      set k | k in sessions && sessions[k].Dict? :: sessions[k].state
    }

    ghost function Lists(): set<Graph.Transcript>
      reads this, States()
    {
      set st | st in States() :: st.messages
    }

    /** The store's contents as values. */
    ghost function Snapshot(): Snapshot
      reads this, States(), Lists()
    {
      map k | k in sessions :: if sessions[k].Dict? then StoredDict(sessions[k].state.View()) else StoredOther
    }

    /** No two sessions share a message list. */
    ghost predicate Valid()
      reads this, States()
    {
      forall k1, k2 :: k1 in sessions && k2 in sessions && k1 != k2 && sessions[k1].Dict? && sessions[k2].Dict? ==>
        sessions[k1].state.messages != sessions[k2].state.messages
    }

    constructor ()
      ensures Valid() && Snapshot() == map[]
    {
      sessions := map[];
    }

    /** Creates the session `sid` or appends the user's message to its transcript. */
    method Admit(sid: string, message: string) returns (stored: Graph.AgentState)
      requires Valid()
      modifies this, Lists()
      ensures Valid() && sid in sessions && sessions[sid] == Dict(stored)
      ensures stored.messages in old(Lists()) || fresh(stored.messages)
      ensures stored.View() == TurnInput(old(Snapshot()), message, sid)
      ensures Snapshot() == old(Snapshot())[sid := StoredDict(TurnInput(old(Snapshot()), message, sid))]
    {
      if sid !in sessions || sessions[sid].NotDict? {
        var init := Agent.BuildInitialState(message, sid);
        var list := new Graph.Transcript(init.messages);
        stored := new Graph.AgentState(list, init);
        sessions := sessions[sid := Dict(stored)];
      } else {
        stored := sessions[sid].state;
        stored.messages.Append(Agent.Message(Agent.User, message));
      }
    }

    /** `workflow.invoke(session_store[sid])`: the pass appends to the session's own message
        list and to no other. */
    method RunPass(sid: string, stored: Graph.AgentState, o: Agent.Oracles) returns (result: Graph.PassResult)
      requires Valid() && sid in sessions && sessions[sid] == Dict(stored)
      modifies stored.messages
      ensures Valid()
      ensures result.Finished? ==> fresh(result.state) && result.state.messages == stored.messages
      ensures Graph.Reached(result, stored.messages.items) == Agent.Invoke(old(stored.View()), o).outcome
      ensures Snapshot() == old(Snapshot())[sid := StoredDict(old(stored.View()).(messages := stored.messages.items))]
    {
      ghost var pre := Snapshot();
      result := Graph.Invoke(stored, o);
      forall k | k in sessions && k != sid
        ensures Snapshot()[k] == pre[k]
      {
        assert sessions[k].Dict? ==> sessions[k].state.messages != stored.messages;
      }
    }

    /** `session_store[sid] = state`, where `state` shares the message list of the dictionary it
        replaces. */
    method Replace(sid: string, stored: Graph.AgentState, state: Graph.AgentState)
      requires Valid() && sid in sessions && sessions[sid] == Dict(stored)
      requires state.messages == stored.messages
      modifies this
      ensures Valid()
      ensures Snapshot() == old(Snapshot())[sid := StoredDict(state.View())]
    {
      ghost var pre := Snapshot();
      sessions := sessions[sid := Dict(state)];
      forall k | k in sessions && k != sid
        ensures Snapshot()[k] == pre[k]
      {
      }
      assert Snapshot().Keys == pre.Keys;
    }

    /** `session_store[sid] = state` after a successful pass, and the response either way. */
    method Record(sid: string, stored: Graph.AgentState, result: Graph.PassResult, errorText: string,
                  ghost before: Snapshot, ghost input: Agent.State)
      returns (resp: Response)
      requires Valid() && sid in sessions && sessions[sid] == Dict(stored)
      requires result.Finished? ==> result.state.messages == stored.messages
      requires Snapshot() == before[sid := StoredDict(input.(messages := stored.messages.items))]
      modifies this
      ensures Valid()
      ensures Turn(resp, Snapshot()) == Settle(before, sid, input, Graph.Reached(result, stored.messages.items), errorText)
    {
      match result
      case Finished(state) =>
        Replace(sid, stored, state);
        assert Snapshot() == before[sid := StoredDict(state.View())];
        resp := Response(LastAssistantReply(state.messages.items), sid);
      case Aborted(_) =>
        resp := Response(ErrorPrefix + errorText, DefaultId);
    }

    /** chat: handles one request; see `ChatTurn`. */
    method Chat(body: Option<Request>, freshId: string, o: Agent.Oracles, errorText: string) returns (resp: Response)
      requires Valid()
      modifies this, Lists()
      ensures Valid()
      ensures ChatTurn(old(Snapshot()), body, freshId, o, errorText) == Turn(resp, Snapshot())
    {
      if body.None? {
        return Response(ErrorPrefix + errorText, DefaultId);
      }
      var req := body.value;
      var message := PickMessage(req);
      var sid := SessionIdFor(req, freshId);
      if message == "" {
        return Response(NoMessage, sid);
      }
      ghost var before := Snapshot();
      resp := Converse(sid, message, o, errorText);
      ChatTurnSettles(before, req, freshId, o, errorText);
    }

    /** The body of chat once the request has a message: admit it, run the pass, record the result. */
    method Converse(sid: string, message: string, o: Agent.Oracles, errorText: string) returns (resp: Response)
      requires Valid()
      modifies this, Lists()
      ensures Valid()
      ensures var input := TurnInput(old(Snapshot()), message, sid);
        Turn(resp, Snapshot()) == Settle(old(Snapshot()), sid, input, Agent.Invoke(input, o).outcome, errorText)
    {
      ghost var before := Snapshot();
      var stored := Admit(sid, message);
      ghost var input := stored.View();
      var result := RunPass(sid, stored, o);
      OverwriteTwice(before, sid, StoredDict(input), StoredDict(input.(messages := stored.messages.items)));
      resp := Record(sid, stored, result, errorText, before, input);
    }
  }
}
