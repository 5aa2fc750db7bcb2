/**
 * The orchestrator of agent/agent.go: `SendMessage` loads a chat, runs
 * the recursive tool loop `sendMessage` against the model, names new
 * chats with `chatName`, and persists what the call added.
 *
 * The model is a function of the tool belt and the history it is given.
 * Within one call every history it sees is different, so this loses no
 * generality there. The source's loop has no bound: it stops only when a
 * reply carries nil `FunctionCalls`. The model counts how many model
 * calls the loop may make (`fuel`) and reports `OutOfFuel` when that is
 * reached; the lemmas show that fuel changes nothing else.
 */
module Orchestrator {
  import opened Wrappers
  import opened JsonSchema
  import opened AgentChat
  import opened ToolRegistry

  /** `agent.Model.SendMessage`: the reply, or the backend's error. */
  type Model = (ToolBelt, seq<Message>) -> Result<Message, string>

  /** A call to a collaborator, in the order made. */
  datatype Event =
    | ModelCall(belt: ToolBelt, history: seq<Message>)
    | ToolCall(invocation: Invocation)

  /** What the tool loop records for a failed call: `{"error": text}`. */
  function ErrorPayload(text: string): Payload
  {
    map["error" := Str(text)]
  }

  /** The payload recorded for one dispatched call. */
  function Recorded(r: Result<Payload, string>): Payload
  {
    match r
    case Success(p) => p
    case Failure(e) => ErrorPayload(e)
  }

  /** The `FunctionResponses` map the loop fills for one reply, and the tool invocations made. */
  datatype Responses = Responses(responses: FunctionResponse, invoked: seq<Invocation>)

  /**
   * The inner loop of `sendMessage`: dispatch each call in emission
   * order and record its result, or its error, under the call's name.
   */
  function Respond(belt: ToolBelt, invoke: Invoker, calls: seq<FunctionCall>): Responses
  {
    if calls == [] then Responses(map[], []) else
      var prev := Respond(belt, invoke, calls[..|calls| - 1]);
      var c := calls[|calls| - 1];
      var d := Call(belt, invoke, c.name, c.args);
      Responses(prev.responses[c.name := Recorded(d.result)], prev.invoked + d.invoked)
  }

  /** The names a list of calls uses. */
  function Names(calls: seq<FunctionCall>): set<string>
  {
    set c | c in calls :: c.name
  }

  lemma NamesSnoc(calls: seq<FunctionCall>)
    requires calls != []
    ensures Names(calls) == Names(calls[..|calls| - 1]) + {calls[|calls| - 1].name}
  {
    assert calls == calls[..|calls| - 1] + [calls[|calls| - 1]];
  }

  /** The response map has one entry per distinct call name, and no other. */
  lemma {:induction false} RespondKeys(belt: ToolBelt, invoke: Invoker, calls: seq<FunctionCall>)
    ensures Respond(belt, invoke, calls).responses.Keys == Names(calls)
  {
    if calls != [] {
      RespondKeys(belt, invoke, calls[..|calls| - 1]);
      NamesSnoc(calls);
    }
  }

  /**
   * The entry for a name is the result of the last call with that name:
   * a later call overwrites an earlier one, and a failure is recorded as
   * `{"error": text}` instead of stopping the loop.
   */
  lemma {:induction false} RespondLastWins(belt: ToolBelt, invoke: Invoker, calls: seq<FunctionCall>, i: int)
    requires 0 <= i < |calls|
    requires forall j :: i < j < |calls| ==> calls[j].name != calls[i].name
    ensures calls[i].name in Respond(belt, invoke, calls).responses
    ensures Respond(belt, invoke, calls).responses[calls[i].name]
      == Recorded(Call(belt, invoke, calls[i].name, calls[i].args).result)
  {
    var n := |calls| - 1;
    if i < n {
      var init := calls[..n];
      assert forall j :: i < j < |init| ==> init[j] == calls[j];
      RespondLastWins(belt, invoke, init, i);
    }
  }

  /** Reference order of dispatch: the first call first, then the rest. */
  function DispatchOrder(belt: ToolBelt, invoke: Invoker, calls: seq<FunctionCall>): seq<Invocation>
  {
    if calls == [] then [] else
      Call(belt, invoke, calls[0].name, calls[0].args).invoked + DispatchOrder(belt, invoke, calls[1..])
  }

  lemma {:induction false} DispatchOrderSnoc(belt: ToolBelt, invoke: Invoker, calls: seq<FunctionCall>, c: FunctionCall)
    ensures DispatchOrder(belt, invoke, calls + [c])
      == DispatchOrder(belt, invoke, calls) + Call(belt, invoke, c.name, c.args).invoked
  {
    if calls != [] {
      assert (calls + [c])[1..] == calls[1..] + [c];
      DispatchOrderSnoc(belt, invoke, calls[1..], c);
    }
  }

  /** Calls are dispatched one at a time, in the order the model emitted them. */
  lemma {:induction false} RespondInOrder(belt: ToolBelt, invoke: Invoker, calls: seq<FunctionCall>)
    ensures Respond(belt, invoke, calls).invoked == DispatchOrder(belt, invoke, calls)
  {
    if calls != [] {
      var init := calls[..|calls| - 1];
      RespondInOrder(belt, invoke, init);
      DispatchOrderSnoc(belt, invoke, init, calls[|calls| - 1]);
      assert init + [calls[|calls| - 1]] == calls;
    }
  }

  /** The user-authored message that carries tool results back to the model. */
  function ToolResults(responses: FunctionResponse): Message
  {
    Message(User, "", None, responses)
  }

  function ToolEvents(invocations: seq<Invocation>): seq<Event>
  {
    seq(|invocations|, i requires 0 <= i < |invocations| => ToolCall(invocations[i]))
  }

  /** How the tool loop ended. */
  datatype Outcome =
    | Finished(messages: seq<Message>)
    | ModelFailed(error: string)
    | OutOfFuel

  datatype Turns = Turns(outcome: Outcome, events: seq<Event>)

  /**
   * `sendMessage`: ask the model, append its reply; if the reply has
   * calls, dispatch them, append the results message and recurse on the
   * longer history; a model error ends the loop.
   */
  function SendLoop(model: Model, belt: ToolBelt, invoke: Invoker, messages: seq<Message>, fuel: nat): (t: Turns)
    decreases fuel
    ensures t.outcome.Finished? ==>
      var ms := t.outcome.messages;
      && |ms| > |messages|
      && ms[..|messages|] == messages
      && ms[|ms| - 1].functionCalls.None?
  {
    if fuel == 0 then Turns(OutOfFuel, []) else
      var call := ModelCall(belt, messages);
      match model(belt, messages)
      case Failure(e) => Turns(ModelFailed(e), [call])
      case Success(rsp) =>
        var msgs := messages + [rsp];
        if rsp.functionCalls.None? then Turns(Finished(msgs), [call]) else
          var answered := Respond(belt, invoke, rsp.functionCalls.value);
          var next := SendLoop(model, belt, invoke, msgs + [ToolResults(answered.responses)], fuel - 1);
          Turns(next.outcome, [call] + ToolEvents(answered.invoked) + next.events)
  }

  /** Position `k` of a transcript that starts at `start`. */
  ghost predicate TurnAt(model: Model, belt: ToolBelt, invoke: Invoker, ms: seq<Message>, start: nat, k: int)
    requires start <= k < |ms|
  {
    if (k - start) % 2 == 0 then
      && model(belt, ms[..k]) == Success(ms[k])
      && (ms[k].functionCalls.None? <==> k == |ms| - 1)
    else
      && ms[k - 1].functionCalls.Some?
      && ms[k] == ToolResults(Respond(belt, invoke, ms[k - 1].functionCalls.value).responses)
  }

  /**
   * Reference definition of a finished loop, without recursion: from
   * `start` on, model replies and results messages alternate; every reply
   * is the model's answer to everything before it; every reply but the
   * last has calls, and each results message answers the reply before it.
   */
  ghost predicate Transcript(model: Model, belt: ToolBelt, invoke: Invoker, ms: seq<Message>, start: nat)
  {
    && start < |ms|
    && (|ms| - start) % 2 == 1
    && forall k :: start <= k < |ms| ==> TurnAt(model, belt, invoke, ms, start, k)
  }

  lemma TranscriptShift(model: Model, belt: ToolBelt, invoke: Invoker, ms: seq<Message>, start: nat, k: int)
    requires start + 2 <= k < |ms|
    ensures TurnAt(model, belt, invoke, ms, start, k) == TurnAt(model, belt, invoke, ms, start + 2, k)
  {
    assert (k - start) % 2 == (k - (start + 2)) % 2;
  }

  /** A turn with calls, put in front of a transcript, gives a longer transcript. */
  lemma TranscriptPrepend(model: Model, belt: ToolBelt, invoke: Invoker, ms: seq<Message>, h: seq<Message>,
                           rsp: Message, results: Message)
    requires model(belt, h) == Success(rsp) && rsp.functionCalls.Some?
    requires results == ToolResults(Respond(belt, invoke, rsp.functionCalls.value).responses)
    requires |h| + 2 <= |ms| && ms[..|h| + 2] == h + [rsp] + [results]
    requires Transcript(model, belt, invoke, ms, |h| + 2)
    ensures ms[..|h|] == h && Transcript(model, belt, invoke, ms, |h|)
  {
    assert ms[..|h|] == (h + [rsp] + [results])[..|h|] == h;
    assert ms[|h|] == rsp && ms[|h| + 1] == results;
    forall k | |h| <= k < |ms| ensures TurnAt(model, belt, invoke, ms, |h|, k) {
      if k >= |h| + 2 {
        TranscriptShift(model, belt, invoke, ms, |h|, k);
      } else if k == |h| {
        assert ms[k] == rsp;
      } else {
        assert ms[k - 1] == rsp;
      }
    }
  }

  /** A reply without calls, after `h`, is a transcript on its own. */
  lemma TranscriptStop(model: Model, belt: ToolBelt, invoke: Invoker, h: seq<Message>, rsp: Message)
    requires model(belt, h) == Success(rsp) && rsp.functionCalls.None?
    ensures (h + [rsp])[..|h|] == h && Transcript(model, belt, invoke, h + [rsp], |h|)
  {
    assert (h + [rsp])[..|h|] == h;
    assert TurnAt(model, belt, invoke, h + [rsp], |h|, |h|);
  }

  /** Soundness: what the loop returns is a transcript that extends its input. */
  lemma {:induction false} SendLoopSound(model: Model, belt: ToolBelt, invoke: Invoker, h: seq<Message>, fuel: nat,
                                         ms: seq<Message>)
    requires SendLoop(model, belt, invoke, h, fuel).outcome == Finished(ms)
    ensures ms[..|h|] == h && Transcript(model, belt, invoke, ms, |h|)
    decreases fuel
  {
    var rsp := model(belt, h).value;
    if rsp.functionCalls.None? {
      TranscriptStop(model, belt, invoke, h, rsp);
    } else {
      var results := ToolResults(Respond(belt, invoke, rsp.functionCalls.value).responses);
      SendLoopSound(model, belt, invoke, h + [rsp] + [results], fuel - 1, ms);
      TranscriptPrepend(model, belt, invoke, ms, h, rsp, results);
    }
  }

  /**
   * Completeness: given enough fuel, the loop returns every transcript
   * that extends its input. With `SendLoopSound` this makes `Transcript`
   * an exact description of the loop's result.
   */
  lemma {:induction false} SendLoopComplete(model: Model, belt: ToolBelt, invoke: Invoker, h: seq<Message>, ms: seq<Message>, fuel: nat)
    requires |h| <= |ms| && ms[..|h|] == h
    requires Transcript(model, belt, invoke, ms, |h|)
    requires fuel > (|ms| - |h|) / 2
    ensures SendLoop(model, belt, invoke, h, fuel).outcome == Finished(ms)
    decreases fuel
  {
    assert TurnAt(model, belt, invoke, ms, |h|, |h|);
    assert ms[..|h|] == h;
    var rsp := ms[|h|];
    if rsp.functionCalls.None? {
      assert ms == h + [rsp];
    } else {
      assert TurnAt(model, belt, invoke, ms, |h|, |h| + 1);
      var h2 := ms[..|h| + 2];
      assert h2 == h + [rsp] + [ms[|h| + 1]];
      forall k | |h2| <= k < |ms| ensures TurnAt(model, belt, invoke, ms, |h2|, k) {
        TranscriptShift(model, belt, invoke, ms, |h|, k);
      }
      SendLoopComplete(model, belt, invoke, h2, ms, fuel - 1);
    }
  }

  /** In a transcript, a reply with calls is followed by the results message answering it. */
  lemma TranscriptResultsFollowCalls(model: Model, belt: ToolBelt, invoke: Invoker, ms: seq<Message>, start: nat, k: int)
    requires Transcript(model, belt, invoke, ms, start)
    requires start <= k < |ms| && ms[k].functionCalls.Some?
    ensures k + 1 < |ms|
    ensures ms[k + 1] == ToolResults(Respond(belt, invoke, ms[k].functionCalls.value).responses)
  {
    assert TurnAt(model, belt, invoke, ms, start, k);
    if (k - start) % 2 == 1 {
      assert false;
    }
    assert (k + 1 - start) % 2 == 1;
    assert TurnAt(model, belt, invoke, ms, start, k + 1);
  }

  /**
   * Every reply with calls is followed at once by exactly one
   * user-authored message with no calls, whose response keys are the
   * reply's call names.
   */
  lemma ToolResultsFollowCalls(model: Model, belt: ToolBelt, invoke: Invoker, h: seq<Message>, fuel: nat,
                                ms: seq<Message>, k: int)
    requires SendLoop(model, belt, invoke, h, fuel).outcome == Finished(ms)
    requires |h| <= k < |ms| && ms[k].functionCalls.Some?
    ensures k + 1 < |ms|
    ensures ms[k + 1].author == User && ms[k + 1].functionCalls.None?
    ensures ms[k + 1].functionResponses.Keys == Names(ms[k].functionCalls.value)
  {
    SendLoopSound(model, belt, invoke, h, fuel, ms);
    TranscriptResultsFollowCalls(model, belt, invoke, ms, |h|, k);
    RespondKeys(belt, invoke, ms[k].functionCalls.value);
  }

  /** Fuel is only a bound: once the loop ends, more fuel gives the same run. */
  lemma {:induction false} FuelIrrelevant(model: Model, belt: ToolBelt, invoke: Invoker, h: seq<Message>, fuel: nat, more: nat)
    requires !SendLoop(model, belt, invoke, h, fuel).outcome.OutOfFuel?
    requires fuel <= more
    ensures SendLoop(model, belt, invoke, h, more) == SendLoop(model, belt, invoke, h, fuel)
    decreases fuel
  {
    var rsp := model(belt, h);
    if rsp.Success? && rsp.value.functionCalls.Some? {
      var answered := Respond(belt, invoke, rsp.value.functionCalls.value);
      FuelIrrelevant(model, belt, invoke, h + [rsp.value] + [ToolResults(answered.responses)], fuel - 1, more - 1);
    }
  }

  /**
   * There is no retry ceiling: a model that always asks for tools keeps
   * the loop going however the tools answer, so no amount of fuel ends it.
   */
  lemma {:induction false} NoStopWhileCallsRequested(model: Model, belt: ToolBelt, invoke: Invoker, h: seq<Message>, fuel: nat)
    requires forall hist :: model(belt, hist).Success? && model(belt, hist).value.functionCalls.Some?
    ensures SendLoop(model, belt, invoke, h, fuel).outcome == OutOfFuel
    decreases fuel
  {
    if fuel > 0 {
      var rsp := model(belt, h).value;
      var answered := Respond(belt, invoke, rsp.functionCalls.value);
      NoStopWhileCallsRequested(model, belt, invoke, h + [rsp] + [ToolResults(answered.responses)], fuel - 1);
    }
  }

  const TitleInstruction: string :=
    "Sum up this chat as one short nouns phrase, focusing on the user question."

  /** The extra message `chatName` appends to the history. */
  function TitleRequest(): Message
  {
    Message(User, TitleInstruction, None, map[])
  }

  /** The title the model gives for `messages`, asked with no tools. */
  function TitleOf(model: Model, messages: seq<Message>): Result<string, string>
  {
    match model(map[], messages + [TitleRequest()])
    case Success(m) => Success(m.text)
    case Failure(e) => Failure(e)
  }

  /** What `SendMessage` returns. */
  datatype SendOutcome =
    | Sent(messages: seq<Message>)
    | Failed(error: string)
    | Unfinished   // the fuel ran out while the model kept asking for tools

  /** One `SendMessage` call: its result, its store writes and its model and tool calls. */
  datatype Run = Run(outcome: SendOutcome, storeCalls: seq<StoreCall>, events: seq<Event>)

  /**
   * The part of `SendMessage` after the tool loop finished with `msgs`:
   * name a chat that had no stored history, then write what is new since
   * the load. `events` are the model calls this part makes.
   */
  function Persist(model: Model, id: string, stored: seq<Message>, msgs: seq<Message>,
                   saveError: Option<string>, writeError: Option<string>): (run: Run)
    requires |stored| < |msgs|
    // a chat with history is never named again
    ensures stored != [] ==> run.events == [] && run.storeCalls == [SaveMessagesCall(id, msgs[|stored|..])]
    // a new chat costs one extra model call, with no tools, for its title
    ensures stored == [] ==> run.events == [ModelCall(map[], msgs + [TitleRequest()])]
    // a failed title or a failed save stops the call before the messages are written
    ensures stored == [] ==>
      && (TitleOf(model, msgs).Failure? ==>
            run.storeCalls == [] && run.outcome == Failed(TitleOf(model, msgs).error))
      && (TitleOf(model, msgs).Success? && saveError.Some? ==>
            run.storeCalls == [SaveCall(id, TitleOf(model, msgs).value)] && run.outcome == Failed(saveError.value))
      && (TitleOf(model, msgs).Success? && saveError.None? ==>
            run.storeCalls == [SaveCall(id, TitleOf(model, msgs).value), SaveMessagesCall(id, msgs[|stored|..])])
    // success returns exactly the messages written
    ensures run.outcome.Sent? <==> writeError.None? && (stored == [] ==> TitleOf(model, msgs).Success? && saveError.None?)
    ensures run.outcome.Sent? ==>
      && run.outcome.messages == msgs[|stored|..]
      && run.storeCalls[|run.storeCalls| - 1] == SaveMessagesCall(id, msgs[|stored|..])
    ensures !run.outcome.Sent? ==> run.outcome.Failed?
  {
    var newMessages := msgs[|stored|..];
    var written := [SaveMessagesCall(id, newMessages)];
    var result := if writeError.Some? then Failed(writeError.value) else Sent(newMessages);
    if stored != [] then Run(result, written, []) else
      var titled := [ModelCall(map[], msgs + [TitleRequest()])];
      match TitleOf(model, msgs)
      case Failure(e) => Run(Failed(e), [], titled)
      case Success(title) =>
        if saveError.Some? then Run(Failed(saveError.value), [SaveCall(id, title)], titled)
        else Run(result, [SaveCall(id, title)] + written, titled)
  }

  /**
   * `SendMessage` as a function of the collaborators' answers: `loaded`
   * is what `GetMessages` returns, `saveError` and `writeError` what
   * `Save` and `SaveMessages` fail with, if anything.
   */
  function SendSpec(model: Model, belt: ToolBelt, invoke: Invoker, fuel: nat, id: string, text: string,
                    loaded: Result<seq<Message>, string>, saveError: Option<string>, writeError: Option<string>): (run: Run)
    // a failed load makes no model, tool or store call
    ensures loaded.Failure? ==> run == Run(Failed(loaded.error), [], [])
    // nothing is written unless the tool loop finished: a model error at any depth writes nothing
    ensures loaded.Success? && !SendLoop(model, belt, invoke, loaded.value + [UserMessage(text)], fuel).outcome.Finished? ==>
      && run.storeCalls == []
      && !run.outcome.Sent?
      && run.events == SendLoop(model, belt, invoke, loaded.value + [UserMessage(text)], fuel).events
    // a model error at any depth is returned as the call's error
    ensures loaded.Success? && SendLoop(model, belt, invoke, loaded.value + [UserMessage(text)], fuel).outcome.ModelFailed? ==>
      run.outcome == Failed(SendLoop(model, belt, invoke, loaded.value + [UserMessage(text)], fuel).outcome.error)
    ensures loaded.Success? && SendLoop(model, belt, invoke, loaded.value + [UserMessage(text)], fuel).outcome.OutOfFuel? ==>
      run.outcome == Unfinished
    // a finished loop costs the loop's events, then what persisting costs
    ensures loaded.Success? && SendLoop(model, belt, invoke, loaded.value + [UserMessage(text)], fuel).outcome.Finished? ==>
      var turns := SendLoop(model, belt, invoke, loaded.value + [UserMessage(text)], fuel);
      var p := Persist(model, id, loaded.value, turns.outcome.messages, saveError, writeError);
      run == Run(p.outcome, p.storeCalls, turns.events + p.events)
  {
    match loaded
    case Failure(e) => Run(Failed(e), [], [])
    case Success(stored) =>
      var turns := SendLoop(model, belt, invoke, stored + [UserMessage(text)], fuel);
      match turns.outcome
      case ModelFailed(e) => Run(Failed(e), [], turns.events)
      case OutOfFuel => Run(Unfinished, [], turns.events)
      case Finished(msgs) =>
        var p := Persist(model, id, stored, msgs, saveError, writeError);
        Run(p.outcome, p.storeCalls, turns.events + p.events)
  }

  /**
   * On success, `SendMessage` returns the user's message followed by
   * exactly what the tool loop added after it, and writes all of it in
   * its last store call.
   */
  lemma SentIsLoopSuffix(model: Model, belt: ToolBelt, invoke: Invoker, fuel: nat, id: string, text: string,
                         loaded: Result<seq<Message>, string>, saveError: Option<string>, writeError: Option<string>)
    requires SendSpec(model, belt, invoke, fuel, id, text, loaded, saveError, writeError).outcome.Sent?
    ensures var run := SendSpec(model, belt, invoke, fuel, id, text, loaded, saveError, writeError);
      && loaded.Success?
      && SendLoop(model, belt, invoke, loaded.value + [UserMessage(text)], fuel).outcome
           == Finished(loaded.value + run.outcome.messages)
      && run.outcome.messages[0] == UserMessage(text)
      && run.storeCalls != []
      && run.storeCalls[|run.storeCalls| - 1] == SaveMessagesCall(id, run.outcome.messages)
  {
    var stored := loaded.value;
    var h := stored + [UserMessage(text)];
    var turns := SendLoop(model, belt, invoke, h, fuel);
    assert turns.outcome.Finished?;
    var msgs := turns.outcome.messages;
    var p := Persist(model, id, stored, msgs, saveError, writeError);
    assert SendSpec(model, belt, invoke, fuel, id, text, loaded, saveError, writeError)
      == Run(p.outcome, p.storeCalls, turns.events + p.events);
    assert p.outcome.messages == msgs[|stored|..];
    assert msgs[..|h|] == h;
    assert msgs == msgs[..|stored|] + msgs[|stored|..];
    assert msgs[..|stored|] == h[..|stored|] == stored;
    assert msgs[|stored|] == h[|stored|];
  }

  /**
   * What the store holds after persisting: rows change only when the
   * call succeeds, and then only the chat's own, by the returned
   * messages; a title is stored only for a chat without history whose
   * naming and save went through.
   */
  lemma PersistWrites(model: Model, id: string, stored: seq<Message>, msgs: seq<Message>,
                      saveError: Option<string>, writeError: Option<string>,
                      conversations: map<string, seq<Message>>, titles: map<string, string>)
    requires |stored| < |msgs|
    ensures var p := Persist(model, id, stored, msgs, saveError, writeError);
      Written(conversations, p.storeCalls, writeError) ==
        if p.outcome.Sent? then conversations[id := Rows(conversations, id) + p.outcome.messages]
        else conversations
    ensures var p := Persist(model, id, stored, msgs, saveError, writeError);
      Titled(titles, p.storeCalls, saveError) ==
        if stored == [] && TitleOf(model, msgs).Success? && saveError.None?
        then titles[id := TitleOf(model, msgs).value]
        else titles
  {
    var p := Persist(model, id, stored, msgs, saveError, writeError);
    var written := SaveMessagesCall(id, msgs[|stored|..]);
    if stored != [] {
      assert p.storeCalls == [written];
      assert [written][..0] == [];
    } else if TitleOf(model, msgs).Success? {
      var named := SaveCall(id, TitleOf(model, msgs).value);
      if saveError.Some? {
        assert p.storeCalls == [named];
        assert [named][..0] == [];
      } else {
        assert p.storeCalls == [named, written];
        assert [named, written][..1] == [named];
        assert [named][..0] == [];
        assert Written(conversations, [named], writeError) == conversations;
        assert Titled(titles, [named], saveError) == titles[id := named.title];
      }
    }
  }

  /**
   * What the store holds after `SendMessage`: a call that does not
   * succeed leaves every conversation as it was; a successful one appends
   * the returned messages to its own conversation and touches no other.
   */
  lemma StoredAfterSend(model: Model, belt: ToolBelt, invoke: Invoker, fuel: nat, id: string, text: string,
                        loaded: Result<seq<Message>, string>, saveError: Option<string>, writeError: Option<string>,
                        conversations: map<string, seq<Message>>)
    ensures var run := SendSpec(model, belt, invoke, fuel, id, text, loaded, saveError, writeError);
      Written(conversations, run.storeCalls, writeError) ==
        if run.outcome.Sent? then conversations[id := Rows(conversations, id) + run.outcome.messages]
        else conversations
  {
    if loaded.Success? {
      var turns := SendLoop(model, belt, invoke, loaded.value + [UserMessage(text)], fuel);
      if turns.outcome.Finished? {
        PersistWrites(model, id, loaded.value, turns.outcome.messages, saveError, writeError, conversations, map[]);
      }
    }
  }

  /**
   * Only a chat with no stored history gets a title, and only when the
   * loop finished, the model named it and the save went through; no other
   * title changes.
   */
  lemma TitledAfterSend(model: Model, belt: ToolBelt, invoke: Invoker, fuel: nat, id: string, text: string,
                        loaded: Result<seq<Message>, string>, saveError: Option<string>, writeError: Option<string>,
                        titles: map<string, string>)
    ensures loaded.Failure? ==>
      Titled(titles, SendSpec(model, belt, invoke, fuel, id, text, loaded, saveError, writeError).storeCalls, saveError) == titles
    ensures loaded.Success? ==>
      var run := SendSpec(model, belt, invoke, fuel, id, text, loaded, saveError, writeError);
      var turns := SendLoop(model, belt, invoke, loaded.value + [UserMessage(text)], fuel);
      Titled(titles, run.storeCalls, saveError) ==
        if loaded.value == [] && turns.outcome.Finished?
           && TitleOf(model, turns.outcome.messages).Success? && saveError.None?
        then titles[id := TitleOf(model, turns.outcome.messages).value]
        else titles
  {
    if loaded.Success? {
      var turns := SendLoop(model, belt, invoke, loaded.value + [UserMessage(text)], fuel);
      if turns.outcome.Finished? {
        PersistWrites(model, id, loaded.value, turns.outcome.messages, saveError, writeError, map[], titles);
      }
    }
  }

  /**
   * A new chat whose title is saved but whose messages fail to be written
   * keeps its title and gains no rows, so the call is not all-or-nothing:
   * the next `SendMessage` loads an empty history again and names the chat
   * a second time.
   */
  lemma TitledButUnwritten(model: Model, belt: ToolBelt, invoke: Invoker, fuel: nat, id: string, text: string,
                           e: string, conversations: map<string, seq<Message>>, titles: map<string, string>)
    requires SendLoop(model, belt, invoke, [UserMessage(text)], fuel).outcome.Finished?
    requires TitleOf(model, SendLoop(model, belt, invoke, [UserMessage(text)], fuel).outcome.messages).Success?
    ensures var run := SendSpec(model, belt, invoke, fuel, id, text, Success([]), None, Some(e));
      && run.outcome == Failed(e)
      && id in Titled(titles, run.storeCalls, None)
      && Written(conversations, run.storeCalls, Some(e)) == conversations
  {
    assert [] + [UserMessage(text)] == [UserMessage(text)];
    StoredAfterSend(model, belt, invoke, fuel, id, text, Success([]), None, Some(e), conversations);
    TitledAfterSend(model, belt, invoke, fuel, id, text, Success([]), None, Some(e), titles);
  }

  /** The loop of `SendMessage` that appends the tool loop's additions to the chat, one by one. */
  method AddAll(c: Chat, additions: seq<Message>)
    modifies c`messages
    ensures c.messages == old(c.messages) + additions
    ensures c.savedIndex == old(c.savedIndex) && c.isNew == old(c.isNew) && c.name == old(c.name)
  {
    for i := 0 to |additions|
      invariant c.messages == old(c.messages) + additions[..i]
      invariant c.savedIndex == old(c.savedIndex) && c.isNew == old(c.isNew) && c.name == old(c.name)
    {
      c.AddMessage(additions[i]);
    }
  }

  /** `agent.Agent` with its collaborators. */
  class Agent {
    const toolBelt: ToolBelt
    const chatStore: Store
    const model: Model
    const invoke: Invoker
    const fuel: nat
    ghost var trace: seq<Event>

    /** `NewAgent`. */
    constructor (toolBelt: ToolBelt, chatStore: Store, model: Model, invoke: Invoker, fuel: nat)
      ensures this.toolBelt == toolBelt && this.chatStore == chatStore && this.model == model
      ensures this.invoke == invoke && this.fuel == fuel && trace == []
    {
      this.toolBelt := toolBelt;
      this.chatStore := chatStore;
      this.model := model;
      this.invoke := invoke;
      this.fuel := fuel;
      trace := [];
    }

    /** `chatName`: one model call, with no tools, on the history plus the title request. */
    method ChatName(messages: seq<Message>) returns (r: Result<string, string>)
      modifies this`trace
      ensures trace == old(trace) + [ModelCall(map[], messages + [TitleRequest()])]
      ensures r == TitleOf(model, messages)
    {
      trace := trace + [ModelCall(map[], messages + [TitleRequest()])];
      var rsp := model(map[], messages + [TitleRequest()]);
      if rsp.Failure? {
        return Failure(rsp.error);
      }
      r := Success(rsp.value.text);
    }

    /** Lines 52-60 of `SendMessage`: a new chat is named by the model and saved under that title. */
    method NameNew(c: Chat, msgs: seq<Message>) returns (err: Option<string>)
      requires c.store == chatStore && c.isNew
      modifies c`name, c`isNew, this`trace, chatStore`titles, chatStore`log
      ensures trace == old(trace) + [ModelCall(map[], msgs + [TitleRequest()])]
      ensures TitleOf(model, msgs).Failure? ==>
        err == Some(TitleOf(model, msgs).error) && chatStore.log == old(chatStore.log) && chatStore.titles == old(chatStore.titles)
      ensures TitleOf(model, msgs).Success? ==>
        && err == chatStore.saveError
        && chatStore.log == old(chatStore.log) + [SaveCall(c.id, TitleOf(model, msgs).value)]
        && chatStore.titles ==
             if err.None? then old(chatStore.titles)[c.id := TitleOf(model, msgs).value] else old(chatStore.titles)
    {
      var name := ChatName(msgs);
      if name.Failure? {
        return Some(name.error);
      }
      err := c.SaveWithTitle(name.value);
    }

    /** Lines 63-70 of `SendMessage`: write the unsaved suffix and return it. */
    method SaveSuffix(c: Chat, ghost stored: seq<Message>, msgs: seq<Message>) returns (r: SendOutcome)
      requires c.store == chatStore && c.messages == msgs && |stored| < |msgs| && c.savedIndex == |stored|
      modifies chatStore`conversations, chatStore`log
      ensures chatStore.log == old(chatStore.log) + [SaveMessagesCall(c.id, msgs[|stored|..])]
      ensures r == if chatStore.writeError.Some? then Failed(chatStore.writeError.value) else Sent(msgs[|stored|..])
      ensures chatStore.conversations ==
        if r.Sent? then old(chatStore.conversations)[c.id := old(chatStore.Stored(c.id)) + msgs[|stored|..]]
        else old(chatStore.conversations)
    {
      var newMsgs := c.GetNewMessages();
      assert newMsgs == msgs[|stored|..];
      var err := c.SaveNewMessages();
      if err.Some? {
        return Failed(err.value);
      }
      r := Sent(newMsgs);
    }

    /**
     * Lines 51-70 of `SendMessage`: name a new chat, then persist the
     * unsaved suffix.
     */
    method NameAndSave(c: Chat, ghost stored: seq<Message>, msgs: seq<Message>) returns (r: SendOutcome)
      requires c.store == chatStore && c.messages == msgs && |stored| < |msgs|
      requires c.savedIndex == |stored| && c.isNew == (stored == [])
      modifies c`name, c`isNew, this`trace, chatStore`conversations, chatStore`titles, chatStore`log
      ensures var run := Persist(model, c.id, stored, msgs, chatStore.saveError, chatStore.writeError);
        && r == run.outcome
        && chatStore.log == old(chatStore.log) + run.storeCalls
        && trace == old(trace) + run.events
        && chatStore.conversations == Written(old(chatStore.conversations), run.storeCalls, chatStore.writeError)
        && chatStore.titles == Titled(old(chatStore.titles), run.storeCalls, chatStore.saveError)
      ensures r.Sent? ==> chatStore.Stored(c.id) == old(chatStore.Stored(c.id)) + r.messages
    {
      PersistWrites(model, c.id, stored, msgs, chatStore.saveError, chatStore.writeError,
                    chatStore.conversations, chatStore.titles);
      ghost var spec := Persist(model, c.id, stored, msgs, chatStore.saveError, chatStore.writeError);
      ghost var titled := [ModelCall(map[], msgs + [TitleRequest()])];
      ghost var written := SaveMessagesCall(c.id, msgs[|stored|..]);
      ghost var log0 := chatStore.log;
      if c.IsNew() {
        var err := NameNew(c, msgs);
        if TitleOf(model, msgs).Failure? {
          assert spec == Run(Failed(TitleOf(model, msgs).error), [], titled);
          return Failed(err.value);
        }
        ghost var named := SaveCall(c.id, TitleOf(model, msgs).value);
        if err.Some? {
          assert spec == Run(Failed(err.value), [named], titled);
          return Failed(err.value);
        }
        assert spec.storeCalls == [named, written] && spec.events == titled;
        r := SaveSuffix(c, stored, msgs);
        assert chatStore.log == log0 + [named, written];
      } else {
        assert spec.storeCalls == [written] && spec.events == [];
        r := SaveSuffix(c, stored, msgs);
      }
    }

    /** `SendMessage`. */
    method SendMessage(chatID: string, msg: string) returns (r: SendOutcome)
      modifies this`trace, chatStore`conversations, chatStore`titles, chatStore`log
      ensures var run := SendSpec(model, toolBelt, invoke, fuel, chatID, msg,
                                  old(chatStore.Loaded(chatID)), chatStore.saveError, chatStore.writeError);
        && r == run.outcome
        && chatStore.log == old(chatStore.log) + run.storeCalls
        && trace == old(trace) + run.events
        && chatStore.conversations == Written(old(chatStore.conversations), run.storeCalls, chatStore.writeError)
        && chatStore.titles == Titled(old(chatStore.titles), run.storeCalls, chatStore.saveError)
      ensures r.Sent? ==> chatStore.Stored(chatID) == old(chatStore.Stored(chatID)) + r.messages
    {
      var load := Chat.Load(chatID, chatStore);
      if load.Failure? {
        return Failed(load.error);
      }
      r := Converse(load.value, msg);
    }

    /** Lines 39-70 of `SendMessage`, on a loaded chat. */
    method Converse(c: Chat, msg: string) returns (r: SendOutcome)
      requires c.store == chatStore && c.savedIndex == |c.messages| && c.isNew == (c.messages == [])
      modifies c, this`trace, chatStore`conversations, chatStore`titles, chatStore`log
      ensures var run := SendSpec(model, toolBelt, invoke, fuel, c.id, msg,
                                  Success(old(c.messages)), chatStore.saveError, chatStore.writeError);
        && r == run.outcome
        && chatStore.log == old(chatStore.log) + run.storeCalls
        && trace == old(trace) + run.events
        && chatStore.conversations == Written(old(chatStore.conversations), run.storeCalls, chatStore.writeError)
        && chatStore.titles == Titled(old(chatStore.titles), run.storeCalls, chatStore.saveError)
      ensures r.Sent? ==> chatStore.Stored(c.id) == old(chatStore.Stored(c.id)) + r.messages
    {
      ghost var stored := c.messages;
      ghost var spec := SendSpec(model, toolBelt, invoke, fuel, c.id, msg, Success(stored), chatStore.saveError, chatStore.writeError);
      c.AddUserMessage(msg);

      var history := c.Messages();
      assert history == stored + [UserMessage(msg)];
      var turns := SendLoop(model, toolBelt, invoke, history, fuel);
      trace := trace + turns.events;
      if turns.outcome.ModelFailed? {
        assert spec == Run(Failed(turns.outcome.error), [], turns.events);
        return Failed(turns.outcome.error);
      }
      if turns.outcome.OutOfFuel? {
        assert spec == Run(Unfinished, [], turns.events);
        return Unfinished;
      }
      var msgs := turns.outcome.messages;
      AddAll(c, msgs[|history|..]);
      assert c.messages == msgs;
      ghost var p := Persist(model, c.id, stored, msgs, chatStore.saveError, chatStore.writeError);
      assert spec == Run(p.outcome, p.storeCalls, turns.events + p.events);
      r := NameAndSave(c, stored, msgs);
    }
  }
}
