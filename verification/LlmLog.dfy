/**
 * What every run of an LLM agent leaves behind: the session and the stream agree at every yield, every call is
 * answered in order, and every call that pauses the invocation can be found again.
 */
module LlmLog {
  import opened Wrappers
  import opened Genai
  import opened Attributes
  import opened Dispatch
  import opened CodeExec
  import opened LlmAgent
  import opened Hosting

  // ---- What the laws say -------------------------------------------------------------------------------

  predicate Kept(e: Event) {
    e.partial != Some(true) && !Marker(e)
  }

  /** The yielded events that belong in the session, in order. */
  function KeptIn(stream: seq<Event>): seq<Event> {
    if stream == [] then []
    else
      var e := stream[|stream| - 1];
      KeptIn(stream[..|stream| - 1]) + (if Kept(e) then [e] else [])
  }

  /**
   * The agent's own doing leaves the session the initial one followed by the kept events of the stream; with what a
   * runner does, all events of the stream that are not partial follow.
   */
  ghost predicate InSync(log: seq<Event>, t: seq<Op>) {
    Applied(log, t) == log + KeptIn(Yields(t)) && Mirrors(log, t)
  }

  /** Whenever an event is handed out, the session is the initial one followed by the events handed out so far. */
  ghost predicate InSyncAtYields(log: seq<Event>, t: seq<Op>) {
    forall i | 0 <= i < |t| && t[i].Yield? :: InSync(log, t[..i + 1])
  }

  /** A response to a call: its id, and its name unless the call waits for the user. */
  predicate Answered(r: FunctionResponse, fc: FunctionCall) {
    && r.id == fc.id
    && (r.name == fc.name || (r.name in {CONFIRMATION_NAME, CREDENTIAL_NAME} && r.willContinue == Some(true)))
  }

  /** Ids of the responses that are not final. */
  function WaitingIds(rs: seq<FunctionResponse>): seq<string> {
    if rs == [] then []
    else
      var r := rs[|rs| - 1];
      WaitingIds(rs[..|rs| - 1]) + (if r.willContinue == Some(true) && r.id.Some? then [r.id.value] else [])
  }

  /** One response per call, in the same order; the event lists the calls that wait. */
  ghost predicate AnswerTo(rs: seq<FunctionResponse>, te: Event, e: Event) {
    var calls := FunctionCalls(e);
    && te.response.content == Some(ToolContent(rs))
    && |rs| == |calls|
    && (forall k | 0 <= k < |calls| :: calls[k].id.Some? && Answered(rs[k], calls[k]))
    && te.longRunningToolIds == if WaitingIds(rs) == [] then None else Some(WaitingIds(rs))
  }

  ghost predicate Answers(te: Event, e: Event) {
    exists rs :: AnswerTo(rs, te, e)
  }

  ghost predicate AnswersLast(events: seq<Event>, e: Event) {
    events != [] && Answers(e, events[|events| - 1])
  }

  predicate HasCalls(e: Event) { e.turnComplete == Some(true) && FunctionCalls(e) != [] }

  /** Every model event with calls is followed by its answer; only a failed run may lack the last one. */
  ghost predicate Paired(events: seq<Event>, failed: bool) {
    && (forall i | 0 <= i < |events| - 1 && HasCalls(events[i]) :: Answers(events[i + 1], events[i]))
    && (!failed && events != [] ==> !HasCalls(events[|events| - 1]))
  }

  /** The events end with calls of this agent, some of which wait. */
  ghost predicate EndsWaiting(a: LlmConfig, events: seq<Event>) {
    var n := |events|;
    && n >= 2 && events[n - 2].author == a.name && Answers(events[n - 1], events[n - 2])
    && events[n - 1].longRunningToolIds.Some?
  }

  ghost predicate Good(a: LlmConfig, log: seq<Event>, t: seq<Op>, failed: bool) {
    var events := KeptIn(Yields(t));
    && InSync(log, t) && InSyncAtYields(log, t)
    && Paired(events, failed)
    && (Pause in t ==> EndsWaiting(a, events))
  }

  // ---- Growing a trace ---------------------------------------------------------------------------------

  lemma KeptSnoc(stream: seq<Event>, e: Event)
    ensures KeptIn(stream + [e]) == if Kept(e) then KeptIn(stream) + [e] else KeptIn(stream)
  {
    assert (stream + [e])[..|stream|] == stream;
  }

  /** A step that yields nothing the session should hold. */
  lemma SilentKeeps(a: LlmConfig, log: seq<Event>, t: seq<Op>, op: Op, failed: bool)
    requires Good(a, log, t, failed)
    requires op.Ran? || (op.Yield? && !Kept(op.event)) || (op.Pause? && EndsWaiting(a, KeptIn(Yields(t))))
    ensures Good(a, log, t + [op], failed)
  {
    assert op.Yield? ==> op.event.partial == Some(true) || Marker(op.event);
    hide Applied, Yields, KeptIn, Kept, Paired, EndsWaiting, InSyncAtYields, Mirrors, Marker;
    AppliedSnoc(log, t, op);
    SilentMirrors(log, t, op);
    if op.Yield? {
      KeptSnoc(Yields(t), op.event);
    }
    Prefixes(log, t, [op]);
  }

  /** Only the last of the new operations may yield. */
  lemma Prefixes(log: seq<Event>, t: seq<Op>, u: seq<Op>)
    requires InSyncAtYields(log, t)
    requires forall i | 0 <= i < |u| - 1 :: !u[i].Yield?
    requires InSync(log, t + u)
    ensures InSyncAtYields(log, t + u)
  {
    hide InSync;
    var v := t + u;
    forall i | 0 <= i < |v| && v[i].Yield? ensures InSync(log, v[..i + 1]) {
      if i < |t| {
        assert v[..i + 1] == t[..i + 1] && t[i].Yield?;
      } else {
        assert v[i] == u[i - |t|];
        assert v[..i + 1] == v;
      }
    }
  }

  lemma StampedPush(log: seq<Event>, t: seq<Op>, first: Event, stamps: seq<Op>, e: Event)
    requires if stamps == [] then first == e else stamps == [Op.Stamp(e)] && first.id == e.id
    ensures var u := t + [Push(first)] + stamps; Applied(log, u) == Applied(log, t) + [e] && Yields(u) == Yields(t)
  {
    var pushed := t + [Push(first)];
    AppliedSnoc(log, t, Push(first));
    hide Applied, Yields;
    if stamps != [] {
      AppliedSnoc(log, pushed, Op.Stamp(e));
      LastAtEnd(Applied(log, t), first);
    } else {
      assert pushed + stamps == pushed;
    }
  }

  /** An event that goes to session and stream alike, perhaps rewritten in between. */
  lemma RecordedEffects(log: seq<Event>, t: seq<Op>, first: Event, stamps: seq<Op>, e: Event)
    requires Kept(e)
    requires if stamps == [] then first == e else stamps == [Op.Stamp(e)] && first.id == e.id
    ensures var u := t + ([Push(first)] + stamps + [Yield(e)]);
            && Applied(log, u) == Applied(log, t) + [e]
            && KeptIn(Yields(u)) == KeptIn(Yields(t)) + [e]
  {
    hide Applied, Yields, KeptIn;
    var pushed := t + [Push(first)];
    StampedPush(log, t, first, stamps, e);
    AppliedSnoc(log, pushed + stamps, Yield(e));
    KeptSnoc(Yields(t), e);
    assert pushed + stamps + [Yield(e)] == t + ([Push(first)] + stamps + [Yield(e)]);
  }

  lemma RecordedInSync(log: seq<Event>, t: seq<Op>, first: Event, stamps: seq<Op>, e: Event)
    requires InSync(log, t) && InSyncAtYields(log, t) && Kept(e)
    requires if stamps == [] then first == e else stamps == [Op.Stamp(e)] && first.id == e.id
    ensures var u := t + ([Push(first)] + stamps + [Yield(e)]);
            && InSync(log, u) && InSyncAtYields(log, u)
            && KeptIn(Yields(u)) == KeptIn(Yields(t)) + [e]
  {
    hide *;
    KeptIsWhole(e);
    RecordedEffects(log, t, first, stamps, e);
    RecordedOnce(log, t, first, stamps, e);
    OnlyLastYields(first, stamps, e);
    Prefixes(log, t, [Push(first)] + stamps + [Yield(e)]);
  }

  lemma KeptIsWhole(e: Event)
    requires Kept(e)
    ensures e.partial != Some(true) && !Marker(e)
  {
  }

  lemma RecordedOnce(log: seq<Event>, t: seq<Op>, first: Event, stamps: seq<Op>, e: Event)
    requires InSync(log, t) && Kept(e)
    requires if stamps == [] then first == e else stamps == [Op.Stamp(e)] && first.id == e.id
    ensures InSync(log, t + ([Push(first)] + stamps + [Yield(e)]))
  {
    KeptIsWhole(e);
    hide Applied, Yields, KeptIn, Kept, Mirrors;
    RecordedEffects(log, t, first, stamps, e);
    RecordedMirrors(log, t, first, stamps, e);
  }

  lemma OnlyLastYields(first: Event, stamps: seq<Op>, e: Event)
    requires stamps == [] || stamps == [Op.Stamp(e)]
    ensures var u := [Push(first)] + stamps + [Yield(e)]; forall i | 0 <= i < |u| - 1 :: !u[i].Yield?
  {
  }

  /** A kept event that is not a call, or answers the calls before it. */
  lemma RecordedKeeps(a: LlmConfig, log: seq<Event>, t: seq<Op>, failed: bool, first: Event, stamps: seq<Op>,
                      e: Event)
    requires Good(a, log, t, failed) && Pause !in t && Kept(e)
    requires if stamps == [] then first == e else stamps == [Op.Stamp(e)] && first.id == e.id
    requires failed ==> AnswersLast(KeptIn(Yields(t)), e)
    ensures Good(a, log, t + ([Push(first)] + stamps + [Yield(e)]), HasCalls(e))
  {
    hide InSync, InSyncAtYields, Paired;
    RecordedInSync(log, t, first, stamps, e);
    PairedSnoc(KeptIn(Yields(t)), failed, e);
    hide *;
    assert Pause !in [Push(first)] + stamps + [Yield(e)];
  }

  lemma PairedSnoc(events: seq<Event>, failed: bool, e: Event)
    requires Paired(events, failed)
    requires failed ==> AnswersLast(events, e)
    ensures Paired(events + [e], HasCalls(e))
  {
    hide HasCalls, Answers;
  }

  lemma PushYieldKeeps(a: LlmConfig, log: seq<Event>, t: seq<Op>, failed: bool, e: Event)
    requires Good(a, log, t, failed) && Pause !in t && Kept(e)
    requires failed ==> AnswersLast(KeptIn(Yields(t)), e)
    ensures Good(a, log, t + PushYield(e), HasCalls(e)) && Pause !in t + PushYield(e)
    ensures KeptIn(Yields(t + PushYield(e))) == KeptIn(Yields(t)) + [e]
  {
    hide Good, Kept, AnswersLast;
    assert [Push(e)] + [] + [Yield(e)] == PushYield(e);
    RecordedKeeps(a, log, t, failed, e, [], e);
    RecordedEffects(log, t, e, [], e);
    assert Pause !in PushYield(e);
  }

  lemma {:induction false} ExecutionsKeep(a: LlmConfig, log: seq<Event>, t: seq<Op>, ran: seq<Execution>, failed: bool)
    requires Good(a, log, t, failed) && Pause !in t
    ensures Good(a, log, t + Executions(ran), failed) && Pause !in t + Executions(ran)
    ensures Yields(t + Executions(ran)) == Yields(t)
    decreases ran
  {
    ExecutionsLeaveNoMark(log, t, ran);
    hide Good;
    if ran == [] {
      assert t + Executions(ran) == t;
    } else {
      var n := |ran| - 1;
      ExecutionsKeep(a, log, t, ran[..n], failed);
      SilentKeeps(a, log, t + Executions(ran[..n]), Ran(ran[n]), failed);
      assert t + Executions(ran[..n]) + [Ran(ran[n])] == t + Executions(ran);
    }
  }

  lemma {:induction false} PartialsKeep(a: LlmConfig, w: World, log: seq<Event>, t: seq<Op>, turn: nat,
                                        chunks: seq<LlmResponse>, k: nat)
    requires k <= |chunks| && Good(a, log, t, false) && Pause !in t
    ensures var u := t + PartialOps(a, w, turn, chunks, k); Good(a, log, u, false) && Pause !in u
    decreases |chunks| - k
  {
    hide Good;
    var rest := PartialOps(a, w, turn, chunks, k);
    if k == |chunks| {
      assert t + rest == t;
    } else if HasParts(chunks[k]) {
      var op := Yield(PartialChunkEvent(a, w, PartialEvent(turn, k), chunks[k]));
      SilentKeeps(a, log, t, op, false);
      PartialsKeep(a, w, log, t + [op], turn, chunks, k + 1);
      assert t + [op] + PartialOps(a, w, turn, chunks, k + 1) == t + rest;
    } else {
      PartialsKeep(a, w, log, t, turn, chunks, k + 1);
      assert rest == PartialOps(a, w, turn, chunks, k + 1);
    }
  }

  lemma AskingKeeps(a: LlmConfig, w: World, mode: StreamingMode, log: seq<Event>, t: seq<Op>, turn: nat,
                    contents: seq<Content>)
    requires Good(a, log, t, false) && Pause !in t
    ensures var u := t + ModelTurn(a, w, mode, turn, contents).ops; Good(a, log, u, false) && Pause !in u
  {
    hide Good, PartialOps;
    assert t + [] == t;
    forall chunks: seq<LlmResponse>
      ensures var u := t + PartialOps(a, w, turn, chunks, 0); Good(a, log, u, false) && Pause !in u
    {
      PartialsKeep(a, w, log, t, turn, chunks, 0);
    }
  }

  // ---- Calls and their answers -------------------------------------------------------------------------

  lemma {:induction false} CallsInHaveIds(parts: seq<Part>)
    requires forall p | p in parts && p.Call? :: p.call.id.Some?
    ensures forall k | 0 <= k < |CallsIn(parts)| :: CallsIn(parts)[k].id.Some?
    decreases parts
  {
    if parts != [] {
      CallsInHaveIds(parts[1..]);
    }
  }

  /** The model's event names its agent, and no call in it lacks an id. */
  lemma ModelEventIs(a: LlmConfig, w: World, turn: nat, response: LlmResponse)
    ensures var e := ModelEventOf(a, w, turn, response);
            && e.author == a.name && e.turnComplete == Some(true) && e.actions == NO_ACTIONS && Kept(e)
            && forall k | 0 <= k < |FunctionCalls(e)| :: FunctionCalls(e)[k].id.Some?
  {
    if response.content.Some? {
      CallsInHaveIds(WithIds(w, turn, response.content.value.parts));
    }
  }

  ghost predicate AnsweredSoFar(rs: seq<FunctionResponse>, longRunningIds: seq<string>, calls: seq<FunctionCall>,
                                i: nat)
    requires i <= |calls|
  {
    && |rs| == i
    && (forall k | 0 <= k < i :: Answered(rs[k], calls[k]))
    && longRunningIds == WaitingIds(rs)
  }

  lemma WaitingSnoc(rs: seq<FunctionResponse>, r: FunctionResponse)
    ensures WaitingIds(rs + [r]) ==
            WaitingIds(rs) + (if r.willContinue == Some(true) && r.id.Some? then [r.id.value] else [])
  {
    assert (rs + [r])[..|rs|] == rs;
  }

  lemma GatherOneAnswers(a: LlmConfig, w: World, turn: nat, tools: map<string, Tool>, bag: Bag,
                         calls: seq<FunctionCall>,
                         i: nat, g: Gathered)
    requires i < |calls| && calls[i].id.Some? && AnsweredSoFar(g.responses, g.longRunningIds, calls, i)
    ensures var r := GatherOne(a, w, turn, tools, bag, i, calls[i], g);
            r.error.None? && g.error.None? ==> AnsweredSoFar(r.responses, r.longRunningIds, calls, i + 1)
  {
    hide DispatchCall, WaitingIds;
    var r := GatherOne(a, w, turn, tools, bag, i, calls[i], g);
    if r.error.None? && g.error.None? {
      WaitingSnoc(g.responses, r.responses[i]);
    }
  }

  /** Without an error each call gets its response, in order, and exactly the calls that wait are listed. */
  lemma {:induction false} GatherAnswers(a: LlmConfig, w: World, turn: nat, tools: map<string, Tool>, bag: Bag,
                                         calls: seq<FunctionCall>, i: nat, g: Gathered)
    requires i <= |calls| && forall k | 0 <= k < |calls| :: calls[k].id.Some?
    requires g.error.None? ==> AnsweredSoFar(g.responses, g.longRunningIds, calls, i)
    ensures var r := GatherFrom(a, w, turn, tools, bag, calls, i, g);
            r.error.None? ==> AnsweredSoFar(r.responses, r.longRunningIds, calls, |calls|)
    decreases |calls| - i
  {
    if i < |calls| && g.error.None? {
      var next := GatherOne(a, w, turn, tools, bag, i, calls[i], g);
      GatherOneAnswers(a, w, turn, tools, bag, calls, i, g);
      hide GatherOne, AnsweredSoFar;
      GatherAnswers(a, w, turn, tools, bag, calls, i + 1, next);
    }
  }

  /** The tool event of a turn answers the model's event. */
  lemma ToolEventAnswers(a: LlmConfig, w: World, turn: nat, tools: map<string, Tool>, event: Event, bag: Bag)
    requires forall k | 0 <= k < |FunctionCalls(event)| :: FunctionCalls(event)[k].id.Some?
    ensures var g := GatherFrom(a, w, turn, tools, bag, FunctionCalls(event), 0, NOTHING_GATHERED);
            g.error.None? ==>
              var te := ToolResponseEvent(a, w, turn, g);
              AnswerTo(g.responses, te, event) && Answers(te, event) && Kept(te) && !HasCalls(te)
  {
    hide GatherFrom, FunctionCalls;
    var g := GatherFrom(a, w, turn, tools, bag, FunctionCalls(event), 0, NOTHING_GATHERED);
    GatherAnswers(a, w, turn, tools, bag, FunctionCalls(event), 0, NOTHING_GATHERED);
    if g.error.None? {
      assert AnswerTo(g.responses, ToolResponseEvent(a, w, turn, g), event);
    }
  }

  // ---- Turn by turn ------------------------------------------------------------------------------------

  ghost predicate ModelEvent(a: LlmConfig, e: Event) {
    && Kept(e) && e.author == a.name
    && forall k | 0 <= k < |FunctionCalls(e)| :: FunctionCalls(e)[k].id.Some?
  }

  /** Calls are recorded, then dispatched. */
  lemma CallsKeep(a: LlmConfig, log: seq<Event>, t: seq<Op>, event: Event, ran: seq<Execution>)
    requires Good(a, log, t, false) && Pause !in t && Kept(event)
    ensures var u := t + ([Push(event)] + ([Yield(event)] + Executions(ran)));
            Good(a, log, u, true) && Pause !in u && KeptIn(Yields(u)) == KeptIn(Yields(t)) + [event]
  {
    hide *;
    var t1 := t + PushYield(event);
    PushYieldKeeps(a, log, t, false, event);
    Weaken(a, log, t1, HasCalls(event));
    ExecutionsKeep(a, log, t1, ran, true);
    assert t1 + Executions(ran) == t + ([Push(event)] + ([Yield(event)] + Executions(ran))) by {
      PushYieldIs(event);
    }
  }

  lemma PushYieldIs(e: Event)
    ensures PushYield(e) == [Push(e)] + [Yield(e)]
  {
  }

  lemma Weaken(a: LlmConfig, log: seq<Event>, t: seq<Op>, failed: bool)
    requires Good(a, log, t, failed)
    ensures Good(a, log, t, true)
  {
    hide InSync, InSyncAtYields;
  }

  lemma MarkersAreNotKept(a: LlmConfig, w: World, turn: nat)
    ensures !Kept(EscalationEvent(a, w, turn)) && !Kept(ExhaustedBudgetEvent(a, w))
  {
  }

  lemma ToolTurnKeeps(a: LlmConfig, w: World, log: seq<Event>, t: seq<Op>, turn: nat, tools: map<string, Tool>,
                      event: Event,
                      bag: Bag)
    requires Good(a, log, t, false) && Pause !in t && ModelEvent(a, event) && event.response.content.Some?
    ensures var step := ToolTurn(a, w, turn, tools, event, bag); var u := t + ([Push(event)] + step.ops);
            Good(a, log, u, step.end.Errored?) && (step.end == Continue ==> Pause !in u)
  {
    hide Good, Kept, KeptIn, Yields, AnswersLast, Executions, GatherFrom, FunctionCalls, AnswerTo, Answers, WaitingIds;
    var g := GatherFrom(a, w, turn, tools, bag, FunctionCalls(event), 0, NOTHING_GATHERED);
    var dispatched := [Yield(event)] + Executions(g.ran);
    var t1 := t + ([Push(event)] + dispatched);
    CallsKeep(a, log, t, event, g.ran);
    if g.error.None? {
      var te := ToolResponseEvent(a, w, turn, g);
      var t2 := t1 + PushYield(te);
      AnswerKeeps(a, w, log, t, turn, tools, event, bag);
      assert t2 == t + ([Push(event)] + (dispatched + PushYield(te)));
      var marker := Yield(EscalationEvent(a, w, turn));
      if g.transfer.None? && g.escalate {
        MarkersAreNotKept(a, w, turn);
        SilentKeeps(a, log, t2, marker, false);
        assert t2 + [marker] == t + ([Push(event)] + (dispatched + PushYield(te) + [marker]));
      } else if g.transfer.None? && g.longRunningIds != [] {
        SilentKeeps(a, log, t2, Pause, false);
        assert t2 + [Pause] == t + ([Push(event)] + (dispatched + PushYield(te) + [Pause]));
      }
    }
  }

  /** The tool event closes the turn; if a call waits, the session now ends with it. */
  lemma AnswerKeeps(a: LlmConfig, w: World, log: seq<Event>, t: seq<Op>, turn: nat, tools: map<string, Tool>,
                    event: Event,
                    bag: Bag)
    requires Good(a, log, t, false) && Pause !in t && ModelEvent(a, event)
    ensures var g := GatherFrom(a, w, turn, tools, bag, FunctionCalls(event), 0, NOTHING_GATHERED);
            g.error.None? ==>
              var te := ToolResponseEvent(a, w, turn, g);
              var u := t + ([Push(event)] + ([Yield(event)] + Executions(g.ran))) + PushYield(te);
              && Good(a, log, u, false) && Pause !in u
              && (g.longRunningIds != [] ==> EndsWaiting(a, KeptIn(Yields(u))))
  {
    hide Good, Kept, KeptIn, Yields, Executions, GatherFrom, FunctionCalls, AnswerTo, Answers, WaitingIds, PushYield;
    var g := GatherFrom(a, w, turn, tools, bag, FunctionCalls(event), 0, NOTHING_GATHERED);
    CallsKeep(a, log, t, event, g.ran);
    ToolEventAnswers(a, w, turn, tools, event, bag);
    if g.error.None? {
      var te := ToolResponseEvent(a, w, turn, g);
      var events := KeptIn(Yields(t));
      var t1 := t + ([Push(event)] + ([Yield(event)] + Executions(g.ran)));
      assert AnswersLast(events + [event], te);
      PushYieldKeeps(a, log, t1, true, te);
      assert KeptIn(Yields(t1 + PushYield(te))) == events + [event] + [te];
    }
  }

  lemma CodeTurnKeeps(a: LlmConfig, w: World, log: seq<Event>, t: seq<Op>, turn: nat, codes: seq<Code>, event: Event)
    requires Good(a, log, t, false) && Pause !in t && Kept(event) && !HasCalls(event)
    requires a.executor.Some? && event.response.content.Some?
    ensures var step := CodeTurn(a, w, turn, codes, event); var u := t + ([Push(event)] + step.ops);
            Good(a, log, u, false) && Pause !in u && step.end == Continue
  {
    hide Good, KeptIn, Yields, AnswersLast, ResultsOf;
    var ce := CodeResultEvent(a, w, turn, CodeTurn(a, w, turn, codes, event).appended[1]);
    PushYieldKeeps(a, log, t, false, event);
    PushYieldKeeps(a, log, t + PushYield(event), false, ce);
    assert t + PushYield(event) + PushYield(ce) == t + ([Push(event)] + ([Yield(event)] + PushYield(ce)));
  }

  lemma FinishKeeps(a: LlmConfig, w: World, log: seq<Event>, t: seq<Op>)
    requires Good(a, log, t, false) && Pause !in t
    ensures Good(a, log, t + Finish(a, w).ops, Finish(a, w).end.Errored?)
    ensures Finish(a, w).end != Continue
  {
    hide Good, KeptIn, Yields, AnswersLast;
    assert t + [] == t;
    match w.afterAgent {
      case Err(_) => Weaken(a, log, t, false);
      case Ok(None) =>
      case Ok(Some(content)) =>
        PushYieldKeeps(a, log, t, false, AgentEvent(a, w, AfterAgentEvent, WithContent(content)));
    }
  }

  /** The final event is kept as it was stamped. */
  lemma FinalKeeps(a: LlmConfig, w: World, log: seq<Event>, t: seq<Op>, event: Event)
    requires Good(a, log, t, false) && Pause !in t && Kept(event) && event.actions == NO_ACTIONS
    requires FunctionCalls(event) == [] && event.turnComplete == Some(true)
    ensures var u := t + ([Push(event)] + FinalOps(a, w, event)); Good(a, log, u, false) && Pause !in u
  {
    hide Good, KeptIn, Yields, AnswersLast, OutputValue;
    var value := if a.outputKey.Some? then OutputValue(w, event, a.structured) else None;
    if value.None? {
      PushYieldKeeps(a, log, t, false, event);
      assert PushYield(event) == [Push(event)] + FinalOps(a, w, event);
    } else {
      var e := WithOutput(event, a.outputKey.value, value.value);
      RecordedKeeps(a, log, t, false, event, [Op.Stamp(e)], e);
      assert [Push(event)] + [Op.Stamp(e)] + [Yield(e)] == [Push(event)] + FinalOps(a, w, event);
    }
  }

  lemma AfterModelKeeps(a: LlmConfig, w: World, log: seq<Event>, t: seq<Op>, turn: nat, tools: map<string, Tool>,
                        response: LlmResponse, bag: Bag)
    requires Good(a, log, t, false) && Pause !in t
    ensures var event := ModelEventOf(a, w, turn, response);
            var step := AfterModel(a, w, turn, tools, event, bag); var u := t + ([Push(event)] + step.ops);
            Good(a, log, u, step.end.Errored?) && (step.end == Continue ==> Pause !in u)
  {
    var event := ModelEventOf(a, w, turn, response);
    ModelEventIs(a, w, turn, response);
    hide Good, Kept, ModelEventOf, ToolTurn, CodeTurn, FinalOps, Finish, CodeIn;
    var codes := if event.response.content.Some? then CodeIn(event.response.content.value.parts, w.lower) else [];
    if FunctionCalls(event) != [] {
      ToolTurnKeeps(a, w, log, t, turn, tools, event, bag);
    } else if a.executor.Some? && codes != [] {
      CodeTurnKeeps(a, w, log, t, turn, codes, event);
    } else {
      var t1 := t + ([Push(event)] + FinalOps(a, w, event));
      FinalKeeps(a, w, log, t, event);
      FinishKeeps(a, w, log, t1);
      assert t1 + Finish(a, w).ops == t + ([Push(event)] + (FinalOps(a, w, event) + Finish(a, w).ops));
    }
  }

  lemma TurnKeeps(a: LlmConfig, w: World, mode: StreamingMode, log: seq<Event>, turn: nat, tools: map<string, Tool>,
                  s: State)
    requires Good(a, log, s.trace, false) && Pause !in s.trace
    ensures var (s1, end) := Turn(a, w, mode, turn, tools, s);
            Good(a, log, s1.trace, end.Errored?) && (end == Continue ==> Pause !in s1.trace)
  {
    hide Good, KeptIn, Yields, AnswersLast, ModelTurn, AfterModel, ModelEventOf, FunctionCalls;
    if w.cancelled(turn) {
      PushYieldKeeps(a, log, s.trace, false, CancellationEvent(a, w, turn));
    } else if w.maxLlmCalls.Some? && s.calls >= w.maxLlmCalls.value {
      Weaken(a, log, s.trace, false);
    } else {
      var asked := ModelTurn(a, w, mode, turn, s.contents);
      AskingKeeps(a, w, mode, log, s.trace, turn, s.contents);
      var t1 := s.trace + asked.ops;
      match asked.answer {
        case Err(_) => Weaken(a, log, t1, false);
        case Ok(response) =>
          AfterModelKeeps(a, w, log, t1, turn, tools, response, s.bag);
          var event := ModelEventOf(a, w, turn, response);
          var step := AfterModel(a, w, turn, tools, event, s.bag);
          assert t1 + ([Push(event)] + step.ops) == s.trace + (asked.ops + ([Push(event)] + step.ops));
      }
    }
  }

  lemma {:induction false} TurnsKeep(a: LlmConfig, w: World, mode: StreamingMode, log: seq<Event>, turn: nat,
                                     tools: map<string, Tool>, s: State)
    requires turn <= a.maxIterations && Good(a, log, s.trace, false) && Pause !in s.trace
    ensures var (s1, end) := Turns(a, w, mode, turn, tools, s); Good(a, log, s1.trace, end.Errored?)
    decreases a.maxIterations - turn
  {
    hide Good, Turn, Finish;
    if turn == a.maxIterations {
      var e := ExhaustedBudgetEvent(a, w);
      MarkersAreNotKept(a, w, turn);
      SilentKeeps(a, log, s.trace, Yield(e), false);
      FinishKeeps(a, w, log, s.trace + [Yield(e)]);
      assert s.trace + [Yield(e)] + Finish(a, w).ops == s.trace + ([Yield(e)] + Finish(a, w).ops);
    } else {
      var (s1, end) := Turn(a, w, mode, turn, tools, s);
      TurnKeeps(a, w, mode, log, turn, tools, s);
      if end == Continue {
        TurnsKeep(a, w, mode, log, turn + 1, tools, s1);
      }
    }
  }

  lemma GoodAtStart(a: LlmConfig, log: seq<Event>)
    ensures Good(a, log, [], false)
  {
  }

  lemma ReplayKeeps(a: LlmConfig, w: World, log: seq<Event>, r: Replay)
    ensures var step := ReplayStep(a, w, r);
            Good(a, log, step.ops, step.end.Errored?) && (step.end == Continue ==> Pause !in step.ops)
  {
    hide Good, KeptIn, Yields, AnswersLast, Executions, Applied;
    GoodAtStart(a, log);
    assert [] + Executions(r.ran) == Executions(r.ran);
    ExecutionsKeep(a, log, [], r.ran, false);
    Weaken(a, log, Executions(r.ran), false);
    if r.error.None? && r.responses != [] {
      PushYieldKeeps(a, log, Executions(r.ran), false, ReplayResponseEvent(a, w, r));
    }
  }

  lemma RunKeeps(a: LlmConfig, w: World, mode: StreamingMode, log: seq<Event>, bag: Bag, calls: nat)
    ensures var (s, end) := Run(a, w, mode, log, bag, calls); Good(a, log, s.trace, end.Errored?)
  {
    hide Good, KeptIn, Yields, AnswersLast, Turns, ReplayStep, ReplayOf, InitialContents, BagAfterReplay, Applied;
    GoodAtStart(a, log);
    Weaken(a, log, [], false);
    match w.beforeAgent {
      case Err(_) =>
      case Ok(Some(content)) =>
        var e := AgentEvent(a, w, BeforeAgentEvent, WithContent(content));
        PushYieldKeeps(a, log, [], false, e);
        assert [] + PushYield(e) == PushYield(e);
      case Ok(None) =>
        if w.request.Ok? {
          var request := w.request.value;
          var r := ReplayOf(a, w, log, request.tools, bag);
          var step := ReplayStep(a, w, r);
          ReplayKeeps(a, w, log, r);
          assert [] + step.ops == step.ops;
          if step.end == Continue {
            var s0 := State(InitialContents(a, w, log, request.deferred), BagAfterReplay(bag, r), calls, []);
            TurnsKeep(a, w, mode, log, 0, request.tools, Advance(s0, step));
          }
        }
    }
  }

  // ---- Whose events a run yields -----------------------------------------------------------------------

  predicate From(name: string, t: seq<Op>) {
    forall i | 0 <= i < |t| && t[i].Yield? :: t[i].event.author == name
  }

  predicate Unmarked(t: seq<Op>) {
    forall i | 0 <= i < |t| && t[i].Yield? :: !Marker(t[i].event)
  }

  lemma {:induction false} PartialsAreFrom(a: LlmConfig, w: World, turn: nat, chunks: seq<LlmResponse>, k: nat)
    requires k <= |chunks|
    ensures var ops := PartialOps(a, w, turn, chunks, k); From(a.name, ops) && Unmarked(ops) && Pause !in ops
    decreases |chunks| - k
  {
    if k < |chunks| {
      PartialsAreFrom(a, w, turn, chunks, k + 1);
    }
  }

  lemma AskingIsFrom(a: LlmConfig, w: World, mode: StreamingMode, turn: nat, contents: seq<Content>)
    ensures var ops := ModelTurn(a, w, mode, turn, contents).ops; From(a.name, ops) && Unmarked(ops) && Pause !in ops
  {
    hide PartialOps;
    forall chunks: seq<LlmResponse>
      ensures var ops := PartialOps(a, w, turn, chunks, 0); From(a.name, ops) && Unmarked(ops) && Pause !in ops
    {
      PartialsAreFrom(a, w, turn, chunks, 0);
    }
  }

  /** The agent's own events; markers only at an end that is no pause. */
  ghost predicate Spoken(a: LlmConfig, ops: seq<Op>, end: End) {
    && From(a.name, ops)
    && (end == Continue || Pause in ops ==> Unmarked(ops))
    && (end == Continue ==> Pause !in ops)
  }

  lemma ToolTurnIsFrom(a: LlmConfig, w: World, turn: nat, tools: map<string, Tool>, event: Event, bag: Bag)
    requires event.response.content.Some? && event.author == a.name && !Marker(event)
    ensures var step := ToolTurn(a, w, turn, tools, event, bag); Spoken(a, step.ops, step.end)
  {
    hide GatherFrom, FunctionCalls;
  }

  lemma AfterModelIsFrom(a: LlmConfig, w: World, turn: nat, tools: map<string, Tool>, response: LlmResponse, bag: Bag)
    ensures var event := ModelEventOf(a, w, turn, response);
            var step := AfterModel(a, w, turn, tools, event, bag); Spoken(a, [Push(event)] + step.ops, step.end)
  {
    var event := ModelEventOf(a, w, turn, response);
    hide ToolTurn, ResultsOf, CodeIn, FunctionCalls, OutputValue, WithIds;
    if FunctionCalls(event) != [] {
      CallsNeedContent(event);
      ToolTurnIsFrom(a, w, turn, tools, event, bag);
    }
  }

  lemma CallsNeedContent(event: Event)
    ensures FunctionCalls(event) != [] ==> event.response.content.Some?
  {
  }

  lemma SpokenThen(a: LlmConfig, t: seq<Op>, ops: seq<Op>, end: End)
    requires Spoken(a, t, Continue) && Spoken(a, ops, end)
    ensures Spoken(a, t + ops, end)
  {
    hide Marker;
  }

  lemma TurnIsFrom(a: LlmConfig, w: World, mode: StreamingMode, turn: nat, tools: map<string, Tool>, s: State)
    requires Spoken(a, s.trace, Continue)
    ensures var (s1, end) := Turn(a, w, mode, turn, tools, s); Spoken(a, s1.trace, end)
  {
    hide ModelTurn, AfterModel, ModelEventOf, Spoken;
    if w.cancelled(turn) {
      var ops := PushYield(CancellationEvent(a, w, turn));
      assert Spoken(a, ops, Returned) by { CancellationIsFrom(a, w, turn); }
      SpokenThen(a, s.trace, ops, Returned);
    } else if w.maxLlmCalls.Some? && s.calls >= w.maxLlmCalls.value {
      SpokenEnds(a, s.trace, Errored("max_llm_calls reached"));
    } else {
      var asked := ModelTurn(a, w, mode, turn, s.contents);
      var t1 := s.trace + asked.ops;
      AskingIsFrom(a, w, mode, turn, s.contents);
      assert Spoken(a, asked.ops, Continue) by { SpokenIs(a, asked.ops); }
      SpokenThen(a, s.trace, asked.ops, Continue);
      match asked.answer {
        case Err(e) => SpokenEnds(a, t1, Errored(e));
        case Ok(response) =>
          var event := ModelEventOf(a, w, turn, response);
          var step := AfterModel(a, w, turn, tools, event, s.bag);
          AfterModelIsFrom(a, w, turn, tools, response, s.bag);
          SpokenThen(a, t1, [Push(event)] + step.ops, step.end);
          assert t1 + ([Push(event)] + step.ops) == s.trace + (asked.ops + ([Push(event)] + step.ops));
      }
    }
  }

  lemma CancellationIsFrom(a: LlmConfig, w: World, turn: nat)
    ensures Spoken(a, PushYield(CancellationEvent(a, w, turn)), Returned)
  {
  }

  lemma SpokenIs(a: LlmConfig, ops: seq<Op>)
    requires From(a.name, ops) && Unmarked(ops) && Pause !in ops
    ensures Spoken(a, ops, Continue)
  {
  }

  lemma SpokenEnds(a: LlmConfig, t: seq<Op>, end: End)
    requires Spoken(a, t, Continue)
    ensures Spoken(a, t, end)
  {
  }

  lemma {:induction false} TurnsAreFrom(a: LlmConfig, w: World, mode: StreamingMode, turn: nat,
                                        tools: map<string, Tool>, s: State)
    requires turn <= a.maxIterations && Spoken(a, s.trace, Continue)
    ensures var (s1, end) := Turns(a, w, mode, turn, tools, s); Spoken(a, s1.trace, end)
    decreases a.maxIterations - turn
  {
    if turn == a.maxIterations {
      ExhaustionIsFrom(a, w);
      hide Spoken, Turn, Finish;
      var step := Finish(a, w);
      SpokenThen(a, s.trace, [Yield(ExhaustedBudgetEvent(a, w))] + step.ops, step.end);
    } else {
      hide Spoken, Turn, Finish;
      var (s1, end) := Turn(a, w, mode, turn, tools, s);
      TurnIsFrom(a, w, mode, turn, tools, s);
      if end == Continue {
        TurnsAreFrom(a, w, mode, turn + 1, tools, s1);
      }
    }
  }

  lemma ExhaustionIsFrom(a: LlmConfig, w: World)
    ensures Spoken(a, [Yield(ExhaustedBudgetEvent(a, w))] + Finish(a, w).ops, Finish(a, w).end)
  {
  }

  lemma ReplayIsFrom(a: LlmConfig, w: World, r: Replay)
    ensures Spoken(a, ReplayStep(a, w, r).ops, ReplayStep(a, w, r).end)
  {
  }

  /** A run yields events under its agent's name only; a run that pauses yields no marker. */
  lemma RunIsFrom(a: LlmConfig, w: World, mode: StreamingMode, log: seq<Event>, bag: Bag, calls: nat)
    ensures var t := Run(a, w, mode, log, bag, calls).0.trace; From(a.name, t) && (Pause in t ==> Unmarked(t))
  {
    hide Turns, ReplayStep, ReplayOf, InitialContents, BagAfterReplay;
    if w.beforeAgent == Ok(None) && w.request.Ok? {
      var tools := w.request.value.tools;
      var r := ReplayOf(a, w, log, tools, bag);
      var step := ReplayStep(a, w, r);
      ReplayIsFrom(a, w, r);
      assert [] + step.ops == step.ops;
      if step.end == Continue {
        var s0 := State(InitialContents(a, w, log, w.request.value.deferred), BagAfterReplay(bag, r), calls, []);
        TurnsAreFrom(a, w, mode, 0, tools, Advance(s0, step));
      }
    }
  }

  // ---- The laws ----------------------------------------------------------------------------------------

  /**
   * At every yield point of a run, and at its end, the session's events are the initial ones followed by the events
   * yielded so far, in order and content, but for partial events and the two markers.
   */
  lemma LogAndStreamAgree(a: LlmConfig, w: World, mode: StreamingMode, log: seq<Event>, bag: Bag, calls: nat)
    ensures var t := Run(a, w, mode, log, bag, calls).0.trace;
            && Applied(log, t) == log + KeptIn(Yields(t))
            && (forall i | 0 <= i < |t| && t[i].Yield? ::
                 Applied(log, t[..i + 1]) == log + KeptIn(Yields(t[..i + 1])))
  {
    RunKeeps(a, w, mode, log, bag, calls);
    hide Run, Applied, KeptIn, Yields;
  }

  /**
   * In the session of every run, each model event with calls is followed at once by an event with one response per
   * call, in order, with equal ids, none of them missing; a run that fails may lack the answer to its last event.
   */
  lemma CallsAreAnswered(a: LlmConfig, w: World, mode: StreamingMode, log: seq<Event>, bag: Bag, calls: nat)
    ensures var (s, end) := Run(a, w, mode, log, bag, calls);
            && |log| <= |Applied(log, s.trace)|
            && Paired(Applied(log, s.trace)[|log|..], end.Errored?)
  {
    RunKeeps(a, w, mode, log, bag, calls);
    hide Run, Applied, KeptIn, Yields, Paired;
    var s := Run(a, w, mode, log, bag, calls).0;
    assert Applied(log, s.trace)[|log|..] == KeptIn(Yields(s.trace));
  }

  lemma {:induction false} FindsSome(log: seq<Event>, author: string, id: string, k: nat)
    requires k < |log| && log[k].author == author && FirstWithId(FunctionCalls(log[k]), id).Some?
    ensures FindCall(log, author, id).Some?
    decreases log
  {
    if k > 0 {
      FindsSome(log[1..], author, id, k - 1);
    }
  }

  /** The search finds the call in the first event that can have it. */
  lemma {:induction false} FindsFirst(log: seq<Event>, author: string, id: string, k: nat)
    requires k < |log| && log[k].author == author && FirstWithId(FunctionCalls(log[k]), id).Some?
    requires FindCall(log[..k], author, id).None?
    ensures FindCall(log, author, id) == FirstWithId(FunctionCalls(log[k]), id)
    decreases log
  {
    hide FirstWithId, FunctionCalls;
    if k > 0 {
      assert log[..k][0] == log[0] && log[..k][1..] == log[1..][..k - 1];
      FindsFirst(log[1..], author, id, k - 1);
    }
  }

  lemma {:induction false} FirstWithIdFinds(calls: seq<FunctionCall>, k: nat)
    requires k < |calls| && calls[k].id.Some?
    ensures FirstWithId(calls, calls[k].id.value).Some?
    decreases calls
  {
    if k > 0 {
      FirstWithIdFinds(calls[1..], k - 1);
    }
  }

  lemma {:induction false} WaitingAreCalled(rs: seq<FunctionResponse>, id: string)
    requires id in WaitingIds(rs)
    ensures exists k :: 0 <= k < |rs| && rs[k].id == Some(id)
    decreases rs
  {
    var n := |rs| - 1;
    if rs[n].id != Some(id) {
      WaitingAreCalled(rs[..n], id);
    }
  }

  /** The call with this id in the last but one event of a session: the one that the last event answers. */
  function LastCall(session: seq<Event>, id: string): Option<FunctionCall> {
    if |session| < 2 then None else FirstWithId(FunctionCalls(session[|session| - 2]), id)
  }

  /** No earlier event of the agent has a call with this id. */
  predicate NewInLastCall(session: seq<Event>, author: string, id: string) {
    |session| >= 2 && FindCall(session[..|session| - 2], author, id).None?
  }

  lemma LastCallFound(session: seq<Event>, more: seq<Event>, author: string, id: string)
    requires LastCall(session, id).Some? && session[|session| - 2].author == author
    ensures FindCall(session + more, author, id).Some?
    ensures NewInLastCall(session, author, id) ==> FindCall(session + more, author, id) == LastCall(session, id)
  {
    hide FirstWithId, FunctionCalls, FindCall;
    var n := |session| - 2;
    var all := session + more;
    assert all[n] == session[n] && all[..n] == session[..n];
    FindsSome(all, author, id, n);
    if NewInLastCall(session, author, id) {
      FindsFirst(all, author, id, n);
    }
  }

  /**
   * The last event of a session lists calls that wait.  Each of them can be found by a later replay of the agent,
   * whatever is appended to the session meanwhile; if the agent has not used the id before, the call found is the one
   * that waits.
   */
  ghost predicate CanResume(a: LlmConfig, session: seq<Event>, more: seq<Event>) {
    && session != [] && session[|session| - 1].longRunningToolIds.Some?
    && forall id | id in session[|session| - 1].longRunningToolIds.value ::
         && LastCall(session, id).Some? && FindCall(session + more, a.name, id).Some?
         && (NewInLastCall(session, a.name, id) ==> FindCall(session + more, a.name, id) == LastCall(session, id))
  }

  /** When a run pauses the invocation, the session that a runner keeps ends with the event that lists what waits. */
  lemma PausedCallsCanResume(a: LlmConfig, w: World, mode: StreamingMode, log: seq<Event>, bag: Bag, calls: nat,
                             more: seq<Event>)
    requires Pause in Run(a, w, mode, log, bag, calls).0.trace
    ensures CanResume(a, Hosted(log, Run(a, w, mode, log, bag, calls).0.trace), more)
  {
    hide *;
    PausedRunEndsWaiting(a, w, mode, log, bag, calls);
    WaitingCallsAreFound(a, Hosted(log, Run(a, w, mode, log, bag, calls).0.trace), more);
  }

  lemma WaitingCallsAreFound(a: LlmConfig, session: seq<Event>, more: seq<Event>)
    requires EndsWaiting(a, session)
    ensures CanResume(a, session, more)
  {
    hide Answers, LastCall, FindCall, NewInLastCall;
    forall id | id in session[|session| - 1].longRunningToolIds.value
      ensures && LastCall(session, id).Some? && FindCall(session + more, a.name, id).Some?
              && (NewInLastCall(session, a.name, id) ==>
                    FindCall(session + more, a.name, id) == LastCall(session, id))
    {
      WaitingCallIsFound(a, session, more, id);
    }
  }

  /** What a runner stores of an event is, but for temporary state, the event. */
  predicate Alike(e: Event, f: Event) {
    e.author == f.author && e.response == f.response && e.longRunningToolIds == f.longRunningToolIds
  }

  ghost predicate AllAlike(xs: seq<Event>, ys: seq<Event>) {
    |xs| == |ys| && forall i | 0 <= i < |xs| :: Alike(xs[i], ys[i])
  }

  lemma {:induction false} StoredLikeKept(stream: seq<Event>)
    requires forall i | 0 <= i < |stream| :: !Marker(stream[i])
    ensures AllAlike(KeptIn(stream), StoredIn(stream))
    decreases stream
  {
    hide Marker;
    if stream != [] {
      StoredLikeKept(stream[..|stream| - 1]);
    }
  }

  lemma {:induction false} YieldsUnmarked(t: seq<Op>)
    requires Unmarked(t)
    ensures forall i | 0 <= i < |Yields(t)| :: !Marker(Yields(t)[i])
    decreases t
  {
    hide Marker;
    if t != [] {
      YieldsUnmarked(t[..|t| - 1]);
    }
  }

  lemma WaitingAlike(a: LlmConfig, log: seq<Event>, xs: seq<Event>, ys: seq<Event>)
    requires EndsWaiting(a, xs) && AllAlike(xs, ys)
    ensures EndsWaiting(a, log + ys)
  {
    hide Answers, Alike;
    var n, all := |xs|, log + ys;
    assert all[|all| - 1] == ys[n - 1] && all[|all| - 2] == ys[n - 2];
    AnswersAlike(xs[n - 1], xs[n - 2], ys[n - 1], ys[n - 2]);
  }

  lemma AnswersAlike(te: Event, e: Event, te': Event, e': Event)
    requires Answers(te, e) && Alike(te, te') && Alike(e, e')
    ensures Answers(te', e') && te'.longRunningToolIds == te.longRunningToolIds && e'.author == e.author
  {
    hide WaitingIds, CallsIn;
    var rs :| AnswerTo(rs, te, e);
    assert AnswerTo(rs, te', e');
  }

  lemma PausedRunEndsWaiting(a: LlmConfig, w: World, mode: StreamingMode, log: seq<Event>, bag: Bag, calls: nat)
    requires Pause in Run(a, w, mode, log, bag, calls).0.trace
    ensures EndsWaiting(a, Hosted(log, Run(a, w, mode, log, bag, calls).0.trace))
  {
    var t := Run(a, w, mode, log, bag, calls).0.trace;
    RunKeeps(a, w, mode, log, bag, calls);
    RunIsFrom(a, w, mode, log, bag, calls);
    hide Run, Applied, KeptIn, StoredIn, Yields, Paired, EndsWaiting, Marker;
    YieldsUnmarked(t);
    StoredLikeKept(Yields(t));
    WaitingAlike(a, log, KeptIn(Yields(t)), StoredIn(Yields(t)));
    assert NewMarkers(log, t);
  }

  lemma WaitingCallIsFound(a: LlmConfig, session: seq<Event>, more: seq<Event>, id: string)
    requires EndsWaiting(a, session)
    requires session != [] && session[|session| - 1].longRunningToolIds.Some?
    requires id in session[|session| - 1].longRunningToolIds.value
    ensures LastCall(session, id).Some? && FindCall(session + more, a.name, id).Some?
    ensures NewInLastCall(session, a.name, id) ==> FindCall(session + more, a.name, id) == LastCall(session, id)
  {
    hide FunctionCalls, FindCall, FirstWithId, NewInLastCall, WaitingIds;
    var n := |session|;
    var rs: seq<FunctionResponse> :| AnswerTo(rs, session[n - 1], session[n - 2]);
    WaitingAreCalled(rs, id);
    var k :| 0 <= k < |rs| && rs[k].id == Some(id);
    FirstWithIdFinds(FunctionCalls(session[n - 2]), k);
    LastCallFound(session, more, a.name, id);
  }

  /** The run paused the invocation, and the call is among those it waits for. */
  ghost predicate PausedOn(a: LlmConfig, w: World, mode: StreamingMode, log: seq<Event>, bag: Bag, calls: nat,
                           id: string) {
    var t := Run(a, w, mode, log, bag, calls).0.trace;
    var session := Hosted(log, t);
    && Pause in t && session != []
    && var ids := session[|session| - 1].longRunningToolIds;
       ids.Some? && id in ids.value
  }

  /**
   * Pause and resume meet: a call that one run of an agent paused on, once unblocked, is dispatched and consumed by the
   * replay of that agent's next run, if its tool is still registered and no dispatch fails.  If the agent had not used
   * the id before, what is dispatched is the very call that the run paused on.
   */
  lemma UnblockedCallIsReplayed(a: LlmConfig, w: World, mode: StreamingMode, log: seq<Event>, bag: Bag, calls: nat,
                                more: seq<Event>, next: Replayer, id: string)
    requires PausedOn(a, w, mode, log, bag, calls, id)
    requires next.name == a.name && next.log == Hosted(log, Run(a, w, mode, log, bag, calls).0.trace) + more
    requires id in ResumedIds(next.bag)
    ensures FindCall(next.log, next.name, id).Some?
    ensures FindCall(next.log, next.name, id).value.name in next.tools && ReplayAll(next).error.None? ==>
              id in ReplayAll(next).consumed
    ensures var session := Hosted(log, Run(a, w, mode, log, bag, calls).0.trace);
            && LastCall(session, id).Some?
            && (NewInLastCall(session, a.name, id) ==>
                  FindCall(next.log, next.name, id) == LastCall(session, id)
                  && var fc := LastCall(session, id).value;
                     fc.name in next.tools ==> Owned(next, id) == Some((fc, next.tools[fc.name])))
  {
    hide Run, Hosted, FindCall, ReplayAll, Owned, ResumedIds, LastCall, NewInLastCall, EndsWaiting;
    PausedRunEndsWaiting(a, w, mode, log, bag, calls);
    WaitingCallIsFound(a, Hosted(log, Run(a, w, mode, log, bag, calls).0.trace), more, id);
    FoundIsOwned(next, id);
  }

  /** What a replay finds and has the tool for it owns, dispatches and consumes. */
  lemma FoundIsOwned(next: Replayer, id: string)
    requires FindCall(next.log, next.name, id).Some? && id in ResumedIds(next.bag)
    ensures var fc := FindCall(next.log, next.name, id).value;
            fc.name in next.tools ==>
              && Owned(next, id) == Some((fc, next.tools[fc.name]))
              && (ReplayAll(next).error.None? ==> id in ReplayAll(next).consumed)
  {
    hide FindCall, ReplayFrom, ResumedIds, Distinct;
    var fc := FindCall(next.log, next.name, id).value;
    if fc.name in next.tools && ReplayAll(next).error.None? {
      var ids := ResumedIds(next.bag);
      ConsumedIs(next, ids);
      OwnedOnce(next, ids, 0);
      var j :| 0 <= j < |ids| && ids[j] == id;
      hide ReplayAll, OwnedFrom;
      assert Owned(next, ids[j]).Some?;
    }
  }

  lemma AppliedAnswer(log: seq<Event>, t: seq<Op>, e: Event, ran: seq<Execution>, answer: Event)
    ensures Applied(log, t + ([Push(e)] + ([Yield(e)] + Executions(ran) + PushYield(answer)))) ==
            Applied(log, t) + [e, answer]
  {
    hide Applied, Yields, Executions;
    var t1 := t + [Push(e)] + [Yield(e)];
    AppliedSnoc(log, t, Push(e));
    AppliedSnoc(log, t + [Push(e)], Yield(e));
    ExecutionsLeaveNoMark(log, t1, ran);
    var t2 := t1 + Executions(ran);
    AppliedSnoc(log, t2, Push(answer));
    AppliedSnoc(log, t2 + [Push(answer)], Yield(answer));
    assert t2 + [Push(answer)] + [Yield(answer)] ==
           t + ([Push(e)] + ([Yield(e)] + Executions(ran) + PushYield(answer)));
  }

  /** The contents of the last two events of a session. */
  ghost predicate EndsWith(session: seq<Event>, pair: seq<Content>) {
    var n := |session|;
    && n >= 2 && |pair| == 2
    && session[n - 2].response.content == Some(pair[0]) && session[n - 1].response.content == Some(pair[1])
  }

  /** One final response per call of the answer, in the same order, with equal id and name. */
  ghost predicate AnswersInOrder(answer: Content, results: Content) {
    var calls := CallsIn(answer.parts);
    calls != [] ==> exists rs :: results == ToolContent(rs) && InOrder(rs, calls)
  }

  predicate InOrder(rs: seq<FunctionResponse>, calls: seq<FunctionCall>) {
    && |rs| == |calls|
    && forall k | 0 <= k < |calls| ::
         calls[k].id.Some? && rs[k].id == calls[k].id && rs[k].name == calls[k].name && rs[k].willContinue != Some(true)
  }

  lemma {:induction false} NoneWaits(rs: seq<FunctionResponse>)
    requires WaitingIds(rs) == [] && forall k | 0 <= k < |rs| :: rs[k].id.Some?
    ensures forall k | 0 <= k < |rs| :: rs[k].willContinue != Some(true)
    decreases rs
  {
    if rs != [] {
      NoneWaits(rs[..|rs| - 1]);
    }
  }

  ghost predicate Continues(step: Step, session: seq<Event>) {
    && |step.appended| == 2 && step.appended[1].role == Role.Tool
    && EndsWith(session, step.appended) && AnswersInOrder(step.appended[0], step.appended[1])
  }

  lemma ToolTurnContinues(a: LlmConfig, w: World, log: seq<Event>, t: seq<Op>, turn: nat, tools: map<string, Tool>,
                          event: Event, bag: Bag)
    requires event.response.content.Some? && ToolTurn(a, w, turn, tools, event, bag).end == Continue
    requires forall k | 0 <= k < |FunctionCalls(event)| :: FunctionCalls(event)[k].id.Some?
    ensures var step := ToolTurn(a, w, turn, tools, event, bag);
            Continues(step, Applied(log, t + ([Push(event)] + step.ops)))
  {
    hide GatherFrom, Applied, Executions, CallsIn, PushYield, WaitingIds;
    var calls := FunctionCalls(event);
    var g := GatherFrom(a, w, turn, tools, bag, calls, 0, NOTHING_GATHERED);
    AppliedAnswer(log, t, event, g.ran, ToolResponseEvent(a, w, turn, g));
    assert WaitingIds([]) == [] by { NothingWaits(); }
    GatherAnswers(a, w, turn, tools, bag, calls, 0, NOTHING_GATHERED);
    assert forall k | 0 <= k < |calls| :: g.responses[k].id == calls[k].id;
    NoneWaits(g.responses);
    assert InOrder(g.responses, calls);
  }

  lemma NothingWaits()
    ensures WaitingIds([]) == []
  {
  }

  lemma CodeTurnContinues(a: LlmConfig, w: World, log: seq<Event>, t: seq<Op>, turn: nat, codes: seq<Code>,
                          event: Event)
    requires a.executor.Some? && event.response.content.Some? && FunctionCalls(event) == []
    ensures var step := CodeTurn(a, w, turn, codes, event);
            Continues(step, Applied(log, t + ([Push(event)] + step.ops)))
  {
    hide Applied, ResultsOf;
    var step := CodeTurn(a, w, turn, codes, event);
    var ce := CodeResultEvent(a, w, turn, step.appended[1]);
    AppliedAnswer(log, t, event, [], ce);
    assert [Yield(event)] + Executions([]) + PushYield(ce) == step.ops;
  }

  lemma AfterModelContinues(a: LlmConfig, w: World, log: seq<Event>, t: seq<Op>, turn: nat, tools: map<string, Tool>,
                            event: Event, bag: Bag)
    requires AfterModel(a, w, turn, tools, event, bag).end == Continue
    requires forall k | 0 <= k < |FunctionCalls(event)| :: FunctionCalls(event)[k].id.Some?
    ensures var step := AfterModel(a, w, turn, tools, event, bag);
            Continues(step, Applied(log, t + ([Push(event)] + step.ops)))
  {
    hide ToolTurn, CodeTurn, Applied, CodeIn, Continues;
    var codes := if event.response.content.Some? then CodeIn(event.response.content.value.parts, w.lower) else [];
    if FunctionCalls(event) != [] {
      ToolTurnContinues(a, w, log, t, turn, tools, event, bag);
    } else if a.executor.Some? && codes != [] {
      CodeTurnContinues(a, w, log, t, turn, codes, event);
    }
  }

  /**
   * The loop goes on only after a turn of the model's that called tools or emitted code; the next request is then the
   * last one extended by exactly the two contents that the session was extended by: the answer, then its results.  If
   * the answer has calls, the results are one final response per call, in order, with equal ids and names.
   */
  lemma ContinuingExtendsTheRequest(a: LlmConfig, w: World, mode: StreamingMode, log: seq<Event>, turn: nat,
                                    tools: map<string, Tool>, s: State)
    requires Turn(a, w, mode, turn, tools, s).1 == Continue
    ensures var (s1, _) := Turn(a, w, mode, turn, tools, s);
            var before := ModelTurn(a, w, mode, turn, s.contents).contents;
            && |s1.contents| == |before| + 2 && s1.contents[..|before|] == before
            && s1.contents[|before| + 1].role == Role.Tool
            && EndsWith(Applied(log, s1.trace), s1.contents[|before|..])
            && AnswersInOrder(s1.contents[|before|], s1.contents[|before| + 1])
  {
    hide ModelTurn, ModelEventOf, AfterModel, Turn, Applied, EndsWith, AnswersInOrder;
    ContinuingTurn(a, w, mode, turn, tools, s);
    var asked := ModelTurn(a, w, mode, turn, s.contents);
    var event := ModelEventOf(a, w, turn, asked.answer.value);
    var step := AfterModel(a, w, turn, tools, event, s.bag);
    ModelEventIs(a, w, turn, asked.answer.value);
    AfterModelContinues(a, w, log, s.trace + asked.ops, turn, tools, event, s.bag);
    assert s.trace + asked.ops + ([Push(event)] + step.ops) == s.trace + (asked.ops + ([Push(event)] + step.ops));
    assert (asked.contents + step.appended)[|asked.contents|..] == step.appended;
  }

  lemma ContinuingTurn(a: LlmConfig, w: World, mode: StreamingMode, turn: nat, tools: map<string, Tool>, s: State)
    requires Turn(a, w, mode, turn, tools, s).1 == Continue
    ensures var asked := ModelTurn(a, w, mode, turn, s.contents);
            && asked.answer.Ok?
            && var event := ModelEventOf(a, w, turn, asked.answer.value);
               var step := AfterModel(a, w, turn, tools, event, s.bag);
               && step.end == Continue
               && Turn(a, w, mode, turn, tools, s).0.contents == asked.contents + step.appended
               && Turn(a, w, mode, turn, tools, s).0.trace == s.trace + (asked.ops + ([Push(event)] + step.ops))
  {
    hide ModelTurn, ModelEventOf, AfterModel;
  }

  lemma {:induction false} TurnsStayInBudget(a: LlmConfig, w: World, mode: StreamingMode, turn: nat,
                                             tools: map<string, Tool>,
                                             s: State)
    requires turn <= a.maxIterations
    ensures var s1 := Turns(a, w, mode, turn, tools, s).0;
            && s.calls <= s1.calls <= s.calls + (a.maxIterations - turn)
            && (w.maxLlmCalls.Some? && s.calls <= w.maxLlmCalls.value ==> s1.calls <= w.maxLlmCalls.value)
    decreases a.maxIterations - turn
  {
    hide ModelTurn, AnswerStep, Finish;
    if turn < a.maxIterations {
      TurnsStayInBudget(a, w, mode, turn + 1, tools, Turn(a, w, mode, turn, tools, s).0);
    }
  }

  /** A run calls the model at most once per iteration, and never past the cap that the invocation shares. */
  lemma RunStaysInBudget(a: LlmConfig, w: World, mode: StreamingMode, log: seq<Event>, bag: Bag, calls: nat)
    ensures var s := Run(a, w, mode, log, bag, calls).0;
            && calls <= s.calls <= calls + a.maxIterations
            && (w.maxLlmCalls.Some? && calls <= w.maxLlmCalls.value ==> s.calls <= w.maxLlmCalls.value)
  {
    hide Turns, ReplayStep, ReplayOf, InitialContents;
    if w.beforeAgent == Ok(None) && w.request.Ok? {
      var tools := w.request.value.tools;
      var r := ReplayOf(a, w, log, tools, bag);
      var s0 := State(InitialContents(a, w, log, w.request.value.deferred), BagAfterReplay(bag, r), calls, []);
      TurnsStayInBudget(a, w, mode, 0, tools, Advance(s0, ReplayStep(a, w, r)));
    }
  }
}
