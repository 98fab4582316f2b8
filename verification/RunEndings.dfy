/**
 * How a run of an LLM agent ends, told from its stream (src/agents/llm_agent.rs:556-620): whether the invocation
 * pauses, hands over to another agent or goes on is what the last event says.
 */
module RunEndings {
  import opened Wrappers
  import opened Genai
  import opened Attributes
  import opened Dispatch
  import opened CodeExec
  import opened LlmAgent
  import opened Hosting

  /** The event asks for more than another turn. */
  predicate Asks(e: Event) {
    || e.longRunningToolIds.Some? || e.actions.transferToAgent.Some?
    || e.actions.escalate == Some(true) || e.actions.skipSummarization == Some(true)
  }

  predicate Awaits(events: seq<Event>) {
    events != [] && events[|events| - 1].longRunningToolIds.Some?
  }

  predicate NamesNext(events: seq<Event>, name: string) {
    events != [] && events[|events| - 1].actions.transferToAgent == Some(name)
  }

  /** Operations and their end are as the last event of theirs asks. */
  ghost predicate EndsAsAsked(ops: seq<Op>, end: End) {
    var events := Yields(ops);
    && (Pause in ops <==> end == Returned && Awaits(events))
    && (forall name :: end == TransferTo(name) <==> NamesNext(events, name))
    && (end == Continue || end.Errored? ==> events == [] || !Asks(events[|events| - 1]))
    && (end == Returned || end.TransferTo? ==> events != [])
  }

  lemma EndsThen(t: seq<Op>, u: seq<Op>, end: End)
    requires EndsAsAsked(t, Continue) && EndsAsAsked(u, end)
    ensures EndsAsAsked(t + u, end)
  {
    YieldsConcat(t, u);
    hide Yields;
    if Yields(u) == [] {
      assert Yields(t) + Yields(u) == Yields(t);
    } else {
      var all := Yields(t) + Yields(u);
      assert all[|all| - 1] == Yields(u)[|Yields(u)| - 1];
    }
  }

  lemma YieldsOne(op: Op)
    ensures Yields([op]) == if op.Yield? then [op.event] else []
  {
  }

  lemma PlainYield(ops: seq<Op>, e: Event)
    requires ops == [Yield(e)] || ops == [Push(e), Yield(e)] || ops == [Op.Stamp(e), Yield(e)]
    requires !Asks(e)
    ensures forall end | end == Continue || end == Returned || end.Errored? :: EndsAsAsked(ops, end)
  {
    YieldsOne(Yield(e));
    if |ops| == 2 {
      YieldsConcat([ops[0]], [Yield(e)]);
      YieldsOne(ops[0]);
      assert ops == [ops[0]] + [Yield(e)];
    }
  }

  lemma Nothing()
    ensures forall end | end == Continue || end.Errored? :: EndsAsAsked([], end)
  {
  }

  /** After an event that asks for nothing a run may also stop without another one. */
  lemma MayStop(ops: seq<Op>)
    requires EndsAsAsked(ops, Continue) && Yields(ops) != []
    ensures forall end | end == Returned || end.Errored? :: EndsAsAsked(ops, end)
  {
  }

  lemma {:induction false} ChunksAskNothing(a: LlmConfig, w: World, turn: nat, chunks: seq<LlmResponse>, k: nat)
    requires k <= |chunks|
    ensures EndsAsAsked(PartialOps(a, w, turn, chunks, k), Continue)
    decreases |chunks| - k
  {
    hide EndsAsAsked, HasParts;
    Nothing();
    if k < |chunks| {
      var rest := PartialOps(a, w, turn, chunks, k + 1);
      ChunksAskNothing(a, w, turn, chunks, k + 1);
      if HasParts(chunks[k]) {
        var e := PartialChunkEvent(a, w, PartialEvent(turn, k), chunks[k]);
        PlainYield([Yield(e)], e);
        EndsThen([Yield(e)], rest, Continue);
      } else {
        assert [] + rest == rest;
      }
    }
  }

  lemma AskingAsksNothing(a: LlmConfig, w: World, mode: StreamingMode, turn: nat, contents: seq<Content>)
    ensures EndsAsAsked(ModelTurn(a, w, mode, turn, contents).ops, Continue)
  {
    hide EndsAsAsked, PartialOps;
    Nothing();
    forall chunks: seq<LlmResponse> ensures EndsAsAsked(PartialOps(a, w, turn, chunks, 0), Continue) {
      ChunksAskNothing(a, w, turn, chunks, 0);
    }
  }

  lemma FinishEnds(a: LlmConfig, w: World, t: seq<Op>)
    requires EndsAsAsked(t, Continue) && Yields(t) != []
    ensures EndsAsAsked(t + Finish(a, w).ops, Finish(a, w).end)
  {
    MayStop(t);
    hide EndsAsAsked, Yields;
    assert t + [] == t;
    if w.afterAgent.Ok? && w.afterAgent.value.Some? {
      var e := AgentEvent(a, w, AfterAgentEvent, WithContent(w.afterAgent.value.value));
      PlainYield(PushYield(e), e);
      EndsThen(t, PushYield(e), Returned);
    }
  }

  lemma FinalEnds(a: LlmConfig, w: World, event: Event)
    requires !Asks(event)
    ensures EndsAsAsked(FinalOps(a, w, event), Continue) && Yields(FinalOps(a, w, event)) != []
  {
    hide OutputValue, EndsAsAsked;
    var value := if a.outputKey.Some? then OutputValue(w, event, a.structured) else None;
    if value.None? {
      PlainYield([Yield(event)], event);
    } else {
      var e := WithOutput(event, a.outputKey.value, value.value);
      PlainYield([Op.Stamp(e), Yield(e)], e);
    }
  }

  /** Events and executions before the answer to a turn's calls. */
  lemma DispatchedEnds(event: Event, ran: seq<Execution>)
    requires !Asks(event)
    ensures forall end | end == Continue || end.Errored? :: EndsAsAsked([Yield(event)] + Executions(ran), end)
  {
    PlainYield([Yield(event)], event);
    ExecutionsLeaveNoMark([], [Yield(event)], ran);
    hide Yields, Asks;
    assert Pause !in [Yield(event)] + Executions(ran);
  }

  /** The answer, and what follows it. */
  lemma AnswerEnds(te: Event, tail: seq<Op>, end: End)
    requires te.actions.escalate.None?
    requires || (end == Returned && tail == [Pause] && te.longRunningToolIds.Some? && te.actions.transferToAgent.None?)
             || (end.TransferTo? && tail == [] && te.actions.transferToAgent == Some(end.name))
             || (end == Returned && tail == [] && te.longRunningToolIds.None? && te.actions.transferToAgent.None?)
             || (end == Continue && tail == [] && !Asks(te))
             || (end == Returned && |tail| == 1 && tail[0].Yield? && te.actions.transferToAgent.None?
                 && tail[0].event.longRunningToolIds.None? && tail[0].event.actions.transferToAgent.None?)
    ensures EndsAsAsked([Push(te), Yield(te)] + tail, end)
  {
    var before := [Push(te), Yield(te)];
    YieldsConcat([Push(te)], [Yield(te)]);
    YieldsOne(Push(te));
    YieldsOne(Yield(te));
    assert before == [Push(te)] + [Yield(te)];
    YieldsConcat(before, tail);
    if |tail| == 1 {
      YieldsOne(tail[0]);
      assert tail == [tail[0]];
    }
    hide Yields;
    assert Yields(before + tail) == [te] + Yields(tail);
  }

  lemma ToolTurnEnds(a: LlmConfig, w: World, turn: nat, tools: map<string, Tool>, event: Event, bag: Bag)
    requires event.response.content.Some? && !Asks(event)
    ensures var step := ToolTurn(a, w, turn, tools, event, bag); EndsAsAsked(step.ops, step.end)
  {
    hide EndsAsAsked, GatherFrom, FunctionCalls, Executions;
    var g := GatherFrom(a, w, turn, tools, bag, FunctionCalls(event), 0, NOTHING_GATHERED);
    var step := ToolTurn(a, w, turn, tools, event, bag);
    var te := ToolResponseEvent(a, w, turn, g);
    var dispatched := [Yield(event)] + Executions(g.ran);
    DispatchedEnds(event, g.ran);
    if g.error.None? {
      var tail := if g.transfer.Some? then [] else if g.escalate then [Yield(EscalationEvent(a, w, turn))]
                  else if g.longRunningIds != [] then [Pause] else [];
      AnswerEnds(te, tail, step.end);
      EndsThen(dispatched, PushYield(te) + tail, step.end);
      assert dispatched + (PushYield(te) + tail) == step.ops;
    }
  }

  lemma CodeTurnEnds(a: LlmConfig, w: World, turn: nat, codes: seq<Code>, event: Event)
    requires a.executor.Some? && event.response.content.Some? && !Asks(event)
    ensures var step := CodeTurn(a, w, turn, codes, event); EndsAsAsked(step.ops, step.end)
  {
    hide EndsAsAsked, ResultsOf;
    var ce := CodeResultEvent(a, w, turn, CodeTurn(a, w, turn, codes, event).appended[1]);
    PlainYield([Yield(event)], event);
    PlainYield(PushYield(ce), ce);
    EndsThen([Yield(event)], PushYield(ce), Continue);
  }

  lemma AfterModelEnds(a: LlmConfig, w: World, turn: nat, tools: map<string, Tool>, event: Event, bag: Bag)
    requires !Asks(event)
    ensures var step := AfterModel(a, w, turn, tools, event, bag); EndsAsAsked(step.ops, step.end)
  {
    hide EndsAsAsked, ToolTurn, CodeTurn, FinalOps, Finish, CodeIn, CallsIn, Yields, Asks;
    var codes := if event.response.content.Some? then CodeIn(event.response.content.value.parts, w.lower) else [];
    if FunctionCalls(event) != [] {
      ToolTurnEnds(a, w, turn, tools, event, bag);
    } else if a.executor.Some? && codes != [] {
      CodeTurnEnds(a, w, turn, codes, event);
    } else {
      FinalEnds(a, w, event);
      FinishEnds(a, w, FinalOps(a, w, event));
    }
  }

  lemma AnswerAsksNothing(a: LlmConfig, w: World, turn: nat, response: LlmResponse)
    ensures !Asks(ModelEventOf(a, w, turn, response))
  {
  }

  /** Something pushed is not said. */
  lemma PushEnds(e: Event, ops: seq<Op>, end: End)
    requires EndsAsAsked(ops, end)
    ensures EndsAsAsked([Push(e)] + ops, end)
  {
    YieldsOne(Push(e));
    EndsThen([Push(e)], ops, end);
  }

  // ---- The run -----------------------------------------------------------------------------------------

  /** The state of a run: the trace ends as asked, and the bag is marked if the trace says so or it was before. */
  ghost predicate Ends(bag: Bag, s: State, end: End) {
    EndsAsAsked(s.trace, end) && (s.bag.paused <==> bag.paused || Pause in s.trace)
  }

  lemma AdvanceEnds(bag: Bag, s: State, step: Step)
    requires Ends(bag, s, Continue) && EndsAsAsked(step.ops, step.end)
    ensures Ends(bag, Advance(s, step), step.end)
  {
    EndsThen(s.trace, step.ops, step.end);
  }

  lemma StopEnds(bag: Bag, s: State, error: string)
    requires Ends(bag, s, Continue)
    ensures Ends(bag, s, Errored(error))
  {
  }

  lemma TurnEnds(a: LlmConfig, w: World, mode: StreamingMode, turn: nat, tools: map<string, Tool>, bag: Bag, s: State)
    requires Ends(bag, s, Continue)
    ensures var (s1, end) := Turn(a, w, mode, turn, tools, s); Ends(bag, s1, end)
  {
    if w.cancelled(turn) {
      var e := CancellationEvent(a, w, turn);
      PlainYield(PushYield(e), e);
      AdvanceEnds(bag, s, Step(PushYield(e), [], Returned));
    } else if w.maxLlmCalls.Some? && s.calls >= w.maxLlmCalls.value {
      StopEnds(bag, s, "max_llm_calls reached");
    } else {
      var asked := ModelTurn(a, w, mode, turn, s.contents);
      var step := AnswerStep(a, w, turn, tools, asked, s.bag);
      var s0 := s.(calls := s.calls + 1, contents := asked.contents);
      assert Ends(bag, s0, Continue);
      AnswerStepEnds(a, w, mode, turn, tools, s.contents, s.bag);
      hide *;
      TurnIs(a, w, mode, turn, tools, s);
      AdvanceEnds(bag, s0, step);
    }
  }

  lemma TurnIs(a: LlmConfig, w: World, mode: StreamingMode, turn: nat, tools: map<string, Tool>, s: State)
    requires !w.cancelled(turn) && (w.maxLlmCalls.Some? ==> s.calls < w.maxLlmCalls.value)
    ensures var asked := ModelTurn(a, w, mode, turn, s.contents);
            var step := AnswerStep(a, w, turn, tools, asked, s.bag);
            Turn(a, w, mode, turn, tools, s) ==
            (Advance(s.(calls := s.calls + 1, contents := asked.contents), step), step.end)
  {
    hide ModelTurn, AnswerStep, Advance;
  }

  lemma AnswerStepEnds(a: LlmConfig, w: World, mode: StreamingMode, turn: nat, tools: map<string, Tool>,
                       contents: seq<Content>, bag: Bag)
    ensures var step := AnswerStep(a, w, turn, tools, ModelTurn(a, w, mode, turn, contents), bag);
            EndsAsAsked(step.ops, step.end)
  {
    hide ModelTurn, AfterModel, ModelEventOf, Yields;
    var asked := ModelTurn(a, w, mode, turn, contents);
    AskingAsksNothing(a, w, mode, turn, contents);
    if asked.answer.Ok? {
      var event := ModelEventOf(a, w, turn, asked.answer.value);
      var step := AfterModel(a, w, turn, tools, event, bag);
      AnswerAsksNothing(a, w, turn, asked.answer.value);
      AfterModelEnds(a, w, turn, tools, event, bag);
      hide EndsAsAsked;
      PushEnds(event, step.ops, step.end);
      EndsThen(asked.ops, [Push(event)] + step.ops, step.end);
    }
  }

  lemma ExhaustedEnds(a: LlmConfig, w: World)
    ensures EndsAsAsked([Yield(ExhaustedBudgetEvent(a, w))] + Finish(a, w).ops, Finish(a, w).end)
  {
    var e := ExhaustedBudgetEvent(a, w);
    PlainYield([Yield(e)], e);
    YieldsOne(Yield(e));
    hide EndsAsAsked;
    FinishEnds(a, w, [Yield(e)]);
  }

  lemma {:induction false} TurnsEnd(a: LlmConfig, w: World, mode: StreamingMode, turn: nat, tools: map<string, Tool>,
                                    bag: Bag, s: State)
    requires turn <= a.maxIterations && Ends(bag, s, Continue)
    ensures var (s1, end) := Turns(a, w, mode, turn, tools, s); Ends(bag, s1, end)
    decreases a.maxIterations - turn
  {
    hide Ends, EndsAsAsked, Turn, Finish, Advance;
    if turn == a.maxIterations {
      var step := Finish(a, w);
      ExhaustedEnds(a, w);
      AdvanceEnds(bag, s, step.(ops := [Yield(ExhaustedBudgetEvent(a, w))] + step.ops));
    } else {
      TurnEnds(a, w, mode, turn, tools, bag, s);
      var (s1, end) := Turn(a, w, mode, turn, tools, s);
      if end == Continue {
        TurnsEnd(a, w, mode, turn + 1, tools, bag, s1);
      }
    }
  }

  lemma ReplayEnds(a: LlmConfig, w: World, r: Replay)
    ensures var step := ReplayStep(a, w, r); EndsAsAsked(step.ops, step.end)
  {
    hide EndsAsAsked, Executions, AgentEvent;
    ExecutionsEnd(r.ran);
    if r.error.None? && r.responses != [] {
      var e := ReplayResponseEvent(a, w, r);
      AnswerEnds(e, [], ReplayStep(a, w, r).end) by { ReplayAsksToSkip(a, w, r); }
      EndsThen(Executions(r.ran), PushYield(e) + [], ReplayStep(a, w, r).end);
      assert PushYield(e) + [] == PushYield(e);
    }
  }

  lemma ReplayAsksToSkip(a: LlmConfig, w: World, r: Replay)
    ensures var e := ReplayResponseEvent(a, w, r);
            && e.longRunningToolIds.None? && e.actions.transferToAgent.None? && e.actions.escalate.None?
            && (Asks(e) <==> r.skipSummarization)
  {
  }

  lemma ExecutionsEnd(ran: seq<Execution>)
    ensures forall end | end == Continue || end.Errored? :: EndsAsAsked(Executions(ran), end)
  {
    ExecutionsLeaveNoMark([], [], ran);
    assert [] + Executions(ran) == Executions(ran);
    hide Yields, Asks;
    assert Pause !in Executions(ran);
  }

  lemma ConsumingKeepsPause(bag: Bag, r: Replay)
    ensures BagAfterReplay(bag, r).paused == bag.paused
  {
  }

  lemma StartEnds(bag: Bag, s: State)
    requires s.trace == [] && s.bag.paused == bag.paused
    ensures Ends(bag, s, Continue) && forall e :: Ends(bag, s, Errored(e))
  {
  }

  /**
   * Every run: the invocation is paused exactly if it was before or the last event that the run yields lists calls that
   * wait and the run returns; it hands over to another agent exactly if the last event names it; and a run that goes on
   * or fails does so after an event that asks for nothing.
   */
  lemma RunEndsAsAsked(a: LlmConfig, w: World, mode: StreamingMode, log: seq<Event>, bag: Bag, calls: nat)
    ensures var (s, end) := Run(a, w, mode, log, bag, calls);
            EndsAsAsked(s.trace, end) && (s.bag.paused <==> bag.paused || Pause in s.trace)
  {
    hide EndsAsAsked, Turns, ReplayStep, ReplayOf, InitialContents, BagAfterReplay, Advance;
    StartEnds(bag, State([], bag, calls, []));
    match w.beforeAgent {
      case Err(_) =>
      case Ok(Some(content)) =>
        var e := AgentEvent(a, w, BeforeAgentEvent, WithContent(content));
        PlainYield(PushYield(e), e);
        AdvanceEnds(bag, State([], bag, calls, []), Step(PushYield(e), [], Returned));
      case Ok(None) =>
        if w.request.Ok? {
          var request := w.request.value;
          var r := ReplayOf(a, w, log, request.tools, bag);
          var step := ReplayStep(a, w, r);
          var s0 := State(InitialContents(a, w, log, request.deferred), BagAfterReplay(bag, r), calls, []);
          ConsumingKeepsPause(bag, r);
          StartEnds(bag, s0);
          ReplayEnds(a, w, r);
          AdvanceEnds(bag, s0, step);
          if step.end == Continue {
            TurnsEnd(a, w, mode, 0, request.tools, bag, Advance(s0, step));
          }
        }
    }
  }
}
