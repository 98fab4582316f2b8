/**
 * The loop of `LlmAgent::run` (src/agents/llm_agent.rs:154-647) in its own form: it updates the request's contents, the
 * session, the shared bag and the call budget in place.  It does what `LlmAgent.Run` says.
 */
module LlmRun {
  import opened Wrappers
  import opened Genai
  import opened Attributes
  import opened Dispatch
  import opened CodeExec
  import opened StreamFold
  import opened LlmAgent

  /** The events of the session, as the agents of an invocation share them. */
  class Session {
    var events: seq<Event>

    constructor (events: seq<Event>)
      ensures this.events == events
    {
      this.events := events;
    }

    method Append(e: Event)
      modifies this
      ensures events == old(events) + [e]
    {
      events := events + [e];
    }

    /** Overwrite the last event that has the id of `e`. */
    method ReplaceById(e: Event)
      modifies this
      ensures events == StampOver(old(events), e)
    {
      var k := |events| - 1;
      while k >= 0 && events[k].id != e.id
        invariant -1 <= k < |events|
        invariant LastWithId(events[..k + 1], e.id) == LastWithId(events, e.id)
      {
        assert events[..k + 1][..k] == events[..k];
        k := k - 1;
      }
      assert events == events[..|events|];
      if k >= 0 {
        events := events[k := e];
      }
    }
  }

  class AgentRun {
    const a: LlmConfig
    const w: World
    const mode: StreamingMode
    const shared: SharedBag
    const session: Session
    ghost const start: seq<Event>

    var contents: seq<Content>
    var calls: nat
    var stream: seq<Event>
    ghost var trace: seq<Op>

    ghost predicate Valid()
      reads this, session
    {
      session.events == Applied(start, trace) && stream == Yields(trace)
    }

    ghost function State(): State
      reads this, shared
    {
      LlmAgent.State(contents, shared.bag, calls, trace)
    }

    constructor (a: LlmConfig, w: World, mode: StreamingMode, session: Session, shared: SharedBag, calls: nat)
      ensures Valid() && this.a == a && this.w == w && this.mode == mode && this.session == session
      ensures this.shared == shared && start == session.events && State() == LlmAgent.State([], shared.bag, calls, [])
    {
      this.a, this.w, this.mode, this.session, this.shared, this.calls := a, w, mode, session, shared, calls;
      start, contents, stream, trace := session.events, [], [], [];
    }

    method Append(e: Event)
      requires Valid()
      modifies this, session
      ensures Valid() && State() == old(State()).(trace := old(trace) + [Push(e)])
    {
      AppliedSnoc(start, trace, Push(e));
      session.Append(e);
      trace := trace + [Push(e)];
    }

    method Replace(e: Event)
      requires Valid()
      modifies this, session
      ensures Valid() && State() == old(State()).(trace := old(trace) + [Op.Stamp(e)])
    {
      AppliedSnoc(start, trace, Op.Stamp(e));
      session.ReplaceById(e);
      trace := trace + [Op.Stamp(e)];
    }

    method Emit(e: Event)
      requires Valid()
      modifies this
      ensures Valid() && State() == old(State()).(trace := old(trace) + [Yield(e)])
    {
      AppliedSnoc(start, trace, Yield(e));
      stream := stream + [e];
      trace := trace + [Yield(e)];
    }

    method AppendAndEmit(e: Event)
      requires Valid()
      modifies this, session
      ensures Valid() && State() == old(State()).(trace := old(trace) + PushYield(e))
    {
      Append(e);
      Emit(e);
      assert old(trace) + [Push(e)] + [Yield(e)] == old(trace) + PushYield(e);
    }

    /** The executions of tools; what tools do is outside the run. */
    ghost method Note(ran: seq<Execution>)
      requires Valid()
      modifies this`trace
      ensures Valid() && State() == old(State()).(trace := old(trace) + Executions(ran))
    {
      ExecutionsLeaveNoMark(start, trace, ran);
      trace := trace + Executions(ran);
    }

    method MarkPaused()
      requires Valid()
      modifies this`trace, shared
      ensures Valid()
      ensures State() == old(State()).(trace := old(trace) + [Pause], bag := old(shared.bag).(paused := true))
    {
      AppliedSnoc(start, trace, Pause);
      shared.bag := shared.bag.(paused := true);
      trace := trace + [Pause];
    }

    // ---- The model -------------------------------------------------------------------------------------

    /** Drain the stream: surface each chunk that has content, fold all of them. */
    method Drain(turn: nat, chunks: seq<LlmResponse>) returns (aggregate: LlmResponse)
      requires Valid()
      modifies this
      ensures Valid() && aggregate == Aggregate(chunks)
      ensures State() == old(State()).(trace := old(trace) + PartialOps(a, w, turn, chunks, 0))
    {
      hide Applied, Yields, Merge;
      var agg := new Accumulator();
      var k := 0;
      while k < |chunks|
        invariant 0 <= k <= |chunks| && fresh(agg)
        invariant Valid() && State() == old(State()).(trace := trace)
        invariant trace + PartialOps(a, w, turn, chunks, k) == old(trace) + PartialOps(a, w, turn, chunks, 0)
        invariant Fold(agg.Value(), chunks[k..]) == Aggregate(chunks)
      {
        assert chunks[k..][0] == chunks[k] && chunks[k..][1..] == chunks[k + 1..];
        if HasParts(chunks[k]) {
          ghost var before, rest := trace, PartialOps(a, w, turn, chunks, k + 1);
          var e := PartialChunkEvent(a, w, PartialEvent(turn, k), chunks[k]);
          Emit(e);
          assert before + ([Yield(e)] + rest) == before + [Yield(e)] + rest;
        } else {
          assert [] + PartialOps(a, w, turn, chunks, k + 1) == PartialOps(a, w, turn, chunks, k + 1);
        }
        agg.MergeStreamChunk(chunks[k]);
        k := k + 1;
      }
      aggregate := agg.Value();
      assert trace + [] == trace;
    }

    method AskModel(turn: nat) returns (answer: Result<LlmResponse, string>)
      requires Valid()
      modifies this
      ensures var asked := LlmAgent.AskModel(a, w, mode, turn, old(contents));
              && Valid() && answer == asked.answer
              && State() == old(State()).(trace := old(trace) + asked.ops, contents := asked.contents)
    {
      assert trace + [] == trace;
      match mode {
        case Whole => answer := w.generate(turn, contents);
        case Sse =>
          match w.stream(turn, contents) {
            case Err(e) => answer := Err(e);
            case Ok((chunks, error)) =>
              var aggregate := Drain(turn, chunks);
              answer := if error.Some? then Err(error.value) else Ok(aggregate);
          }
      }
    }

    method ModelTurn(turn: nat) returns (answer: Result<LlmResponse, string>)
      requires Valid()
      modifies this
      ensures var asked := LlmAgent.ModelTurn(a, w, mode, turn, old(contents));
              && Valid() && answer == asked.answer
              && State() == old(State()).(trace := old(trace) + asked.ops, contents := asked.contents)
    {
      assert trace + [] == trace;
      var attempt: Result<LlmResponse, string>;
      match w.beforeModel(turn, contents) {
        case Err(e) => return Err(e);
        case Ok(Answer(rewritten, r)) =>
          contents := rewritten;
          attempt := Ok(r);
        case Ok(Ask(rewritten)) =>
          contents := rewritten;
          attempt := AskModel(turn);
          if attempt.Err? {
            match w.onModelError(turn, contents, attempt.error) {
              case Err(e) => return Err(e);
              case Ok(recovery) =>
                contents := recovery.contents;
                if recovery.response.None? {
                  return attempt;
                }
                attempt := Ok(recovery.response.value);
            }
          }
      }
      answer := w.afterModel(turn, attempt.value);
    }

    /** Give each call that has no id one of its own, in place. */
    method EnsureFunctionCallIds(turn: nat, e: Event) returns (event: Event)
      ensures event == EnsureCallIds(w, turn, e)
    {
      if e.response.content.None? {
        return e;
      }
      var c := e.response.content.value;
      var parts := c.parts;
      var i := 0;
      while i < |parts|
        invariant 0 <= i <= |parts| == |c.parts|
        invariant forall j | 0 <= j < i :: parts[j] == PartWithId(w, turn, j, c.parts[j])
        invariant forall j | i <= j < |parts| :: parts[j] == c.parts[j]
      {
        if parts[i].Call? && parts[i].call.id.None? {
          parts := parts[i := Part.Call(parts[i].call.(id := Some(w.callId(turn, i))))];
        }
        i := i + 1;
      }
      assert parts == WithIds(w, turn, c.parts);
      event := e.(response := e.response.(content := Some(Content(c.role, parts))));
    }

    // ---- The tools -------------------------------------------------------------------------------------

    /** Dispatch each call and gather what the tools answer and ask for. */
    method DispatchCalls(turn: nat, tools: map<string, Tool>, fcs: seq<FunctionCall>) returns (g: Gathered)
      requires Valid()
      modifies this`trace
      ensures g == GatherFrom(a, w, turn, tools, shared.bag, fcs, 0, NOTHING_GATHERED)
      ensures Valid() && State() == old(State()).(trace := old(trace) + Executions(g.ran))
    {
      hide DispatchCall, Applied, Yields, ResponseTo, PendingName, CallKey, ErrorValue, Executions;
      var toolResponses: seq<FunctionResponse>, longRunningIds: seq<string> := [], [];
      var transfer: Option<string> := None;
      var escalate, skipSummarization, failed := false, false, false;
      var stateDelta: map<string, Json>, artifactDelta: map<string, nat> := map[], map[];
      var confirmations: map<string, ToolConfirmation> := map[];
      var ran: seq<Execution> := [];
      var error: Option<string> := None;
      var i := 0;
      while i < |fcs| && error.None?
        invariant 0 <= i <= |fcs|
        invariant GatherFrom(a, w, turn, tools, shared.bag, fcs, i,
                    Gathered(toolResponses, longRunningIds, stateDelta, artifactDelta, skipSummarization, escalate,
                             transfer, confirmations, ran, error)) ==
                  GatherFrom(a, w, turn, tools, shared.bag, fcs, 0, NOTHING_GATHERED)
        decreases |fcs| - i, error.None?
      {
        var fc := fcs[i];
        ghost var next := GatherOne(a, w, turn, tools, shared.bag, i, fc,
                    Gathered(toolResponses, longRunningIds, stateDelta, artifactDelta, skipSummarization, escalate,
                             transfer, confirmations, ran, error));
        if fc.name !in tools {
          error := Some("unknown tool: " + fc.name);
        } else {
          var tool := tools[fc.name];
          var d := DispatchCall(w.tools, Called(turn, i), tool, fc, shared.bag);
          ran := ran + if d.ran.Some? then [d.ran.value] else [];
          match d.outcome {
            case Err(e) => error := Some(e);
            case Ok(outcome) =>
              if d.effects.escalate {
                escalate := true;
              }
              stateDelta := stateDelta + d.effects.stateDelta;
              artifactDelta := artifactDelta + d.effects.artifactDelta;
              if d.effects.skipSummarization {
                skipSummarization := true;
              }
              if outcome.ConfirmationPending? {
                confirmations := confirmations[CallKey(fc) := outcome.confirmation];
              }
              var value := outcome.value;
              if d.effects.transferTo.Some? && !a.disableTransfer {
                if w.resolves(d.effects.transferTo.value) {
                  transfer := d.effects.transferTo;
                } else {
                  value := ErrorValue("unknown agent `" + d.effects.transferTo.value + "`; transfer not performed");
                }
              }
              var waits := tool.isLongRunning || d.effects.longRunning || PendingName(outcome).Some?;
              longRunningIds := longRunningIds + if waits then [CallKey(fc)] else [];
              toolResponses := toolResponses + [ResponseTo(fc, outcome, value, waits)];
          }
        }
        assert next == Gathered(toolResponses, longRunningIds, stateDelta, artifactDelta, skipSummarization, escalate,
                                transfer, confirmations, ran, error);
        i := i + 1;
      }
      g := Gathered(toolResponses, longRunningIds, stateDelta, artifactDelta, skipSummarization, escalate, transfer,
                    confirmations, ran, error);
      Note(ran);
    }

    method RunToolTurn(turn: nat, tools: map<string, Tool>, event: Event) returns (end: End)
      requires Valid() && event.response.content.Some?
      modifies this, session, shared
      ensures var step := ToolTurn(a, w, turn, tools, event, old(shared.bag));
              Valid() && end == step.end && State() == Advance(old(State()), step)
    {
      hide GatherFrom, Applied, Yields, ToolResponseEvent, EscalationEvent, FunctionCalls, ToolContent;
      Emit(event);
      var g := DispatchCalls(turn, tools, FunctionCalls(event));
      ghost var dispatched := [Yield(event)] + Executions(g.ran);
      assert trace == old(trace) + dispatched;
      assert Pause !in dispatched;
      assert old(contents) + [] == old(contents);
      if g.error.Some? {
        return Errored(g.error.value);
      }
      var te := ToolResponseEvent(a, w, turn, g);
      AppendAndEmit(te);
      ghost var ops := dispatched + PushYield(te);
      assert Pause !in ops && trace == old(trace) + ops;
      if g.transfer.Some? {
        return TransferTo(g.transfer.value);
      }
      if g.escalate {
        Emit(EscalationEvent(a, w, turn));
        assert trace == old(trace) + (ops + [Yield(EscalationEvent(a, w, turn))]);
        return Returned;
      }
      if g.longRunningIds != [] {
        MarkPaused();
        assert trace == old(trace) + (ops + [Pause]) && Pause in ops + [Pause];
        return Returned;
      }
      if g.skipSummarization {
        return Returned;
      }
      contents := contents + [event.response.content.value];
      contents := contents + [ToolContent(g.responses)];
      end := Continue;
    }

    // ---- Code and final turns --------------------------------------------------------------------------

    method RunCodeTurn(turn: nat, codes: seq<Code>, event: Event) returns (end: End)
      requires Valid() && a.executor.Some? && event.response.content.Some?
      modifies this, session
      ensures var step := CodeTurn(a, w, turn, codes, event);
              Valid() && end == step.end && State() == Advance(old(State()), step)
    {
      hide Applied, Yields;
      Emit(event);
      var parts, _ := ExecuteAll(w.execute(turn), codes, a.executor.value);
      var results := Content(Role.Tool, parts);
      var ce := CodeResultEvent(a, w, turn, results);
      AppendAndEmit(ce);
      assert trace == old(trace) + ([Yield(event)] + PushYield(ce));
      contents := contents + [event.response.content.value];
      contents := contents + [results];
      end := Continue;
    }

    method RunFinish() returns (end: End)
      requires Valid()
      modifies this, session
      ensures var step := Finish(a, w);
              && Valid() && end == step.end && Pause !in step.ops && step.appended == []
              && State() == old(State()).(trace := old(trace) + step.ops)
    {
      assert trace + [] == trace;
      match w.afterAgent {
        case Err(e) => end := Errored(e);
        case Ok(None) => end := Returned;
        case Ok(Some(content)) =>
          AppendAndEmit(AgentEvent(a, w, AfterAgentEvent, WithContent(content)));
          end := Returned;
      }
    }

    method EmitFinal(final: Event)
      requires Valid()
      modifies this, session
      ensures Valid() && State() == old(State()).(trace := old(trace) + FinalOps(a, w, final))
    {
      hide Applied, Yields;
      var event := final;
      if a.outputKey.Some? {
        var v := OutputValue(w, event, a.structured);
        if v.Some? {
          event := WithOutput(event, a.outputKey.value, v.value);
          Replace(event);
        }
      }
      Emit(event);
      assert trace == old(trace) + FinalOps(a, w, final);
    }

    // ---- The loop --------------------------------------------------------------------------------------

    /** What becomes of the model's event. */
    method RunAfterModel(turn: nat, tools: map<string, Tool>, event: Event) returns (end: End)
      requires Valid()
      modifies this, session, shared
      ensures var step := AfterModel(a, w, turn, tools, event, old(shared.bag));
              Valid() && end == step.end && State() == Advance(old(State()), step)
    {
      hide Applied, Yields, ToolTurn, CodeTurn, FinalOps;
      var codes := if event.response.content.Some? then CodeIn(event.response.content.value.parts, w.lower) else [];
      if FunctionCalls(event) != [] {
        end := RunToolTurn(turn, tools, event);
      } else if a.executor.Some? && codes != [] {
        end := RunCodeTurn(turn, codes, event);
      } else {
        EmitFinal(event);
        NoPauseAtEnd(a, w, event);
        end := RunFinish();
        assert trace == old(trace) + (FinalOps(a, w, event) + Finish(a, w).ops) && contents + [] == contents;
      }
    }

    /** One iteration of the loop. */
    method RunTurn(turn: nat, tools: map<string, Tool>) returns (end: End)
      requires Valid()
      modifies this, session, shared
      ensures Valid() && (State(), end) == Turn(a, w, mode, turn, tools, old(State()))
    {
      hide Applied, Yields, LlmAgent.ModelTurn, AfterModel, EnsureCallIds;
      if w.cancelled(turn) {
        var e := CancellationEvent(a, w, turn);
        AppendAndEmit(e);
        assert Pause !in PushYield(e) && contents + [] == contents;
        return Returned;
      }
      if w.maxLlmCalls.Some? && calls >= w.maxLlmCalls.value {
        return Errored("max_llm_calls reached");
      }
      calls := calls + 1;
      ghost var before := State();
      ghost var asked := LlmAgent.ModelTurn(a, w, mode, turn, contents);
      ghost var bag := shared.bag;
      NoPauseWhileAsking(a, w, mode, turn, contents);
      var answer := ModelTurn(turn);
      if answer.Err? {
        assert old(trace) + asked.ops == trace && contents + [] == contents;
        return Errored(answer.error);
      }
      var event := EnsureFunctionCallIds(turn, ModelResponseEvent(a, w, ModelEvent(turn), answer.value));
      Append(event);
      ghost var step := AfterModel(a, w, turn, tools, event, bag);
      end := RunAfterModel(turn, tools, event);
      AdvanceTwice(before.(contents := asked.contents), asked.ops, event, step);
    }

    /** The run. */
    method Run() returns (end: End)
      requires Valid() && trace == [] && contents == []
      modifies this, session, shared
      ensures Valid() && (State(), end) == LlmAgent.Run(a, w, mode, old(session.events), old(shared.bag), old(calls))
    {
      hide Applied, Yields, Turns, ReplayOf, ReplayStep;
      match w.beforeAgent {
        case Err(e) => return Errored(e);
        case Ok(Some(content)) =>
          var e := AgentEvent(a, w, BeforeAgentEvent, WithContent(content));
          AppendAndEmit(e);
          assert Pause !in PushYield(e) && contents + [] == contents && [] + PushYield(e) == PushYield(e);
          return Returned;
        case Ok(None) =>
      }
      if w.request.Err? {
        return Errored(w.request.error);
      }
      var tools := w.request.value.tools;
      BuildContents(w.request.value.deferred);
      end := RunReplay(tools);
      if end != Continue {
        return;
      }
      end := RunTurns(tools);
    }

    /** The request's first contents. */
    method BuildContents(deferred: Option<string>)
      requires Valid()
      modifies this`contents
      ensures Valid() && contents == InitialContents(a, w, session.events, deferred)
    {
      contents := if a.includeHistory then w.history(session.events) else [];
      if w.userContent.Some? {
        if contents == [] || contents[|contents| - 1] != w.userContent.value {
          contents := contents + [w.userContent.value];
        }
      }
      if deferred.Some? {
        contents := contents + [Content(User, [Text(deferred.value)])];
      }
    }

    /** The loop, and what is left to do when its budget is used up. */
    method RunTurns(tools: map<string, Tool>) returns (end: End)
      requires Valid()
      modifies this, session, shared
      ensures Valid() && (State(), end) == Turns(a, w, mode, 0, tools, old(State()))
    {
      hide Applied, Yields, Turn, Finish;
      var turn := 0;
      while turn < a.maxIterations
        invariant 0 <= turn <= a.maxIterations && Valid()
        invariant Turns(a, w, mode, turn, tools, State()) == Turns(a, w, mode, 0, tools, old(State()))
      {
        end := RunTurn(turn, tools);
        if end != Continue {
          return;
        }
        turn := turn + 1;
      }
      var exhausted := ExhaustedBudgetEvent(a, w);
      ghost var before := trace;
      Emit(exhausted);
      end := RunFinish();
      assert trace == before + ([Yield(exhausted)] + Finish(a, w).ops) && contents + [] == contents;
    }

    /** Replay what the user has unblocked, and answer it. */
    method RunReplay(tools: map<string, Tool>) returns (end: End)
      requires Valid()
      modifies this, session, shared
      ensures var r := ReplayOf(a, w, old(session.events), tools, old(shared.bag));
              var step := ReplayStep(a, w, r);
              && Valid() && end == step.end
              && State() == Advance(old(State()).(bag := BagAfterReplay(old(shared.bag), r)), step)
    {
      hide Applied, Yields, ReplayAll;
      var r := ReplayResumedToolCalls(w.tools, a.name, tools, session.events, shared);
      Note(r.ran);
      assert Pause !in Executions(r.ran);
      assert old(contents) + [] == old(contents);
      if r.error.Some? {
        return Errored(r.error.value);
      }
      if r.responses == [] {
        return Continue;
      }
      var e := ReplayResponseEvent(a, w, r);
      AppendAndEmit(e);
      assert trace == old(trace) + (Executions(r.ran) + PushYield(e));
      if r.skipSummarization {
        return Returned;
      }
      contents := contents + [ToolContent(r.responses)];
      end := Continue;
    }
  }

  lemma {:induction false} NoPauseInPartials(a: LlmConfig, w: World, turn: nat, chunks: seq<LlmResponse>, k: nat)
    requires k <= |chunks|
    ensures Pause !in PartialOps(a, w, turn, chunks, k)
    decreases |chunks| - k
  {
    if k < |chunks| {
      NoPauseInPartials(a, w, turn, chunks, k + 1);
    }
  }

  lemma NoPauseWhileAsking(a: LlmConfig, w: World, mode: StreamingMode, turn: nat, contents: seq<Content>)
    ensures Pause !in LlmAgent.ModelTurn(a, w, mode, turn, contents).ops
  {
    forall chunks: seq<LlmResponse> ensures Pause !in PartialOps(a, w, turn, chunks, 0) {
      NoPauseInPartials(a, w, turn, chunks, 0);
    }
  }

  lemma NoPauseAtEnd(a: LlmConfig, w: World, event: Event)
    ensures Pause !in FinalOps(a, w, event) + Finish(a, w).ops
  {
  }

  lemma AdvanceTwice(s: State, ops: seq<Op>, event: Event, step: Step)
    requires Pause !in ops
    ensures Advance(s.(trace := s.trace + ops + [Push(event)]), step) ==
            Advance(s, step.(ops := ops + ([Push(event)] + step.ops)))
  {
    assert s.trace + ops + [Push(event)] + step.ops == s.trace + (ops + ([Push(event)] + step.ops));
  }
}
