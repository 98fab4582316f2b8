/** A streamed run does what the run that asks for whole answers does, but for the partial events it also yields. */
module LlmStreaming {
  import opened Wrappers
  import opened Genai
  import opened Attributes
  import opened Dispatch
  import opened CodeExec
  import opened StreamFold
  import opened LlmAgent

  /** At this point the chunks add up to the whole answer, or both ways of asking fail alike. */
  predicate AddsUp(w: World, turn: nat, contents: seq<Content>) {
    w.generate(turn, contents) ==
    match w.stream(turn, contents)
    case Err(e) => Err(e)
    case Ok((chunks, error)) => if error.Some? then Err(error.value) else Ok(Aggregate(chunks))
  }

  predicate IsPartial(op: Op) {
    op.Yield? && op.event.partial == Some(true)
  }

  /** A trace without its partial events. */
  function WithoutPartials(t: seq<Op>): seq<Op> {
    if t == [] then []
    else (if IsPartial(t[0]) then [] else [t[0]]) + WithoutPartials(t[1..])
  }

  predicate Whole(t: seq<Op>) {
    forall i | 0 <= i < |t| :: !IsPartial(t[i])
  }

  lemma {:induction false} WholeStays(t: seq<Op>)
    requires Whole(t)
    ensures WithoutPartials(t) == t
    decreases t
  {
    if t != [] {
      WholeStays(t[1..]);
    }
  }

  lemma {:induction false} WithoutPartialsConcat(t: seq<Op>, u: seq<Op>)
    ensures WithoutPartials(t + u) == WithoutPartials(t) + WithoutPartials(u)
    decreases t
  {
    if t == [] {
      assert t + u == u;
    } else {
      assert (t + u)[0] == t[0] && (t + u)[1..] == t[1..] + u;
      WithoutPartialsConcat(t[1..], u);
    }
  }

  /** Two traces that differ in partial events only. */
  predicate SameTrace(whole: seq<Op>, streamed: seq<Op>) {
    whole == WithoutPartials(streamed)
  }

  predicate SameState(whole: State, streamed: State) {
    whole.(trace := streamed.trace) == streamed && SameTrace(whole.trace, streamed.trace)
  }

  lemma SameAppended(t: seq<Op>, u: seq<Op>, t': seq<Op>, u': seq<Op>)
    requires SameTrace(t, t') && SameTrace(u, u')
    ensures SameTrace(t + u, t' + u')
  {
    WithoutPartialsConcat(t', u');
  }

  lemma {:induction false} PartialsVanish(a: LlmConfig, w: World, turn: nat, chunks: seq<LlmResponse>, k: nat)
    requires k <= |chunks|
    ensures WithoutPartials(PartialOps(a, w, turn, chunks, k)) == []
    ensures Pause !in PartialOps(a, w, turn, chunks, k)
    decreases |chunks| - k
  {
    if k < |chunks| {
      var rest := PartialOps(a, w, turn, chunks, k + 1);
      PartialsVanish(a, w, turn, chunks, k + 1);
      if HasParts(chunks[k]) {
        var op := Yield(PartialChunkEvent(a, w, PartialEvent(turn, k), chunks[k]));
        assert PartialOps(a, w, turn, chunks, k) == [op] + rest && ([op] + rest)[1..] == rest;
      } else {
        assert PartialOps(a, w, turn, chunks, k) == rest;
      }
    }
  }

  /** Asked either way the model gives the same answer, and the callbacks see the same. */
  lemma SameAnswer(a: LlmConfig, w: World, turn: nat, contents: seq<Content>)
    requires forall contents :: AddsUp(w, turn, contents)
    ensures var asked := ModelTurn(a, w, StreamingMode.Whole, turn, contents);
            var asked' := ModelTurn(a, w, Sse, turn, contents);
            && asked == asked'.(ops := []) && WithoutPartials(asked'.ops) == [] && Pause !in asked'.ops
  {
    hide PartialOps, Aggregate;
    forall contents ensures AddsUp(w, turn, contents) && match w.stream(turn, contents)
      case Err(_) => true
      case Ok((chunks, _)) =>
        var ops := PartialOps(a, w, turn, chunks, 0); WithoutPartials(ops) == [] && Pause !in ops
    {
      match w.stream(turn, contents) {
        case Err(_) =>
        case Ok((chunks, _)) => PartialsVanish(a, w, turn, chunks, 0);
      }
    }
  }

  lemma NothingPartialAfter(a: LlmConfig, w: World, turn: nat, tools: map<string, Tool>, response: LlmResponse,
                            bag: Bag)
    ensures var event := ModelEventOf(a, w, turn, response);
            Whole([Push(event)] + AfterModel(a, w, turn, tools, event, bag).ops)
  {
    hide GatherFrom, ResultsOf, CodeIn, FunctionCalls, OutputValue, WithIds, ToolContent;
  }

  lemma SameTurn(a: LlmConfig, w: World, turn: nat, tools: map<string, Tool>, s: State, s': State)
    requires SameState(s, s') && forall contents :: AddsUp(w, turn, contents)
    ensures var (r, end) := Turn(a, w, StreamingMode.Whole, turn, tools, s);
            var (r', end') := Turn(a, w, Sse, turn, tools, s');
            SameState(r, r') && end == end'
  {
    hide ModelTurn, AfterModel, ModelEventOf, WithoutPartials;
    if w.cancelled(turn) {
      var ops := PushYield(CancellationEvent(a, w, turn));
      WholeStays(ops);
      SameAppended(s.trace, ops, s'.trace, ops);
    } else {
      var asked := ModelTurn(a, w, StreamingMode.Whole, turn, s.contents);
      var asked' := ModelTurn(a, w, Sse, turn, s.contents);
      SameAnswer(a, w, turn, s.contents);
      match asked.answer {
        case Err(_) => SameAppended(s.trace, asked.ops, s'.trace, asked'.ops);
        case Ok(response) =>
          var event := ModelEventOf(a, w, turn, response);
          var ops := [Push(event)] + AfterModel(a, w, turn, tools, event, s.bag).ops;
          NothingPartialAfter(a, w, turn, tools, response, s.bag);
          WholeStays(ops);
          SameAppended(asked.ops, ops, asked'.ops, ops);
          SameAppended(s.trace, asked.ops + ops, s'.trace, asked'.ops + ops);
      }
    }
  }

  lemma {:induction false} SameTurns(a: LlmConfig, w: World, turn: nat, tools: map<string, Tool>, s: State, s': State)
    requires turn <= a.maxIterations && SameState(s, s') && forall turn, contents :: AddsUp(w, turn, contents)
    ensures var (r, end) := Turns(a, w, StreamingMode.Whole, turn, tools, s);
            var (r', end') := Turns(a, w, Sse, turn, tools, s');
            SameState(r, r') && end == end'
    decreases a.maxIterations - turn
  {
    hide Turn, WithoutPartials, AddsUp;
    if turn == a.maxIterations {
      var ops := [Yield(ExhaustedBudgetEvent(a, w))] + Finish(a, w).ops;
      WholeStays(ops);
      SameAppended(s.trace, ops, s'.trace, ops);
    } else {
      SameTurn(a, w, turn, tools, s, s');
      var (r, end) := Turn(a, w, StreamingMode.Whole, turn, tools, s);
      if end == Continue {
        SameTurns(a, w, turn + 1, tools, r, Turn(a, w, Sse, turn, tools, s').0);
      }
    }
  }

  /** Before the first turn nothing partial is yielded. */
  lemma NothingPartialBefore(a: LlmConfig, w: World, r: Replay, content: Content)
    ensures WithoutPartials(ReplayStep(a, w, r).ops) == ReplayStep(a, w, r).ops
    ensures var ops := PushYield(AgentEvent(a, w, BeforeAgentEvent, WithContent(content))); WithoutPartials(ops) == ops
  {
    hide WithoutPartials;
    WholeStays(ReplayStep(a, w, r).ops);
    WholeStays(PushYield(AgentEvent(a, w, BeforeAgentEvent, WithContent(content))));
  }

  /**
   * If the chunks of every stream add up to the whole answer, a streamed run makes the same requests, dispatches the
   * same calls, leaves the same session and bag and ends alike; without its partial events it yields the same stream.
   */
  lemma StreamedRunRefinesWholeRun(a: LlmConfig, w: World, log: seq<Event>, bag: Bag, calls: nat)
    requires forall turn, contents :: AddsUp(w, turn, contents)
    ensures var (s, end) := Run(a, w, StreamingMode.Whole, log, bag, calls);
            var (s', end') := Run(a, w, Sse, log, bag, calls);
            && end == end' && s.contents == s'.contents && s.bag == s'.bag && s.calls == s'.calls
            && s.trace == WithoutPartials(s'.trace)
            && Applied(log, s.trace) == Applied(log, s'.trace)
  {
    hide AddsUp, Turns, WithoutPartials, ReplayStep, ReplayOf, Applied, PushYield, AgentEvent;
    assert WithoutPartials([]) == [] by { WholeStays([]); }
    var s, s' := Run(a, w, StreamingMode.Whole, log, bag, calls).0, Run(a, w, Sse, log, bag, calls).0;
    if w.beforeAgent == Ok(None) && w.request.Ok? {
      var tools := w.request.value.tools;
      var r := ReplayOf(a, w, log, tools, bag);
      var step := ReplayStep(a, w, r);
      NothingPartialBefore(a, w, r, Content(User, []));
      assert [] + step.ops == step.ops;
      if step.end == Continue {
        var contents := InitialContents(a, w, log, w.request.value.deferred);
        var s1 := Advance(State(contents, BagAfterReplay(bag, r), calls, []), step);
        SameTurns(a, w, 0, tools, s1, s1);
      }
    } else if w.beforeAgent.Ok? && w.beforeAgent.value.Some? {
      var content := w.beforeAgent.value.value;
      NothingPartialBefore(a, w, NOTHING_REPLAYED, content);
      var ops := PushYield(AgentEvent(a, w, BeforeAgentEvent, WithContent(content)));
      assert [] + ops == ops;
    }
    PartialsLeaveNoTrace(log, s'.trace);
  }

  lemma {:induction false} PartialsLeaveNoTrace(log: seq<Event>, t: seq<Op>)
    ensures Applied(log, t) == Applied(log, WithoutPartials(t))
    decreases t
  {
    if t != [] {
      var init, op := t[..|t| - 1], t[|t| - 1];
      PartialsLeaveNoTrace(log, init);
      WithoutPartialsConcat(init, [op]);
      assert [op][1..] == [];
      assert WithoutPartials([op]) == if IsPartial(op) then [] else [op];
      hide Applied, WithoutPartials;
      assert init + [op] == t;
      AppliedSnoc(log, init, op);
      if IsPartial(op) {
        assert WithoutPartials(t) == WithoutPartials(init);
      } else {
        AppliedSnoc(log, WithoutPartials(init), op);
      }
    }
  }
}
