/**
 * Approvals over a whole run: a tool that needs confirmation runs only for an approved call, and a run of an agent
 * spends each approval at most once.
 */
module LlmGates {
  import opened Wrappers
  import opened Genai
  import opened Attributes
  import opened Dispatch
  import opened CodeExec
  import opened LlmAgent

  // ---- What a trace executed and which calls the model made --------------------------------------------

  function ExecutedBy(op: Op): seq<Execution> {
    if op.Ran? then [op.execution] else []
  }

  /** The calls of an event that the model made. */
  function CallsBy(op: Op): seq<FunctionCall> {
    if op.Push? && op.event.turnComplete == Some(true) then FunctionCalls(op.event) else []
  }

  function Executed(t: seq<Op>): seq<Execution> {
    if t == [] then [] else ExecutedBy(t[0]) + Executed(t[1..])
  }

  function CallsMade(t: seq<Op>): seq<FunctionCall> {
    if t == [] then [] else CallsBy(t[0]) + CallsMade(t[1..])
  }

  lemma Cons(op: Op, t: seq<Op>)
    ensures Executed([op] + t) == ExecutedBy(op) + Executed(t)
    ensures CallsMade([op] + t) == CallsBy(op) + CallsMade(t)
  {
    assert ([op] + t)[1..] == t;
  }

  lemma {:induction false} ExecutedConcat(t: seq<Op>, u: seq<Op>)
    ensures Executed(t + u) == Executed(t) + Executed(u)
    decreases t
  {
    if t == [] {
      assert t + u == u;
    } else {
      hide ExecutedBy;
      assert (t + u)[0] == t[0] && (t + u)[1..] == t[1..] + u;
      ExecutedConcat(t[1..], u);
    }
  }

  lemma {:induction false} CallsMadeConcat(t: seq<Op>, u: seq<Op>)
    ensures CallsMade(t + u) == CallsMade(t) + CallsMade(u)
    decreases t
  {
    if t == [] {
      assert t + u == u;
    } else {
      hide CallsBy;
      assert (t + u)[0] == t[0] && (t + u)[1..] == t[1..] + u;
      CallsMadeConcat(t[1..], u);
    }
  }

  lemma ConcatTraces(t: seq<Op>, u: seq<Op>)
    ensures Executed(t + u) == Executed(t) + Executed(u)
    ensures CallsMade(t + u) == CallsMade(t) + CallsMade(u)
  {
    ExecutedConcat(t, u);
    CallsMadeConcat(t, u);
  }

  predicate Quiet(t: seq<Op>) {
    forall i | 0 <= i < |t| :: !t[i].Ran? && (t[i].Push? ==> t[i].event.turnComplete != Some(true))
  }

  lemma {:induction false} QuietTraces(t: seq<Op>)
    requires Quiet(t)
    ensures Executed(t) == [] && CallsMade(t) == []
    decreases t
  {
    if t != [] {
      QuietTraces(t[1..]);
    }
  }

  lemma {:induction false} ExecutionsTrace(ran: seq<Execution>)
    ensures Executed(Executions(ran)) == ran && CallsMade(Executions(ran)) == []
    decreases ran
  {
    if ran != [] {
      assert Executions(ran)[1..] == Executions(ran[1..]);
      ExecutionsTrace(ran[1..]);
    }
  }

  predicate DistinctCallIds(calls: seq<FunctionCall>) {
    forall i, j | 0 <= i < j < |calls| :: calls[i].id != calls[j].id
  }

  predicate CallsAreOf(ran: seq<Execution>, calls: seq<FunctionCall>) {
    forall x | x in ran :: x.call in calls
  }

  lemma DistinctConcat(calls: seq<FunctionCall>, more: seq<FunctionCall>)
    requires DistinctCallIds(calls + more)
    ensures DistinctCallIds(calls) && DistinctCallIds(more)
    ensures forall c, d | c in calls && d in more :: c.id != d.id
  {
    var all := calls + more;
    forall i, j | 0 <= i < j < |calls| ensures calls[i].id != calls[j].id {
      assert all[i] == calls[i] && all[j] == calls[j];
    }
    forall i, j | 0 <= i < j < |more| ensures more[i].id != more[j].id {
      assert all[|calls| + i] == more[i] && all[|calls| + j] == more[j];
    }
    forall c, d | c in calls && d in more ensures c.id != d.id {
      var i :| 0 <= i < |calls| && calls[i] == c;
      var j :| 0 <= j < |more| && more[j] == d;
      assert all[i] == c && all[|calls| + j] == d;
    }
  }

  // ---- One turn ----------------------------------------------------------------------------------------

  /** What a turn has run by call `i`. */
  predicate RanSoFar(bag: Bag, ran: seq<Execution>, calls: seq<FunctionCall>, i: nat)
    requires i <= |calls|
  {
    && AllApproved(bag, ran) && CallsAreOf(ran, calls[..i])
    && (DistinctCallIds(calls) ==> SpentOnce(ran))
  }

  lemma {:induction false} GatherRuns(a: LlmConfig, w: World, turn: nat, tools: map<string, Tool>, bag: Bag,
                                      calls: seq<FunctionCall>, i: nat, g: Gathered)
    requires i <= |calls| && RanSoFar(bag, g.ran, calls, i)
    ensures RanSoFar(bag, GatherFrom(a, w, turn, tools, bag, calls, i, g).ran, calls, |calls|)
    decreases |calls| - i
  {
    if i < |calls| && g.error.None? {
      GatherOneRuns(a, w, turn, tools, bag, calls, i, g);
      hide GatherOne, RanSoFar;
      GatherRuns(a, w, turn, tools, bag, calls, i + 1, GatherOne(a, w, turn, tools, bag, i, calls[i], g));
    } else {
      RanLater(bag, g.ran, calls, i, |calls|);
    }
  }

  lemma RanLater(bag: Bag, ran: seq<Execution>, calls: seq<FunctionCall>, i: nat, j: nat)
    requires i <= j <= |calls| && RanSoFar(bag, ran, calls, i)
    ensures RanSoFar(bag, ran, calls, j)
  {
    hide AllApproved, DistinctCallIds, SpentOnce;
    forall c | c in calls[..i] ensures c in calls[..j] {
      var k :| 0 <= k < i && calls[k] == c;
      assert calls[..j][k] == c;
    }
  }

  lemma GatherOneRuns(a: LlmConfig, w: World, turn: nat, tools: map<string, Tool>, bag: Bag, calls: seq<FunctionCall>,
                      i: nat, g: Gathered)
    requires i < |calls| && RanSoFar(bag, g.ran, calls, i)
    ensures RanSoFar(bag, GatherOne(a, w, turn, tools, bag, i, calls[i], g).ran, calls, i + 1)
  {
    hide RanSoFar, DispatchCall, Approved, PendingName, AfterTransfer;
    RanLater(bag, g.ran, calls, i, i + 1);
    if calls[i].name in tools {
      var d := DispatchCall(w.tools, Called(turn, i), tools[calls[i].name], calls[i], bag);
      GateHolds(w.tools, Called(turn, i), tools[calls[i].name], calls[i], bag);
      assert g.ran + [] == g.ran;
      if d.ran.Some? {
        RanSnoc(bag, g.ran, calls, i, d.ran.value);
      }
    }
  }

  lemma RanSnoc(bag: Bag, ran: seq<Execution>, calls: seq<FunctionCall>, i: nat, x: Execution)
    requires i < |calls| && RanSoFar(bag, ran, calls, i) && x.call == calls[i]
    requires x.gated ==> x.call.id.Some? && Approved(bag, x.call.id.value)
    ensures RanSoFar(bag, ran + [x], calls, i + 1)
  {
    hide Approved;
    RanLater(bag, ran, calls, i, i + 1);
    assert calls[..i + 1][i] == x.call;
    if DistinctCallIds(calls) {
      forall y | y in ran && y.gated ensures y.call.id != x.call.id {
        var k :| 0 <= k < i && calls[..i][k] == y.call;
        assert calls[k] == y.call;
      }
      SpentOnceSnoc(ran, x);
    }
  }

  /** What a turn executes are calls that the model made in it, the gated ones approved. */
  ghost predicate TurnRuns(bag: Bag, ops: seq<Op>) {
    && AllApproved(bag, Executed(ops)) && CallsAreOf(Executed(ops), CallsMade(ops))
    && (DistinctCallIds(CallsMade(ops)) ==> SpentOnce(Executed(ops)))
  }

  lemma QuietRuns(bag: Bag, ops: seq<Op>)
    requires Quiet(ops)
    ensures TurnRuns(bag, ops)
  {
    QuietTraces(ops);
  }

  lemma {:induction false} PartialsAreQuiet(a: LlmConfig, w: World, turn: nat, chunks: seq<LlmResponse>, k: nat)
    requires k <= |chunks|
    ensures Quiet(PartialOps(a, w, turn, chunks, k))
    decreases |chunks| - k
  {
    if k < |chunks| {
      PartialsAreQuiet(a, w, turn, chunks, k + 1);
    }
  }

  lemma AskingIsQuiet(a: LlmConfig, w: World, mode: StreamingMode, turn: nat, contents: seq<Content>)
    ensures Quiet(ModelTurn(a, w, mode, turn, contents).ops)
  {
    hide PartialOps;
    forall chunks: seq<LlmResponse> ensures Quiet(PartialOps(a, w, turn, chunks, 0)) {
      PartialsAreQuiet(a, w, turn, chunks, 0);
    }
  }

  /** What follows the executions of a tool turn. */
  lemma ToolTurnOps(a: LlmConfig, w: World, turn: nat, tools: map<string, Tool>, event: Event, bag: Bag)
    requires event.response.content.Some?
    ensures var g := GatherFrom(a, w, turn, tools, bag, FunctionCalls(event), 0, NOTHING_GATHERED);
            exists rest ::
              Quiet(rest)
              && ToolTurn(a, w, turn, tools, event, bag).ops == [Yield(event)] + Executions(g.ran) + rest
  {
    hide GatherFrom, FunctionCalls, Executions;
    var g := GatherFrom(a, w, turn, tools, bag, FunctionCalls(event), 0, NOTHING_GATHERED);
    var dispatched := [Yield(event)] + Executions(g.ran);
    var ops := ToolTurn(a, w, turn, tools, event, bag).ops;
    var te := PushYield(ToolResponseEvent(a, w, turn, g));
    var rest :=
      if g.error.Some? then []
      else if g.transfer.Some? then te
      else if g.escalate then te + [Yield(EscalationEvent(a, w, turn))]
      else if g.longRunningIds != [] then te + [Pause]
      else te;
    assert Quiet(rest) && ops == dispatched + rest;
  }

  lemma ToolTurnRuns(a: LlmConfig, w: World, turn: nat, tools: map<string, Tool>, event: Event, bag: Bag)
    requires event.response.content.Some? && event.turnComplete == Some(true)
    ensures TurnRuns(bag, [Push(event)] + ToolTurn(a, w, turn, tools, event, bag).ops)
  {
    var calls := FunctionCalls(event);
    var g := GatherFrom(a, w, turn, tools, bag, calls, 0, NOTHING_GATHERED);
    GatherRuns(a, w, turn, tools, bag, calls, 0, NOTHING_GATHERED);
    assert calls[..|calls|] == calls;
    ToolTurnOps(a, w, turn, tools, event, bag);
    hide ToolTurn, GatherFrom, FunctionCalls, Executions, AllApproved, SpentOnce, DistinctCallIds;
    var rest :| Quiet(rest) && ToolTurn(a, w, turn, tools, event, bag).ops == [Yield(event)] + Executions(g.ran) + rest;
    TurnTrace(event, g.ran, rest);
  }

  lemma TurnTrace(event: Event, ran: seq<Execution>, rest: seq<Op>)
    requires Quiet(rest) && event.turnComplete == Some(true)
    ensures var ops := [Push(event)] + ([Yield(event)] + Executions(ran) + rest);
            Executed(ops) == ran && CallsMade(ops) == FunctionCalls(event)
  {
    var yielded, dispatched := [Yield(event)], Executions(ran);
    ExecutionsTrace(ran);
    QuietTraces(rest);
    QuietTraces(yielded);
    hide Executed, CallsMade, Executions, FunctionCalls, Quiet;
    ConcatTraces(yielded, dispatched);
    ConcatTraces(yielded + dispatched, rest);
    Cons(Push(event), yielded + dispatched + rest);
    assert [] + ran + [] == ran;
  }

  /** A turn without calls executes nothing. */
  lemma CalllessTurnRuns(event: Event, rest: seq<Op>, bag: Bag)
    requires FunctionCalls(event) == [] && Quiet(rest)
    ensures TurnRuns(bag, [Push(event)] + rest)
  {
    QuietTraces(rest);
    assert ([Push(event)] + rest)[1..] == rest;
  }

  lemma AfterModelRuns(a: LlmConfig, w: World, turn: nat, tools: map<string, Tool>, event: Event, bag: Bag)
    requires event.turnComplete == Some(true)
    ensures TurnRuns(bag, [Push(event)] + AfterModel(a, w, turn, tools, event, bag).ops)
  {
    hide ToolTurn, TurnRuns, ResultsOf, CodeIn, OutputValue;
    if FunctionCalls(event) != [] {
      ToolTurnRuns(a, w, turn, tools, event, bag);
    } else {
      hide FunctionCalls;
      CalllessTurnRuns(event, AfterModel(a, w, turn, tools, event, bag).ops, bag);
    }
  }

  // ---- The run -----------------------------------------------------------------------------------------

  /** `spent` are the ids that the replay consumed; the turns run calls of their own. */
  ghost predicate Frugal(spent: seq<string>, once: bool, t: seq<Op>) {
    && (forall x | x in Executed(t) && x.gated ::
          x.call.id.Some? && (x.call.id.value in spent || x.call in CallsMade(t)))
    && (once && DistinctCallIds(CallsMade(t)) ==> SpentOnce(Executed(t)))
  }

  lemma FrugalGrows(bag: Bag, spent: seq<string>, once: bool, t: seq<Op>, ops: seq<Op>)
    requires Frugal(spent, once, t) && TurnRuns(bag, ops)
    requires forall id | id in spent :: !Approved(bag, id)
    ensures Frugal(spent, once, t + ops)
  {
    ConcatTraces(t, ops);
    hide Executed, CallsMade, Approved, DistinctCallIds;
    var ran, more := Executed(t), Executed(ops);
    var calls, made := CallsMade(t), CallsMade(ops);
    if once && DistinctCallIds(calls + made) {
      DistinctConcat(calls, made);
      forall x, y | x in ran && x.gated && y in more && y.gated ensures x.call.id != y.call.id {
        assert Approved(bag, y.call.id.value);
      }
      SpentOnceConcat(ran, more);
    }
  }

  /** Two bags that differ in the pause flag at most. */
  predicate SameIds(b: Bag, c: Bag) {
    b.authIds == c.authIds && b.confirmations == c.confirmations
  }

  lemma SameIdsSameApprovals(b: Bag, c: Bag)
    requires SameIds(b, c)
    ensures forall id :: Approved(b, id) == Approved(c, id)
    ensures ResumedIds(b) == ResumedIds(c) && Valid(b) == Valid(c) && AuthIdsDistinct(b) == AuthIdsDistinct(c)
  {
  }

  /** A turn adds operations that run only what it called, and leaves the decisions alone. */
  lemma TurnAdds(a: LlmConfig, w: World, mode: StreamingMode, turn: nat, tools: map<string, Tool>, s: State)
    ensures var (s1, end) := Turn(a, w, mode, turn, tools, s);
            && (exists ops :: TurnRuns(s.bag, ops) && s1.trace == s.trace + ops)
            && SameIds(s.bag, s1.bag)
  {
    hide ModelTurn, AfterModel, TurnRuns, FunctionCalls, WithIds;
    var (s1, end) := Turn(a, w, mode, turn, tools, s);
    if w.cancelled(turn) {
      QuietRuns(s.bag, PushYield(CancellationEvent(a, w, turn)));
    } else if w.maxLlmCalls.Some? && s.calls >= w.maxLlmCalls.value {
      QuietRuns(s.bag, []);
      assert s.trace + [] == s.trace;
    } else {
      var asked := ModelTurn(a, w, mode, turn, s.contents);
      AskingIsQuiet(a, w, mode, turn, s.contents);
      match asked.answer {
        case Err(_) =>
          QuietRuns(s.bag, asked.ops);
        case Ok(response) =>
          var event := ModelEventOf(a, w, turn, response);
          AfterModelRuns(a, w, turn, tools, event, s.bag);
          AskedThenRuns(s.bag, asked.ops, [Push(event)] + AfterModel(a, w, turn, tools, event, s.bag).ops);
      }
    }
  }

  lemma AskedThenRuns(bag: Bag, asked: seq<Op>, ops: seq<Op>)
    requires Quiet(asked) && TurnRuns(bag, ops)
    ensures TurnRuns(bag, asked + ops)
  {
    QuietTraces(asked);
    ConcatTraces(asked, ops);
    assert [] + Executed(ops) == Executed(ops) && [] + CallsMade(ops) == CallsMade(ops);
  }

  lemma {:induction false} TurnsRun(a: LlmConfig, w: World, mode: StreamingMode, turn: nat, tools: map<string, Tool>,
                                    s: State,
                                    start: Bag, spent: seq<string>, once: bool)
    requires turn <= a.maxIterations && AllApproved(start, Executed(s.trace)) && Frugal(spent, once, s.trace)
    requires forall id | Approved(s.bag, id) :: Approved(start, id) && id !in spent
    ensures var s1 := Turns(a, w, mode, turn, tools, s).0;
            AllApproved(start, Executed(s1.trace)) && Frugal(spent, once, s1.trace) && SameIds(s.bag, s1.bag)
    decreases a.maxIterations - turn
  {
    hide Executed, CallsMade, Turn, Frugal, TurnRuns;
    var bag := s.bag;
    if turn == a.maxIterations {
      var ops := [Yield(ExhaustedBudgetEvent(a, w))] + Finish(a, w).ops;
      QuietRuns(bag, ops);
      Grows(start, bag, spent, once, s.trace, ops);
    } else {
      var (s1, end) := Turn(a, w, mode, turn, tools, s);
      TurnAdds(a, w, mode, turn, tools, s);
      var ops :| TurnRuns(bag, ops) && s1.trace == s.trace + ops;
      Grows(start, bag, spent, once, s.trace, ops);
      if end == Continue {
        SameIdsSameApprovals(bag, s1.bag);
        TurnsRun(a, w, mode, turn + 1, tools, s1, start, spent, once);
      }
    }
  }

  lemma Grows(start: Bag, bag: Bag, spent: seq<string>, once: bool, t: seq<Op>, ops: seq<Op>)
    requires AllApproved(start, Executed(t)) && Frugal(spent, once, t) && TurnRuns(bag, ops)
    requires forall id | Approved(bag, id) :: Approved(start, id) && id !in spent
    ensures AllApproved(start, Executed(t + ops)) && Frugal(spent, once, t + ops)
  {
    FrugalGrows(bag, spent, once, t, ops);
    ConcatTraces(t, ops);
  }

  // ---- The replay --------------------------------------------------------------------------------------

  /** What a replay has run by id `k`. */
  ghost predicate ReplayedSoFar(ids: seq<string>, k: nat, acc: Replay)
    requires k <= |ids|
  {
    && (forall x | x in acc.ran :: x.call.id.Some? && x.call.id.value in ids[..k])
    && (acc.error.None? ==> forall x | x in acc.ran :: x.call.id.Some? && x.call.id.value in acc.consumed)
    && (Distinct(ids) ==> SpentOnce(acc.ran))
  }

  lemma ReplayOneRuns(r: Replayer, ids: seq<string>, k: nat, acc: Replay)
    requires k < |ids| && ReplayedSoFar(ids, k, acc) && acc.error.None?
    ensures ReplayedSoFar(ids, k + 1, ReplayOne(r, k, ids[k], acc))
  {
    var next := ReplayOne(r, k, ids[k], acc);
    assert ids[..k + 1] == ids[..k] + [ids[k]];
    if Owned(r, ids[k]).Some? {
      var (fc, tool) := Owned(r, ids[k]).value;
      FindCallHasId(r.log, r.name, ids[k]);
      GateHolds(r.w, Replayed(k), tool, fc, r.bag);
      var d := DispatchCall(r.w, Replayed(k), tool, fc, r.bag);
      hide DispatchCall, FindCall, PendingName, ResponseTo;
      assert acc.ran + [] == acc.ran;
      assert next.ran == acc.ran + (if d.ran.Some? then [d.ran.value] else []);
      if d.ran.Some? && Distinct(ids) {
        SpentOnceSnoc(acc.ran, d.ran.value);
      }
    }
  }

  lemma {:induction false} ReplayRuns(r: Replayer, ids: seq<string>, k: nat, acc: Replay)
    requires k <= |ids| && ReplayedSoFar(ids, k, acc)
    ensures ReplayedSoFar(ids, |ids|, ReplayFrom(r, ids, k, acc))
    decreases |ids| - k
  {
    if k < |ids| && acc.error.None? {
      ReplayOneRuns(r, ids, k, acc);
      hide ReplayOne, ReplayedSoFar;
      ReplayRuns(r, ids, k + 1, ReplayOne(r, k, ids[k], acc));
    } else {
      hide SpentOnce;
      forall id | id in ids[..k] ensures id in ids[..|ids|] {
      }
    }
  }

  lemma ReplayTrace(a: LlmConfig, w: World, r: Replay)
    ensures Executed(ReplayStep(a, w, r).ops) == r.ran && CallsMade(ReplayStep(a, w, r).ops) == []
  {
    ExecutionsTrace(r.ran);
    var rest := if r.error.Some? || r.responses == [] then [] else PushYield(ReplayResponseEvent(a, w, r));
    QuietTraces(rest);
    hide Executed, CallsMade, Executions;
    ConcatTraces(Executions(r.ran), rest);
    assert Executions(r.ran) + rest == ReplayStep(a, w, r).ops;
    assert r.ran + [] == r.ran;
  }

  lemma RunsNothing(bag: Bag, ops: seq<Op>)
    requires Quiet(ops)
    ensures AllApproved(bag, Executed(ops)) && SpentOnce(Executed(ops))
  {
    QuietTraces(ops);
  }

  lemma ReplaySpends(a: LlmConfig, w: World, log: seq<Event>, tools: map<string, Tool>, bag: Bag)
    requires Valid(bag)
    ensures var r := ReplayOf(a, w, log, tools, bag); var ops := ReplayStep(a, w, r).ops;
            && AllApproved(bag, Executed(ops)) && CallsMade(ops) == []
            && (AuthIdsDistinct(bag) ==> SpentOnce(Executed(ops)))
            && (r.error.None? ==> Frugal(r.consumed, AuthIdsDistinct(bag), ops))
            && (forall id | Approved(Consume(bag, r.consumed), id) :: Approved(bag, id) && id !in r.consumed)
  {
    var r := ReplayOf(a, w, log, tools, bag);
    var replayer := Replayer(w.tools, a.name, tools, log, bag);
    var ids := ResumedIds(bag);
    ResumedMembers(bag);
    hide ResumedIds, Consume, Approved, DispatchCall, ReplayFrom, Executed, CallsMade, Executions;
    ReplayRunsApproved(replayer, ids, 0, NOTHING_REPLAYED);
    ReplayRuns(replayer, ids, 0, NOTHING_REPLAYED);
    ReplayTrace(a, w, r);
    ConsumeConserves(bag, r.consumed);
  }

  lemma RunFromReplaySpends(a: LlmConfig, w: World, mode: StreamingMode, log: seq<Event>, bag: Bag, request: Request,
                            s: State)
    requires Valid(bag) && s.bag == bag && s.trace == []
    ensures var r := ReplayOf(a, w, log, request.tools, bag); var step := ReplayStep(a, w, r);
            var s1 := Advance(s.(bag := BagAfterReplay(bag, r)), step);
            var u := if step.end == Continue then Turns(a, w, mode, 0, request.tools, s1).0 else s1;
            && AllApproved(bag, Executed(u.trace))
            && (AuthIdsDistinct(bag) && DistinctCallIds(CallsMade(u.trace)) ==> SpentOnce(Executed(u.trace)))
            && (if r.error.Some? then step.end.Errored? && SameIds(bag, u.bag)
                else SameIds(Consume(bag, r.consumed), u.bag) && Frugal(r.consumed, AuthIdsDistinct(bag), u.trace))
  {
    hide AuthIdsDistinct, Executed, CallsMade, ReplayOf, Turns, Consume, DistinctCallIds, SpentOnce, AllApproved, Valid;
    hide Executions, PushYield, ReplayResponseEvent, Approved;
    ReplaySpends(a, w, log, request.tools, bag);
    var r := ReplayOf(a, w, log, request.tools, bag);
    var step := ReplayStep(a, w, r);
    assert [] + step.ops == step.ops;
    if step.end == Continue {
      var s1 := Advance(s.(bag := Consume(bag, r.consumed)), step);
      SameIdsSameApprovals(Consume(bag, r.consumed), s1.bag);
      TurnsRun(a, w, mode, 0, request.tools, s1, bag, r.consumed, AuthIdsDistinct(bag));
    }
  }

  // ---- The laws ----------------------------------------------------------------------------------------

  /**
   * Every gated tool that a run executes was approved in the bag the run started with.  If no auth id is listed twice
   * and the model does not use a call id twice, no approval is spent twice: the gated executions of the replay and of
   * all turns have distinct call ids.
   */
  lemma ApprovalsAreSpentOnce(a: LlmConfig, w: World, mode: StreamingMode, log: seq<Event>, bag: Bag, calls: nat)
    requires Valid(bag)
    ensures var t := Run(a, w, mode, log, bag, calls).0.trace;
            && AllApproved(bag, Executed(t))
            && (AuthIdsDistinct(bag) && DistinctCallIds(CallsMade(t)) ==> SpentOnce(Executed(t)))
  {
    hide Turns, ReplayStep, ReplayOf, InitialContents, Executed, CallsMade;
    RunsNothing(bag, []);
    if w.beforeAgent == Ok(None) && w.request.Ok? {
      RunFromReplaySpends(a, w, mode, log, bag, w.request.value,
                          State(InitialContents(a, w, log, w.request.value.deferred), bag, calls, []));
    } else if w.beforeAgent.Ok? && w.beforeAgent.value.Some? {
      var ops := PushYield(AgentEvent(a, w, BeforeAgentEvent, WithContent(w.beforeAgent.value.value)));
      RunsNothing(bag, ops);
      assert [] + ops == ops;
    }
  }

  /**
   * A run only takes away from the bag.  Unless it fails, a gated call that it executed either is one the model made
   * in this run, or is unblocked no longer.
   */
  ghost predicate Accounts(bag: Bag, after: Bag, failed: bool, t: seq<Op>) {
    && Valid(after) && (AuthIdsDistinct(bag) ==> AuthIdsDistinct(after))
    && (forall id | Approved(after, id) :: Approved(bag, id))
    && (forall id | id in ResumedIds(after) :: id in ResumedIds(bag))
    && (!failed ==> forall x | x in Executed(t) && x.gated ::
          x.call.id.Some? && (x.call.id.value !in ResumedIds(after) || x.call in CallsMade(t)))
  }

  lemma RunAccounts(a: LlmConfig, w: World, mode: StreamingMode, log: seq<Event>, bag: Bag, calls: nat)
    requires Valid(bag)
    ensures var (s, end) := Run(a, w, mode, log, bag, calls); Accounts(bag, s.bag, end.Errored?, s.trace)
  {
    hide Turns, ReplayStep, ReplayOf, InitialContents, Executed, CallsMade, ResumedIds, Approved, Consume, Valid;
    hide AuthIdsDistinct;
    QuietTraces([]);
    if w.beforeAgent == Ok(None) && w.request.Ok? {
      var r := ReplayOf(a, w, log, w.request.value.tools, bag);
      var s := Run(a, w, mode, log, bag, calls).0;
      RunFromReplaySpends(a, w, mode, log, bag, w.request.value,
                          State(InitialContents(a, w, log, w.request.value.deferred), bag, calls, []));
      if r.error.Some? {
        SameIdsSameApprovals(bag, s.bag);
      } else {
        SameIdsSameApprovals(Consume(bag, r.consumed), s.bag);
        ConsumeConserves(bag, r.consumed);
        if AuthIdsDistinct(bag) {
          ConsumeKeepsDistinct(bag, r.consumed);
        }
      }
    } else if w.beforeAgent.Ok? && w.beforeAgent.value.Some? {
      var ops := PushYield(AgentEvent(a, w, BeforeAgentEvent, WithContent(w.beforeAgent.value.value)));
      QuietTraces(ops);
      assert [] + ops == ops;
    }
  }
}
