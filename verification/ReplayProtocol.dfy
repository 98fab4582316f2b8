/**
 * Replay under sharing (src/agents/llm_agent.rs:949-1063): agents of one invocation share the attribute bag, take
 * their unblocked ids from it at the start of a replay and consume them at its end, and may interleave in between, with
 * each other and with the calls that their models make.
 *
 * What a replay can dispatch is looked up in the log and the tools as they are at its start (`Dispatch.Owned`); what it
 * may run is decided by the bag as it is at that moment.
 */
module ReplayProtocol {
  import opened Wrappers
  import opened Genai
  import opened Attributes
  import opened Dispatch

  /** A replay in progress: who replays, with the bag it found, how far it has come, and what it has done. */
  datatype Run = Run(who: Replayer, k: nat, acc: Replay)

  function Ids(run: Run): seq<string> { ResumedIds(run.who.bag) }

  /**
   * `dispatched` lists every replayed id so far, `settled` those whose replay has consumed them and `lost` those whose
   * replay failed.  `ran` are all executions of tools.
   */
  datatype State = State(bag: Bag, active: map<nat, Run>, dispatched: seq<string>, settled: set<string>,
                         lost: set<string>, ran: seq<Execution>)

  datatype Step =
    | Start(run: nat, who: Replayer)
    | Visit(run: nat)
    | Finish(run: nat)
    | Abort(run: nat)                                                    // a dispatch has failed
    | CallTool(w: ToolWorld, slot: Slot, tool: Tool, fc: FunctionCall)   // some model calls a tool

  predicate Enabled(s: State, step: Step) {
    match step
    case Start(r, _) => r !in s.active
    case Visit(r) => r in s.active && s.active[r].k < |Ids(s.active[r])| && s.active[r].acc.error.None?
    case Finish(r) => r in s.active && s.active[r].k == |Ids(s.active[r])| && s.active[r].acc.error.None?
    case Abort(r) => r in s.active && s.active[r].acc.error.Some?
    case CallTool(_, _, _, _) => true
  }

  predicate Owns(who: Replayer, id: string) { Owned(who, id).Some? }

  /** The run after its next id, with the decisions of the bag as it is now. */
  function Visited(run: Run, bag: Bag): Run
    requires run.k < |Ids(run)|
  {
    run.(k := run.k + 1, acc := ReplayOne(run.who.(bag := bag), run.k, Ids(run)[run.k], run.acc))
  }

  /** The ids of its own that a run has come to. */
  function Touched(run: Run): set<string> {
    set j | 0 <= j < run.k && j < |Ids(run)| && Owns(run.who, Ids(run)[j]) :: Ids(run)[j]
  }

  function NewExecutions(before: Replay, after: Replay): seq<Execution> {
    if |before.ran| <= |after.ran| then after.ran[|before.ran|..] else []
  }

  function Apply(s: State, step: Step): State
    requires Enabled(s, step)
  {
    match step
    case Start(r, who) => s.(active := s.active[r := Run(who.(bag := s.bag), 0, NOTHING_REPLAYED)])
    case Visit(r) =>
      var run := s.active[r];
      var id, next := Ids(run)[run.k], Visited(run, s.bag);
      s.(active := s.active[r := next],
         dispatched := s.dispatched + (if Owns(run.who, id) then [id] else []),
         ran := s.ran + NewExecutions(run.acc, next.acc))
    case Finish(r) =>
      var consumed := s.active[r].acc.consumed;
      s.(bag := Consume(s.bag, consumed), active := s.active - {r}, settled := s.settled + (set id | id in consumed))
    case Abort(r) => s.(active := s.active - {r}, lost := s.lost + Touched(s.active[r]))
    case CallTool(w, slot, tool, fc) =>
      var d := DispatchCall(w, slot, tool, fc, s.bag);
      s.(ran := s.ran + (if d.ran.Some? then [d.ran.value] else []))
  }

  ghost predicate Leads(s: State, steps: seq<Step>, t: State)
    decreases steps
  {
    if steps == [] then s == t else Enabled(s, steps[0]) && Leads(Apply(s, steps[0]), steps[1..], t)
  }

  function Init(bag: Bag): State {
    State(bag, map[], [], {}, {}, [])
  }

  /**
   * A replay that starts while none of the ids it would dispatch has been dispatched before, or may yet be by another
   * replay in progress.
   */
  ghost predicate Careful(s: State, step: Step) {
    step.Start? ==>
      forall id | id in ResumedIds(s.bag) && Owns(step.who, id) ::
        id !in s.dispatched && forall q | q in s.active :: !Owns(s.active[q].who, id)
  }

  ghost predicate AllCareful(s: State, steps: seq<Step>)
    decreases steps
  {
    steps != [] && Enabled(s, steps[0]) ==>
      Careful(s, steps[0]) && AllCareful(Apply(s, steps[0]), steps[1..])
  }

  // ---- One visit ---------------------------------------------------------------------------------------

  /** A visit dispatches the id if it is the run's own; what it runs is that call, approved if it is gated. */
  lemma VisitIs(run: Run, bag: Bag)
    requires run.k < |Ids(run)| && run.acc.error.None?
    ensures var id, acc := Ids(run)[run.k], Visited(run, bag).acc;
            && Ids(Visited(run, bag)) == Ids(run)
            && (!Owns(run.who, id) ==> acc == run.acc)
            && (Owns(run.who, id) ==>
                  acc.consumed == if acc.error.None? then run.acc.consumed + [id] else run.acc.consumed)
            && (acc.ran == run.acc.ran ||
                (|acc.ran| == |run.acc.ran| + 1 && acc.ran[..|run.acc.ran|] == run.acc.ran
                 && var x := acc.ran[|run.acc.ran|];
                    x.call.id == Some(id) && Owns(run.who, id) && (x.gated ==> Approved(bag, id))))
  {
    var id := Ids(run)[run.k];
    if Owns(run.who, id) {
      var (fc, tool) := Owned(run.who, id).value;
      FindCallHasId(run.who.log, run.who.name, id);
      GateHolds(run.who.w, Replayed(run.k), tool, fc, bag);
      hide DispatchCall, FindCall, Approved, ResponseTo, PendingName, ResumedIds;
      assert run.acc.ran + [] == run.acc.ran;
    }
  }

  // ---- The invariant -----------------------------------------------------------------------------------

  ghost predicate RunOk(s: State, run: Run) {
    var ids := Ids(run);
    && run.k <= |ids| && Distinct(ids)
    && (run.acc.error.None? ==> forall j | 0 <= j < run.k :: Owns(run.who, ids[j]) ==> ids[j] in run.acc.consumed)
    && (forall j | run.k <= j < |ids| :: Owns(run.who, ids[j]) ==>
          ids[j] !in s.dispatched && ids[j] in ResumedIds(s.bag))
    && (forall id | id in run.acc.consumed ::
          id in ids && Owns(run.who, id) && id in s.dispatched && id in ResumedIds(s.bag))
  }

  /** No id can be dispatched by both of two replays in progress. */
  ghost predicate Apart(run: Run, other: Run) {
    forall id | id in Ids(run) && id in Ids(other) :: !(Owns(run.who, id) && Owns(other.who, id))
  }

  ghost predicate AllApart(s: State) {
    forall q, r | q in s.active && r in s.active && q != r :: Apart(s.active[q], s.active[r])
  }

  /** Every id dispatched has been consumed, lost, or belongs to a replay in progress. */
  ghost predicate Covered(s: State, id: string) {
    id in s.settled || id in s.lost || exists r :: r in s.active && id in Touched(s.active[r])
  }

  ghost predicate BagOk(initial: Bag, s: State) {
    && Valid(s.bag) && AuthIdsDistinct(s.bag)
    && (forall id :: id in ResumedIds(initial) <==> id in ResumedIds(s.bag) || id in s.settled)
    && (forall id | id in s.settled :: id !in ResumedIds(s.bag) && id in s.dispatched)
    && (forall id | Approved(s.bag, id) :: Approved(initial, id))
  }

  ghost predicate AllRunsOk(s: State) {
    forall r | r in s.active :: RunOk(s, s.active[r])
  }

  ghost predicate AllCovered(s: State) {
    forall id | id in s.dispatched :: Covered(s, id)
  }

  ghost predicate Inv(initial: Bag, s: State) {
    && BagOk(initial, s) && Distinct(s.dispatched)
    && AllApart(s) && AllRunsOk(s) && AllCovered(s)
    && forall id | id in s.dispatched :: id in ResumedIds(initial)
  }

  lemma StartKeeps(initial: Bag, s: State, r: nat, who: Replayer)
    requires Inv(initial, s) && Enabled(s, Start(r, who)) && Careful(s, Start(r, who))
    ensures Inv(initial, Apply(s, Start(r, who)))
  {
    hide *;
    StartedRuns(initial, s, r, who);
    StartedApart(initial, s, r, who);
    StartedRest(initial, s, r, who);
  }

  lemma StartedRuns(initial: Bag, s: State, r: nat, who: Replayer)
    requires Inv(initial, s) && Enabled(s, Start(r, who)) && Careful(s, Start(r, who))
    ensures AllRunsOk(Apply(s, Start(r, who)))
  {
    var t := Apply(s, Start(r, who));
    ResumedMembers(s.bag);
    hide ResumedIds, Owned, AllApart, Covered, Approved, Valid;
    assert RunOk(t, t.active[r]);
    forall q | q in t.active ensures RunOk(t, t.active[q]) {
      assert q != r ==> RunOk(s, s.active[q]);
    }
  }

  lemma StartedApart(initial: Bag, s: State, r: nat, who: Replayer)
    requires Inv(initial, s) && Enabled(s, Start(r, who)) && Careful(s, Start(r, who))
    ensures AllApart(Apply(s, Start(r, who)))
  {
    var t := Apply(s, Start(r, who));
    hide ResumedIds, Owned, RunOk, Covered, BagOk;
    forall p, q | p in t.active && q in t.active && p != q ensures Apart(t.active[p], t.active[q]) {
      if p != r && q != r {
        assert Apart(s.active[p], s.active[q]);
      }
    }
  }

  lemma StartedRest(initial: Bag, s: State, r: nat, who: Replayer)
    requires Inv(initial, s) && Enabled(s, Start(r, who))
    ensures var t := Apply(s, Start(r, who)); BagOk(initial, t) && AllCovered(t)
    ensures var t := Apply(s, Start(r, who));
            Distinct(t.dispatched) && forall id | id in t.dispatched :: id in ResumedIds(initial)
    ensures var t := Apply(s, Start(r, who)); AllRunsOk(t) && AllApart(t) ==> Inv(initial, t)
  {
    var t := Apply(s, Start(r, who));
    hide ResumedIds, Owned, RunOk, AllApart, Touched, Approved, Valid, AuthIdsDistinct;
    forall id | id in t.dispatched ensures Covered(t, id) {
      CoveredStays(s, t, id);
    }
  }

  lemma CoveredStays(s: State, t: State, id: string)
    requires Covered(s, id) && s.settled <= t.settled && s.lost <= t.lost
    requires forall q | q in s.active ::
               if q in t.active then Touched(s.active[q]) <= Touched(t.active[q])
               else forall x | x in Touched(s.active[q]) :: x in t.settled || x in t.lost
    ensures Covered(t, id)
  {
    hide Touched;
    if id !in s.settled && id !in s.lost {
      var q :| q in s.active && id in Touched(s.active[q]);
    }
  }

  lemma VisitKeeps(initial: Bag, s: State, r: nat)
    requires Inv(initial, s) && Enabled(s, Visit(r))
    ensures Inv(initial, Apply(s, Visit(r)))
  {
    hide RunOk, Apart, Covered, Visited, ReplayOne, Owned, ResumedIds, Distinct, BagOk, Approved;
    VisitedRuns(s, r);
    VisitedApart(s, r);
    VisitedCovered(s, r);
    VisitedDispatch(initial, s, r);
  }

  lemma VisitedRuns(s: State, r: nat)
    requires AllRunsOk(s) && AllApart(s) && Enabled(s, Visit(r))
    ensures AllRunsOk(Apply(s, Visit(r)))
  {
    var t, run := Apply(s, Visit(r)), s.active[r];
    VisitIs(run, s.bag);
    assert RunOk(s, run);
    VisitedRunOk(s, r);
    hide ResumedIds, Owned, ReplayOne, Approved, AllApart;
    forall q | q in t.active ensures RunOk(t, t.active[q]) {
      if q != r {
        assert RunOk(s, s.active[q]);
        assert Apart(run, s.active[q]) by { ApartAt(s, r, q); }
      }
    }
  }

  lemma ApartAt(s: State, q: nat, r: nat)
    requires AllApart(s) && q in s.active && r in s.active && q != r
    ensures Apart(s.active[q], s.active[r])
  {
  }

  lemma VisitedApart(s: State, r: nat)
    requires AllApart(s) && Enabled(s, Visit(r))
    ensures AllApart(Apply(s, Visit(r)))
  {
    var t := Apply(s, Visit(r));
    VisitIs(s.active[r], s.bag);
    hide ResumedIds, Owned, ReplayOne, Approved;
    forall p, q | p in t.active && q in t.active && p != q ensures Apart(t.active[p], t.active[q]) {
      assert Apart(s.active[p], s.active[q]);
    }
  }

  lemma VisitedCovered(s: State, r: nat)
    requires AllCovered(s) && Enabled(s, Visit(r))
    ensures AllCovered(Apply(s, Visit(r)))
  {
    var t, run := Apply(s, Visit(r)), s.active[r];
    TouchedNext(run, s.bag);
    hide ResumedIds, Owned, ReplayOne, Touched, Visited;
    assert Owns(run.who, Ids(run)[run.k]) ==> Ids(run)[run.k] in Touched(t.active[r]);
    forall x | x in t.dispatched ensures Covered(t, x) {
      if x in s.dispatched {
        CoveredStays(s, t, x);
      }
    }
  }

  lemma VisitedDispatch(initial: Bag, s: State, r: nat)
    requires Inv(initial, s) && Enabled(s, Visit(r))
    ensures var t := Apply(s, Visit(r));
            && BagOk(initial, t) && Distinct(t.dispatched)
            && forall id | id in t.dispatched :: id in ResumedIds(initial)
  {
    assert RunOk(s, s.active[r]);
    hide ResumedIds, Owned, Visited, AllApart, AllCovered, Approved, Valid, AuthIdsDistinct;
  }

  lemma TouchedNext(run: Run, bag: Bag)
    requires run.k < |Ids(run)| && run.acc.error.None?
    ensures Touched(run) <= Touched(Visited(run, bag))
    ensures Owns(run.who, Ids(run)[run.k]) ==> Ids(run)[run.k] in Touched(Visited(run, bag))
  {
    hide ResumedIds, Owned, ReplayOne;
    var next := Visited(run, bag);
    assert Ids(next) == Ids(run);
    forall id | id in Touched(run) ensures id in Touched(next) {
      var j :| 0 <= j < run.k && j < |Ids(run)| && Owns(run.who, Ids(run)[j]) && Ids(run)[j] == id;
      assert Ids(next)[j] == id;
    }
    assert Ids(next)[run.k] == Ids(run)[run.k];
  }

  lemma VisitedRunOk(s: State, r: nat)
    requires Enabled(s, Visit(r)) && RunOk(s, s.active[r])
    ensures var t := Apply(s, Visit(r)); RunOk(t, t.active[r])
  {
    VisitIs(s.active[r], s.bag);
    hide ResumedIds, Owned, ReplayOne, Approved;
  }

  /** The runs that remain when one leaves are as far apart as before. */
  lemma LeftApart(s: State, t: State, r: nat)
    requires AllApart(s) && t.active == s.active - {r}
    ensures AllApart(t)
  {
    hide Apart;
    assert forall p, q | p in t.active && q in t.active && p != q :: Apart(s.active[p], s.active[q]);
  }

  lemma FinishKeeps(initial: Bag, s: State, r: nat)
    requires Inv(initial, s) && Enabled(s, Finish(r))
    ensures Inv(initial, Apply(s, Finish(r)))
  {
    hide RunOk, Apart, Covered, Owned, ResumedIds, Distinct, BagOk, Approved, Consume, AllApart;
    FinishedRuns(initial, s, r);
    LeftApart(s, Apply(s, Finish(r)), r);
    FinishedCovered(s, r);
    FinishedBag(initial, s, r);
  }

  lemma FinishedRuns(initial: Bag, s: State, r: nat)
    requires Inv(initial, s) && Enabled(s, Finish(r))
    ensures AllRunsOk(Apply(s, Finish(r)))
  {
    var t, run := Apply(s, Finish(r)), s.active[r];
    ConsumeConserves(s.bag, run.acc.consumed);
    assert RunOk(s, run);
    hide Consume, ResumedIds, Owned, Valid, AuthIdsDistinct, Approved, AllCovered, AllApart;
    forall q | q in t.active ensures RunOk(t, t.active[q]) {
      assert RunOk(s, s.active[q]);
      assert Apart(run, s.active[q]) by { ApartAt(s, r, q); }
    }
  }

  lemma FinishedCovered(s: State, r: nat)
    requires AllRunsOk(s) && AllCovered(s) && Enabled(s, Finish(r))
    ensures AllCovered(Apply(s, Finish(r)))
  {
    var t := Apply(s, Finish(r));
    assert RunOk(s, s.active[r]);
    hide Consume, ResumedIds, Owned;
    forall id | id in t.dispatched ensures Covered(t, id) {
      CoveredStays(s, t, id);
    }
  }

  lemma FinishedBag(initial: Bag, s: State, r: nat)
    requires Inv(initial, s) && Enabled(s, Finish(r))
    ensures BagOk(initial, Apply(s, Finish(r)))
  {
    var run := s.active[r];
    ConsumeConserves(s.bag, run.acc.consumed);
    ConsumeKeepsDistinct(s.bag, run.acc.consumed);
    assert RunOk(s, run);
    hide Consume, ResumedIds, Owned, Valid, AuthIdsDistinct, Approved, AllApart, AllCovered, Distinct;
  }

  lemma AbortKeeps(initial: Bag, s: State, r: nat)
    requires Inv(initial, s) && Enabled(s, Abort(r))
    ensures Inv(initial, Apply(s, Abort(r)))
  {
    var t := Apply(s, Abort(r));
    hide ResumedIds, Owned, Valid, AuthIdsDistinct, Approved, Touched, AllApart, Distinct;
    LeftApart(s, t, r);
    forall q | q in t.active ensures RunOk(t, t.active[q]) {
      assert RunOk(s, s.active[q]);
    }
    forall id | id in t.dispatched ensures Covered(t, id) {
      CoveredStays(s, t, id);
    }
  }

  lemma CallKeeps(initial: Bag, s: State, step: Step)
    requires Inv(initial, s) && step.CallTool?
    ensures Inv(initial, Apply(s, step))
  {
    var t := Apply(s, step);
    hide ResumedIds, Owned, Valid, AuthIdsDistinct, Approved, Touched, DispatchCall;
    forall q | q in t.active ensures RunOk(t, t.active[q]) {
      assert RunOk(s, s.active[q]);
    }
    forall id | id in t.dispatched ensures Covered(t, id) {
      CoveredStays(s, t, id);
    }
  }

  lemma StepKeeps(initial: Bag, s: State, step: Step)
    requires Inv(initial, s) && Enabled(s, step) && Careful(s, step)
    ensures Inv(initial, Apply(s, step))
  {
    hide Inv, Apply, Careful;
    match step
    case Start(r, who) => StartKeeps(initial, s, r, who);
    case Visit(r) => VisitKeeps(initial, s, r);
    case Finish(r) => FinishKeeps(initial, s, r);
    case Abort(r) => AbortKeeps(initial, s, r);
    case CallTool(_, _, _, _) => CallKeeps(initial, s, step);
  }

  /** Under every interleaving in which all replays start carefully, the invariant holds. */
  lemma {:induction false} EveryInterleavingKeeps(initial: Bag, s: State, steps: seq<Step>, t: State)
    requires Inv(initial, s) && Leads(s, steps, t) && AllCareful(s, steps)
    ensures Inv(initial, t)
    decreases steps
  {
    hide Inv, Apply, Careful, Enabled;
    if steps != [] {
      StepKeeps(initial, s, steps[0]);
      EveryInterleavingKeeps(initial, Apply(s, steps[0]), steps[1..], t);
    }
  }

  lemma InitInv(bag: Bag)
    requires Valid(bag) && AuthIdsDistinct(bag)
    ensures Inv(bag, Init(bag))
  {
    hide ResumedIds;
  }

  // ---- Exactly once ------------------------------------------------------------------------------------

  /**
   * Whatever agents replay, how often and how they interleave, if all start carefully: no id is dispatched twice, and
   * what is dispatched was unblocked at the start.  Once no replay is in progress, the unblocked ids are exactly those
   * consumed and those still in the bag, and each id dispatched was consumed or its replay failed.
   */
  lemma AtMostOnce(bag: Bag, steps: seq<Step>, t: State)
    requires Valid(bag) && AuthIdsDistinct(bag) && Leads(Init(bag), steps, t) && AllCareful(Init(bag), steps)
    ensures Distinct(t.dispatched)
    ensures forall id | id in t.dispatched :: id in ResumedIds(bag)
    ensures forall id :: id in ResumedIds(bag) <==> id in ResumedIds(t.bag) || id in t.settled
    ensures forall id | id in t.settled :: id !in ResumedIds(t.bag) && id in t.dispatched
    ensures t.active == map[] ==> forall id | id in t.dispatched :: id in t.settled || id in t.lost
  {
    InitInv(bag);
    EveryInterleavingKeeps(bag, Init(bag), steps, t);
    hide AllRunsOk, ResumedIds, Valid, AuthIdsDistinct, AllApart, Leads, AllCareful, Touched;
    if t.active == map[] {
      forall id | id in t.dispatched ensures id in t.settled || id in t.lost {
        assert Covered(t, id);
      }
    }
  }

  /** When a replay ends, every unblocked id of its own that it found at its start has been dispatched and consumed. */
  lemma AuthorDispatchesAll(initial: Bag, s: State, r: nat)
    requires Inv(initial, s) && Enabled(s, Finish(r))
    ensures var run := s.active[r];
            forall id | id in Ids(run) && Owns(run.who, id) ::
              id in s.dispatched && id in Apply(s, Finish(r)).settled
  {
    var run := s.active[r];
    assert RunOk(s, run);
    hide ResumedIds, Owned;
    forall id | id in Ids(run) && Owns(run.who, id) ensures id in run.acc.consumed {
      var j :| 0 <= j < |Ids(run)| && Ids(run)[j] == id;
    }
  }

  /**
   * Replays start carefully when no two agents of one name replay at once, each call id was authored by one agent, and
   * no earlier replay has failed.
   */
  lemma DistinctNamesAreCareful(initial: Bag, s: State, r: nat, who: Replayer)
    requires Inv(initial, s) && s.lost == {}
    requires forall q | q in s.active :: s.active[q].who.name != who.name
    requires forall q, id | q in s.active && Owns(s.active[q].who, id) && Owns(who, id) ::
               s.active[q].who.name == who.name
    ensures Careful(s, Start(r, who))
  {
    hide ResumedIds, Owned, RunOk;
    forall id | id in ResumedIds(s.bag) && Owns(who, id) ensures id !in s.dispatched {
      assert id in s.dispatched ==> Covered(s, id);
    }
  }

  // ---- At most once, exactly ---------------------------------------------------------------------------

  /** What holds under every schedule, careful or not. */
  ghost predicate Loose(s: State) {
    && Valid(s.bag)
    && forall r | r in s.active :: LooseRun(s, s.active[r])
  }

  ghost predicate LooseRun(s: State, run: Run) {
    && run.k <= |Ids(run)|
    && (forall j | 0 <= j < run.k && Owns(run.who, Ids(run)[j]) :: Ids(run)[j] in s.dispatched)
    && (forall id | id in ResumedIds(s.bag) :: id in Ids(run))
  }

  lemma LooseKeeps(s: State, step: Step)
    requires Loose(s) && Enabled(s, step)
    ensures Loose(Apply(s, step))
  {
    var t := Apply(s, step);
    if step.Finish? {
      ConsumeConserves(s.bag, s.active[step.run].acc.consumed);
    }
    hide ResumedIds, Owned, ReplayOne, Consume, Valid, DispatchCall, Touched;
    forall q | q in t.active ensures LooseRun(t, t.active[q]) {
      assert q in s.active ==> LooseRun(s, s.active[q]);
    }
  }

  /** The run may still dispatch the id. */
  predicate Pending(s: State, r: nat, id: string) {
    r in s.active && PendingIn(s.active[r], id)
  }

  predicate PendingIn(run: Run, id: string) {
    Owns(run.who, id) && exists j :: run.k <= j < |Ids(run)| && Ids(run)[j] == id
  }

  /** Dispatches of the id, done and to come from two runs. */
  function Weight(s: State, q: nat, r: nat, id: string): nat {
    Count(s.dispatched, id) + (if Pending(s, q, id) then 1 else 0) + (if Pending(s, r, id) then 1 else 0)
  }

  lemma {:induction false} CountSnoc(ids: seq<string>, x: string, id: string)
    ensures Count(ids + [x], id) == Count(ids, id) + if x == id then 1 else 0
    decreases ids
  {
    if ids == [] {
      assert ids + [x] == [x] && [x][1..] == [];
    } else {
      assert (ids + [x])[0] == ids[0] && (ids + [x])[1..] == ids[1..] + [x];
      CountSnoc(ids[1..], x, id);
    }
  }

  lemma {:induction false} CountMembers(ids: seq<string>, id: string)
    ensures id in ids <==> Count(ids, id) > 0
    ensures Distinct(ids) ==> Count(ids, id) <= 1
    decreases ids
  {
    if ids != [] {
      CountMembers(ids[1..], id);
      assert ids == [ids[0]] + ids[1..];
      if Distinct(ids) {
        assert Distinct(ids[1..]);
      }
    }
  }

  /** A run that moves past an id of its own has dispatched it. */
  lemma WeightKeeps(s: State, step: Step, q: nat, r: nat, id: string)
    requires Enabled(s, step) && !step.Abort? && q != r
    ensures Weight(Apply(s, step), q, r, id) >= Weight(s, q, r, id)
  {
    var t := Apply(s, step);
    if step.Visit? {
      var run := s.active[step.run];
      var x := Ids(run)[run.k];
      hide ResumedIds, Owned, ReplayOne, Count;
      if Owns(run.who, x) {
        CountSnoc(s.dispatched, x, id);
      } else {
        assert s.dispatched + [] == s.dispatched;
      }
      assert x != id && PendingIn(run, id) ==> PendingIn(t.active[step.run], id) by {
        StillPending(run, s.bag, id);
      }
    } else {
      hide ResumedIds, Owned, ReplayOne, Count, DispatchCall, Consume;
    }
  }

  lemma StillPending(run: Run, bag: Bag, id: string)
    requires run.k < |Ids(run)|
    ensures Ids(run)[run.k] != id && PendingIn(run, id) ==> PendingIn(Visited(run, bag), id)
  {
    hide ResumedIds, Owned, ReplayOne;
    assert Ids(Visited(run, bag)) == Ids(run);
  }

  lemma {:induction false} WeightLasts(s: State, steps: seq<Step>, t: State, q: nat, r: nat, id: string)
    requires Leads(s, steps, t) && q != r && forall i | 0 <= i < |steps| :: !steps[i].Abort?
    ensures Weight(t, q, r, id) >= Weight(s, q, r, id)
    decreases steps
  {
    hide Weight, Apply, Enabled;
    if steps != [] {
      WeightKeeps(s, steps[0], q, r, id);
      WeightLasts(Apply(s, steps[0]), steps[1..], t, q, r, id);
    }
  }

  /** After a careless start two dispatches of one id are done or under way. */
  lemma CarelessWeighsTwo(s: State, step: Step) returns (q: nat, id: string)
    requires Loose(s) && Enabled(s, step) && !Careful(s, step)
    ensures step.Start?
    ensures q != step.run && Weight(Apply(s, step), q, step.run, id) >= 2
  {
    var t, r, who := Apply(s, step), step.run, step.who;
    id :| id in ResumedIds(s.bag) && Owns(who, id) &&
          (id in s.dispatched || exists p :: p in s.active && Owns(s.active[p].who, id));
    hide ResumedIds, Owned, Count, Valid, Consume, Touched, Visited, DispatchCall;
    CountMembers(s.dispatched, id);
    PendingFromStart(t, r, id);
    if id in s.dispatched {
      q := r + 1;
    } else {
      q :| q in s.active && Owns(s.active[q].who, id);
      assert LooseRun(s, s.active[q]);
      PendingOrDone(s, q, id);
      assert t.active[q] == s.active[q] && Pending(t, q, id) == Pending(s, q, id);
    }
  }

  lemma PendingFromStart(t: State, r: nat, id: string)
    requires r in t.active && t.active[r].k == 0 && Owns(t.active[r].who, id) && id in Ids(t.active[r])
    ensures Pending(t, r, id)
  {
    hide ResumedIds, Owned;
    var j :| 0 <= j < |Ids(t.active[r])| && Ids(t.active[r])[j] == id;
  }

  lemma PendingOrDone(s: State, q: nat, id: string)
    requires q in s.active && LooseRun(s, s.active[q]) && Owns(s.active[q].who, id) && id in Ids(s.active[q])
    ensures Pending(s, q, id) || id in s.dispatched
  {
    hide ResumedIds, Owned;
    var j :| 0 <= j < |Ids(s.active[q])| && Ids(s.active[q])[j] == id;
  }

  lemma {:induction false} CarelessRepeats(s: State, steps: seq<Step>, t: State)
    requires Loose(s) && Leads(s, steps, t) && !AllCareful(s, steps) && t.active == map[]
    requires forall i | 0 <= i < |steps| :: !steps[i].Abort?
    ensures !Distinct(t.dispatched)
    decreases steps
  {
    hide Loose, Apply, Enabled, Careful, Distinct;
    var s1 := Apply(s, steps[0]);
    if Careful(s, steps[0]) {
      LooseKeeps(s, steps[0]);
      CarelessRepeats(s1, steps[1..], t);
    } else {
      var q, id := CarelessWeighsTwo(s, steps[0]);
      WeightLasts(s1, steps[1..], t, q, steps[0].run, id);
      CountMembers(t.dispatched, id);
    }
  }

  /**
   * In every interleaving that comes to its end without a failed dispatch, no id is dispatched twice if and only if all
   * replays start carefully: none starts that owns an unblocked id which has been dispatched, or which a replay in
   * progress owns as well.
   */
  lemma AtMostOnceIffCareful(bag: Bag, steps: seq<Step>, t: State)
    requires Valid(bag) && AuthIdsDistinct(bag) && Leads(Init(bag), steps, t) && t.active == map[]
    requires forall i | 0 <= i < |steps| :: !steps[i].Abort?
    ensures Distinct(t.dispatched) <==> AllCareful(Init(bag), steps)
  {
    if AllCareful(Init(bag), steps) {
      AtMostOnce(bag, steps, t);
    } else {
      CarelessRepeats(Init(bag), steps, t);
    }
  }

  // ---- Overlapping replays of one agent ----------------------------------------------------------------

  /** Replay `r` comes to the first id of its own, from position `k` on, and dispatches it. */
  lemma {:induction false} VisitUntilOwned(s: State, r: nat, k: nat) returns (steps: seq<Step>, t: State)
    requires r in s.active && s.active[r].acc.error.None? && s.active[r].k <= k < |Ids(s.active[r])|
    requires Owns(s.active[r].who, Ids(s.active[r])[k])
    requires forall j | s.active[r].k <= j < k :: !Owns(s.active[r].who, Ids(s.active[r])[j])
    ensures Leads(s, steps, t) && t.dispatched == s.dispatched + [Ids(s.active[r])[k]]
    ensures forall q | q in s.active && q != r :: q in t.active && t.active[q] == s.active[q]
    decreases k - s.active[r].k
  {
    var s1 := Apply(s, Visit(r));
    VisitIs(s.active[r], s.bag);
    hide ResumedIds, Owned, ReplayOne;
    if s.active[r].k == k {
      steps, t := [Visit(r)], s1;
      assert [Visit(r)][1..] == [] && Leads(s1, [], s1);
    } else {
      var rest;
      rest, t := VisitUntilOwned(s1, r, k);
      steps := [Visit(r)] + rest;
      assert steps[1..] == rest && s.dispatched + [] == s.dispatched;
    }
  }

  function FirstOwned(who: Replayer, ids: seq<string>, id: string, k: nat): (j: nat)
    requires Owns(who, id) && exists i :: k <= i < |ids| && ids[i] == id
    ensures k <= j < |ids| && Owns(who, ids[j]) && forall i | k <= i < j :: !Owns(who, ids[i])
    decreases |ids| - k
  {
    if Owns(who, ids[k]) then k else FirstOwned(who, ids, id, k + 1)
  }

  lemma {:induction false} LeadsThrough(s: State, steps: seq<Step>, t: State, more: seq<Step>, u: State)
    requires Leads(s, steps, t) && Leads(t, more, u)
    ensures Leads(s, steps + more, u)
    decreases steps
  {
    hide Apply, Enabled;
    if steps == [] {
      assert steps + more == more;
    } else {
      assert (steps + more)[0] == steps[0] && (steps + more)[1..] == steps[1..] + more;
      LeadsThrough(Apply(s, steps[0]), steps[1..], t, more, u);
    }
  }

  /**
   * For every agent and every bag with an unblocked id of its own, two overlapping replays under its name can dispatch
   * an id twice.
   */
  lemma OverlappingNamesakesRepeat(who: Replayer, bag: Bag, id: string) returns (steps: seq<Step>, t: State)
    requires Owns(who, id) && id in ResumedIds(bag)
    ensures Leads(Init(bag), steps, t) && !Distinct(t.dispatched)
  {
    var s0 := Init(bag);
    var s1 := Apply(s0, Start(0, who));
    var s2 := Apply(s1, Start(1, who));
    hide ResumedIds, Owned;
    var i :| 0 <= i < |ResumedIds(bag)| && ResumedIds(bag)[i] == id;
    var k := FirstOwned(who, ResumedIds(bag), id, 0);
    var first, s3 := VisitUntilOwned(s2, 0, k);
    var second;
    second, t := VisitUntilOwned(s3, 1, k);
    LeadsThrough(s2, first, s3, second, t);
    var starts := [Start(0, who), Start(1, who)];
    assert Leads(s0, starts, s2) by {
      assert starts[1..] == [Start(1, who)] && starts[1..][1..] == [];
      assert Leads(s2, [], s2) && Leads(s1, [Start(1, who)], s2);
    }
    steps := starts + (first + second);
    LeadsThrough(s0, starts, s2, first + second, t);
    assert t.dispatched[0] == t.dispatched[1];
  }

  // ---- One replay alone is the code --------------------------------------------------------------------

  /** `t` is `s` with the rest of run `r` done as `ReplayFrom` does it; `more` is what that executes. */
  ghost predicate Through(s: State, r: nat, t: State, more: seq<Execution>)
    requires r in s.active && s.active[r].k <= |Ids(s.active[r])|
  {
    var run := s.active[r];
    var acc := ReplayFrom(run.who, Ids(run), run.k, run.acc);
    && r in t.active && t.active[r].acc == acc && t.active[r].who == run.who
    && t.active - {r} == s.active - {r} && t.bag == s.bag
    && acc.ran == run.acc.ran + more && t.ran == s.ran + more
    && (acc.error.None? ==>
          t.active[r].k == |Ids(run)| && t.dispatched == s.dispatched + OwnedFrom(run.who, Ids(run), run.k))
  }

  lemma NothingLeft(s: State, r: nat)
    requires r in s.active && s.active[r].k <= |Ids(s.active[r])|
    requires s.active[r].k == |Ids(s.active[r])| || s.active[r].acc.error.Some?
    ensures Through(s, r, s, [])
  {
    hide ResumedIds, Owned, ReplayOne;
    assert s.dispatched + [] == s.dispatched && s.ran + [] == s.ran;
  }

  /** A visit in the bag that the replay found is a step of `ReplayFrom`. */
  lemma VisitIsReplayOne(run: Run)
    requires run.k < |Ids(run)| && run.acc.error.None?
    ensures var next, ids := Visited(run, run.who.bag), Ids(run);
            && next.who == run.who && next.k == run.k + 1 && Ids(next) == ids
            && ReplayFrom(run.who, ids, run.k, run.acc) == ReplayFrom(run.who, ids, run.k + 1, next.acc)
            && OwnedFrom(run.who, ids, run.k) ==
               (if Owns(run.who, ids[run.k]) then [ids[run.k]] else []) + OwnedFrom(run.who, ids, run.k + 1)
            && next.acc.ran == run.acc.ran + NewExecutions(run.acc, next.acc)
  {
    VisitIs(run, run.who.bag);
    assert run.who.(bag := run.who.bag) == run.who;
    hide ResumedIds, Owned, ReplayOne;
  }

  lemma VisitEffects(s: State, r: nat)
    requires Enabled(s, Visit(r))
    ensures var run, s1 := s.active[r], Apply(s, Visit(r)); var next := Visited(run, s.bag);
            && r in s1.active && s1.active[r] == next && s1.active - {r} == s.active - {r} && s1.bag == s.bag
            && s1.dispatched == s.dispatched + (if Owns(run.who, Ids(run)[run.k]) then [Ids(run)[run.k]] else [])
            && s1.ran == s.ran + NewExecutions(run.acc, next.acc)
  {
    hide Visited, Owns, Ids, NewExecutions;
  }

  /** One visit more at the front. */
  lemma VisitFirst(s: State, r: nat, t: State, rest: seq<Execution>) returns (more: seq<Execution>)
    requires Enabled(s, Visit(r)) && s.active[r].who.bag == s.bag
    requires var s1 := Apply(s, Visit(r));
             r in s1.active && s1.active[r].k <= |Ids(s1.active[r])| && Through(s1, r, t, rest)
    ensures Through(s, r, t, more)
  {
    VisitIsReplayOne(s.active[r]);
    VisitEffects(s, r);
    hide ResumedIds, Owned, Visited, ReplayFrom, OwnedFrom, NewExecutions, Ids, Owns, Apply, Enabled, Consume, Touched;
    hide DispatchCall;
    var run, s1 := s.active[r], Apply(s, Visit(r));
    var ids, new_ := Ids(run), NewExecutions(run.acc, s1.active[r].acc);
    more := new_ + rest;
    Regroup(s.ran, new_, rest);
    Regroup(run.acc.ran, new_, rest);
    Regroup(s.dispatched, if Owns(run.who, ids[run.k]) then [ids[run.k]] else [], OwnedFrom(run.who, ids, run.k + 1));
  }

  lemma Regroup<T>(xs: seq<T>, ys: seq<T>, zs: seq<T>)
    ensures xs + (ys + zs) == xs + ys + zs
  {
  }

  lemma {:induction false} VisitAll(s: State, r: nat) returns (steps: seq<Step>, t: State, more: seq<Execution>)
    requires r in s.active && s.active[r].who.bag == s.bag && s.active[r].k <= |Ids(s.active[r])|
    ensures Leads(s, steps, t) && Through(s, r, t, more)
    decreases |Ids(s.active[r])| - s.active[r].k
  {
    hide ResumedIds, Owned, ReplayOne, Through, NewExecutions;
    if s.active[r].k == |Ids(s.active[r])| || s.active[r].acc.error.Some? {
      NothingLeft(s, r);
      return [], s, [];
    }
    var visits, rest;
    visits, t, rest := VisitAll(Apply(s, Visit(r)), r);
    more := VisitFirst(s, r, t, rest);
    steps := [Visit(r)] + visits;
    assert steps[1..] == visits;
  }

  /**
   * A replay that nothing interrupts does what `ReplayAll` says, and leaves the bag that `ReplayResumedToolCalls`
   * leaves: a start, a visit of each id, and the end.
   */
  lemma SoloReplayIsTheCode(s: State, r: nat, who: Replayer) returns (steps: seq<Step>, t: State)
    requires r !in s.active
    ensures var acc := ReplayAll(who.(bag := s.bag));
            && Leads(s, steps, t) && t.active == s.active && t.ran == s.ran + acc.ran
            && t.bag == (if acc.error.Some? then s.bag else Consume(s.bag, acc.consumed))
            && (acc.error.None? ==> t.dispatched == s.dispatched + acc.consumed)
  {
    var replayer := who.(bag := s.bag);
    var acc := ReplayAll(replayer);
    var s1 := Apply(s, Start(r, who));
    var visits, s2, more := VisitAll(s1, r);
    if acc.error.None? {
      ConsumedIs(replayer, ResumedIds(s.bag));
    }
    hide ResumedIds, Owned, ReplayFrom, Consume;
    assert acc.ran == [] + more == more;
    var last := if acc.error.Some? then Abort(r) else Finish(r);
    t := Apply(s2, last);
    assert Leads(s2, [last], t) by {
      assert [last][1..] == [] && Leads(t, [], t);
    }
    LeadsThrough(s1, visits, s2, [last], t);
    steps := [Start(r, who)] + (visits + [last]);
    assert steps[1..] == visits + [last];
    assert t.active == s.active;
  }

  // ---- Gate safety under interleaving ------------------------------------------------------------------

  /** The gated executions so far: approved at the start, of different ids, and of ids that were replayed. */
  ghost predicate Spending(initial: Bag, s: State) {
    && AllApproved(initial, s.ran) && SpentOnce(s.ran)
    && forall x | x in s.ran && x.gated :: x.call.id.Some? && x.call.id.value in s.dispatched
  }

  /** The calls that models make have ids that nobody waits for. */
  predicate FreshCall(initial: Bag, step: Step) {
    step.CallTool? && step.fc.id.Some? ==> step.fc.id.value !in ResumedIds(initial)
  }

  lemma VisitSpends(initial: Bag, s: State, r: nat)
    requires Inv(initial, s) && Spending(initial, s) && Enabled(s, Visit(r))
    ensures Spending(initial, Apply(s, Visit(r)))
  {
    var t := Apply(s, Visit(r));
    assert RunOk(s, s.active[r]);
    VisitIs(s.active[r], s.bag);
    hide ResumedIds, Owned, Visited, Approved, SpentOnce, AllApart, AllCovered, Valid, AuthIdsDistinct, Distinct;
    var new_ := NewExecutions(s.active[r].acc, t.active[r].acc);
    assert s.ran + [] == s.ran;
    if new_ != [] {
      assert new_ == [new_[0]];
      SpentOnceSnoc(s.ran, new_[0]);
    }
  }

  lemma CallSpends(initial: Bag, s: State, step: Step)
    requires BagOk(initial, s) && Spending(initial, s) && step.CallTool? && FreshCall(initial, step)
    ensures Spending(initial, Apply(s, step))
  {
    ApprovedIsUnblocked(initial);
    GateHolds(step.w, step.slot, step.tool, step.fc, s.bag);
    hide ResumedIds, Approved, SpentOnce, DispatchCall, Valid, AuthIdsDistinct;
    assert s.ran + [] == s.ran;
    var d := DispatchCall(step.w, step.slot, step.tool, step.fc, s.bag);
    if d.ran.Some? {
      UngatedSnoc(s.ran, d.ran.value);
    }
  }

  lemma StepSpends(initial: Bag, s: State, step: Step)
    requires Inv(initial, s) && Spending(initial, s) && Enabled(s, step) && FreshCall(initial, step)
    ensures Spending(initial, Apply(s, step))
  {
    match step
    case Visit(r) => VisitSpends(initial, s, r);
    case CallTool(_, _, _, _) => CallSpends(initial, s, step);
    case _ =>
  }

  lemma UngatedSnoc(ran: seq<Execution>, x: Execution)
    requires SpentOnce(ran) && !x.gated
    ensures SpentOnce(ran + [x])
  {
  }

  lemma {:induction false} ScheduleSpends(initial: Bag, s: State, steps: seq<Step>, t: State)
    requires Inv(initial, s) && Spending(initial, s) && Leads(s, steps, t) && AllCareful(s, steps)
    requires forall i | 0 <= i < |steps| :: FreshCall(initial, steps[i])
    ensures Spending(initial, t)
    decreases steps
  {
    hide Inv, Spending, Apply, Careful, Enabled, FreshCall;
    if steps != [] {
      StepKeeps(initial, s, steps[0]);
      StepSpends(initial, s, steps[0]);
      ScheduleSpends(initial, Apply(s, steps[0]), steps[1..], t);
    }
  }

  lemma {:induction false} ScheduleRunsApproved(initial: Bag, s: State, steps: seq<Step>, t: State)
    requires Valid(s.bag) && Leads(s, steps, t) && AllApproved(initial, s.ran)
    requires forall id | Approved(s.bag, id) :: Approved(initial, id)
    ensures AllApproved(initial, t.ran)
    decreases steps
  {
    if steps != [] {
      StepRunsApproved(initial, s, steps[0]);
      hide Apply, Enabled, Approved, Valid, AllApproved;
      ScheduleRunsApproved(initial, Apply(s, steps[0]), steps[1..], t);
    }
  }

  lemma StepRunsApproved(initial: Bag, s: State, step: Step)
    requires Valid(s.bag) && Enabled(s, step) && AllApproved(initial, s.ran)
    requires forall id | Approved(s.bag, id) :: Approved(initial, id)
    ensures var t := Apply(s, step);
            Valid(t.bag) && AllApproved(initial, t.ran) && forall id | Approved(t.bag, id) :: Approved(initial, id)
  {
    match step
    case Visit(r) =>
      VisitIs(s.active[r], s.bag);
      hide ResumedIds, Owned, ReplayOne, Approved, Valid;
    case Finish(r) =>
      ConsumeConserves(s.bag, s.active[r].acc.consumed);
      hide ResumedIds, Approved, Valid, Consume;
    case CallTool(w, slot, tool, fc) =>
      GateHolds(w, slot, tool, fc, s.bag);
      hide Approved, Valid, DispatchCall;
    case _ =>
  }

  /**
   * Gate safety when agents run side by side on one bag: however their replays and the calls of their models
   * interleave, every gated execution was approved at the start.
   */
  lemma InterleavedGatesHold(bag: Bag, steps: seq<Step>, t: State)
    requires Valid(bag) && Leads(Init(bag), steps, t)
    ensures AllApproved(bag, t.ran)
  {
    ScheduleRunsApproved(bag, Init(bag), steps, t);
  }

  /**
   * If moreover replays start carefully and the ids of new calls are fresh, gated executions have distinct ids: no
   * approval is spent twice.
   */
  lemma InterleavedApprovalsAreSpentOnce(bag: Bag, steps: seq<Step>, t: State)
    requires Valid(bag) && AuthIdsDistinct(bag) && Leads(Init(bag), steps, t) && AllCareful(Init(bag), steps)
    requires forall i | 0 <= i < |steps| :: FreshCall(bag, steps[i])
    ensures AllApproved(bag, t.ran) && SpentOnce(t.ran)
  {
    InitInv(bag);
    ScheduleSpends(bag, Init(bag), steps, t);
  }
}
