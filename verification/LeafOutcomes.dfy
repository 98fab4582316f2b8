/**
 * What becomes of a run, told from its leaves alone (src/agents/sequential_agent.rs:113-132,
 * src/agents/loop_agent.rs:69-83): the run goes on exactly as long as leaves finish, and ends as its last leaf does.
 */
module LeafOutcomes {
  import opened Wrappers
  import opened Genai
  import opened Workflow
  import opened WorkflowLaws

  // ---- What one leaf does ------------------------------------------------------------------------------

  /** How a leaf comes out: an escalating event cuts it off, whatever its stream would have done after it. */
  datatype Fate = Finished | Waiting | Failing | Escalating

  /** Position of the first event that escalates, or the length. */
  function FirstEscalation(events: seq<Event>): (n: nat)
    ensures n <= |events|
    ensures forall i | 0 <= i < n :: events[i].actions.escalate != Some(true)
    ensures n < |events| ==> events[n].actions.escalate == Some(true)
  {
    if events == [] || events[0].actions.escalate == Some(true) then 0 else 1 + FirstEscalation(events[1..])
  }

  /** A leaf that is started in one state and leaves another. */
  datatype Visit = Visit(name: string, before: State, after: State)

  function FateOf(env: Env, v: Visit): Fate {
    var run := env.leaf(v.name, v.before);
    if FirstEscalation(run.events) < |run.events| then Escalating
    else
      match run.end
      case Finishes => Finished
      case Pauses => Waiting
      case Fails => Failing
  }

  /** The events that a leaf adds: all, or those up to and including the first that escalates. */
  function Heard(events: seq<Event>): seq<Event> {
    var n := FirstEscalation(events);
    if n < |events| then events[..n + 1] else events
  }

  /** What the leaf's stream makes of the state. */
  ghost predicate LeafDid(env: Env, v: Visit) {
    && v.after.log == v.before.log + Heard(env.leaf(v.name, v.before).events)
    && v.after.started == v.before.started + [v.name]
    && v.after.finished == v.before.finished + (if FateOf(env, v) == Finished then [v.name] else [])
    && (v.after.paused <==> v.before.paused || FateOf(env, v) == Waiting)
  }

  lemma {:induction false} ForwardHears(st: State, events: seq<Event>)
    ensures var (st1, escalated) := Forward(st, events);
            && (escalated <==> FirstEscalation(events) < |events|)
            && st1.log == st.log + Heard(events)
            && st1.started == st.started && st1.finished == st.finished && st1.paused == st.paused
    decreases events
  {
    if events == [] {
      assert st.log + events == st.log;
    } else if Escalates(events[0]) {
      assert events[..1] == [events[0]];
    } else {
      var first, rest := events[0], events[1..];
      var next := Yield(st, first);
      assert next.log == st.log + [first];
      ForwardHears(next, rest);
      HeardCons(first, rest);
      assert events == [first] + rest;
      assert Forward(st, events) == Forward(next, rest);
      hide Forward, Heard, FirstEscalation;
      Said(st.log, first, Heard(rest));
    }
  }

  lemma Said(log: seq<Event>, first: Event, rest: seq<Event>)
    ensures log + [first] + rest == log + ([first] + rest)
  {
  }

  lemma HeardCons(first: Event, rest: seq<Event>)
    requires first.actions.escalate != Some(true)
    ensures Heard([first] + rest) == [first] + Heard(rest)
    ensures FirstEscalation([first] + rest) == 1 + FirstEscalation(rest)
  {
    var n := FirstEscalation(rest);
    assert ([first] + rest)[1..] == rest;
    if n < |rest| {
      assert ([first] + rest)[..n + 2] == [first] + rest[..n + 1];
    }
  }

  lemma LeafRunDid(env: Env, name: string, st: State)
    ensures var (st1, end) := RunLeaf(env, name, st);
            var v := Visit(name, st, st1);
            LeafDid(env, v) && end == EndOf(FateOf(env, v))
  {
    var run := env.leaf(name, st);
    ForwardHears(st.(started := st.started + [name]), run.events);
    hide Forward, FirstEscalation;
    assert st.finished + [] == st.finished;
  }

  // ---- What a run does ---------------------------------------------------------------------------------

  function EndOf(fate: Fate): End {
    match fate
    case Failing => Errored
    case Escalating => Escalated
    case _ => Done
  }

  /** Between two leaves only checkpoints are written, and those only if runs can be resumed. */
  ghost predicate Between(env: Env, s: State, t: State) {
    && t.started == s.started && t.finished == s.finished && t.paused == s.paused
    && s.log <= t.log && (!env.resumable ==> t.log == s.log)
    && forall i | |s.log| <= i < |t.log| :: t.log[i].actions.agentState.Some? && t.log[i].response == EMPTY_RESPONSE
  }

  /** From `st` to `st1` the leaves in `ran` ran one after another, all but the last finished, and nothing else did. */
  ghost predicate Ran(env: Env, st: State, ran: seq<Visit>, st1: State, end: End)
    decreases ran
  {
    if ran == [] then Between(env, st, st1) && end == Done
    else
      && Between(env, st, ran[0].before) && LeafDid(env, ran[0])
      && (if |ran| == 1 then Between(env, ran[0].after, st1) && end == EndOf(FateOf(env, ran[0]))
          else FateOf(env, ran[0]) == Finished && !st.paused && Ran(env, ran[0].after, ran[1..], st1, end))
  }

  lemma BetweenThen(env: Env, s: State, t: State, u: State)
    requires Between(env, s, t) && Between(env, t, u)
    ensures Between(env, s, u)
  {
  }

  lemma RanAfter(env: Env, s: State, t: State, ran: seq<Visit>, st1: State, end: End)
    requires Between(env, s, t) && Ran(env, t, ran, st1, end)
    ensures Ran(env, s, ran, st1, end)
  {
    BetweenThen(env, s, t, if ran == [] then st1 else ran[0].before);
    hide LeafDid, FateOf;
    assert s.paused == t.paused;
  }

  /** A run that may go on, and the run that goes on. */
  lemma {:induction false} RanThen(env: Env, a: State, xs: seq<Visit>, b: State, ys: seq<Visit>, c: State, end: End)
    requires Ran(env, a, xs, b, Done) && (xs != [] ==> !b.paused) && Ran(env, b, ys, c, end)
    ensures Ran(env, a, xs + ys, c, end)
    decreases xs
  {
    hide LeafDid, FateOf, Between;
    if xs == [] {
      assert xs + ys == ys;
      RanAfter(env, a, b, ys, c, end);
    } else {
      assert (xs + ys)[0] == xs[0] && (xs + ys)[1..] == xs[1..] + ys;
      if |xs| == 1 {
        assert xs[1..] + ys == ys;
        OnlyFinishedGoOn(env, a, xs[0], b);
        RanAfter(env, xs[0].after, b, ys, c, end);
      } else {
        RanThen(env, xs[0].after, xs[1..], b, ys, c, end);
      }
    }
  }

  lemma OnlyFinishedGoOn(env: Env, a: State, v: Visit, b: State)
    requires Between(env, a, v.before) && LeafDid(env, v) && Between(env, v.after, b)
    requires !b.paused && EndOf(FateOf(env, v)) == Done
    ensures FateOf(env, v) == Finished && !a.paused
  {
    hide FateOf;
  }

  /** No leaf is started once the user has cancelled. */
  ghost predicate Uncancelled(env: Env, ran: seq<Visit>) {
    forall v | v in ran :: !env.cancelled(v.before.tick)
  }

  // ---- Every tree --------------------------------------------------------------------------------------

  lemma {:induction false} RunRan(env: Env, a: Tree, st: State) returns (ran: seq<Visit>)
    ensures Ran(env, st, ran, Run(env, a, st).0, Run(env, a, st).1)
    ensures if a.Leaf? then |ran| == 1 && ran[0].before == st else Uncancelled(env, ran)
    decreases a, 3, 0, 0
  {
    match a
    case Leaf(name) =>
      LeafRunDid(env, name, st);
      ran := [Visit(name, st, RunLeaf(env, name, st).0)];
      hide LeafDid, FateOf;
    case Sequential(_, _) => ran := SubsRan(env, a, StartIndex(env, a, st), st);
    case Loop(_, _, n) => ran := TimesRan(env, a, n, st);
  }

  lemma {:induction false} SubsRan(env: Env, a: Tree, i: nat, st: State) returns (ran: seq<Visit>)
    requires a.Sequential?
    ensures Ran(env, st, ran, RunSubs(env, a, i, st).0, RunSubs(env, a, i, st).1) && Uncancelled(env, ran)
    decreases a, 1, |a.subs| - i, 0
  {
    if i >= |a.subs| || env.cancelled(st.tick) {
      return [];
    }
    ran := RunRan(env, a.subs[i], st);
    var (st1, end) := Run(env, a.subs[i], st);
    if end == Done && !st1.paused {
      var st2 := if env.resumable && i + 1 < |a.subs|
                 then Yield(st1, CheckpointEvent(a.name, env.invocationId, i + 1)) else st1;
      var rest := SubsRan(env, a, i + 1, st2);
      assert Between(env, st1, st2);
      var (st3, end3) := RunSubs(env, a, i + 1, st2);
      assert RunSubs(env, a, i, st) == (st3, end3);
      RanOn(env, st, ran, st1, st2, rest, st3, end3);
      ran := ran + rest;
    }
  }

  /** One leaf after another, with a checkpoint in between, and none after a cancellation. */
  lemma RanOn(env: Env, s: State, xs: seq<Visit>, t: State, u: State, ys: seq<Visit>, v: State, end: End)
    requires Ran(env, s, xs, t, Done) && !t.paused && Between(env, t, u) && Ran(env, u, ys, v, end)
    requires Uncancelled(env, xs) && Uncancelled(env, ys)
    ensures Ran(env, s, xs + ys, v, end) && Uncancelled(env, xs + ys)
  {
    hide Ran, Between;
    RanAfter(env, t, u, ys, v, end);
    RanThen(env, s, xs, t, ys, v, end);
  }

  lemma {:induction false} TimesRan(env: Env, a: Tree, n: nat, st: State) returns (ran: seq<Visit>)
    requires a.Loop?
    ensures Ran(env, st, ran, RunIterations(env, a, n, st).0, RunIterations(env, a, n, st).1)
    ensures Uncancelled(env, ran)
    decreases a, 1, n, 1
  {
    if n == 0 || env.cancelled(st.tick) {
      return [];
    }
    ran := BodyRan(env, a, 0, st);
    var (st1, _, stop) := RunBody(env, a, 0, st);
    if !stop {
      var rest := TimesRan(env, a, n - 1, st1);
      hide Ran;
      RanThen(env, st, ran, st1, rest, RunIterations(env, a, n - 1, st1).0, RunIterations(env, a, n - 1, st1).1);
      ran := ran + rest;
    }
  }

  lemma {:induction false} BodyRan(env: Env, a: Tree, j: nat, st: State) returns (ran: seq<Visit>)
    requires a.Loop? && j <= |a.subs|
    ensures Ran(env, st, ran, RunBody(env, a, j, st).0, RunBody(env, a, j, st).1) && Uncancelled(env, ran)
    ensures var (st1, end, stop) := RunBody(env, a, j, st);
            !stop ==> end == Done && (st1.paused ==> ran == [] && st1 == st)
    decreases a, 0, |a.subs| - j, 0
  {
    if j == |a.subs| || env.cancelled(st.tick) {
      return [];
    }
    ran := RunRan(env, a.subs[j], st);
    var (st1, end) := Run(env, a.subs[j], st);
    if end == Done && !st1.paused {
      var rest := BodyRan(env, a, j + 1, st1);
      hide Ran;
      RanThen(env, st, ran, st1, rest, RunBody(env, a, j + 1, st1).0, RunBody(env, a, j + 1, st1).1);
      ran := ran + rest;
    }
  }

  // ---- The outcome -------------------------------------------------------------------------------------

  function Names(ran: seq<Visit>): seq<string> {
    seq(|ran|, i requires 0 <= i < |ran| => ran[i].name)
  }

  /** The names of the leaves that finished, in order. */
  function FinishedIn(env: Env, ran: seq<Visit>): seq<string> {
    if ran == [] then []
    else (if FateOf(env, ran[0]) == Finished then [ran[0].name] else []) + FinishedIn(env, ran[1..])
  }

  /** All but the last leaf finish, and the run comes out as the last one does. */
  ghost predicate ComesOut(env: Env, st: State, ran: seq<Visit>, st1: State, end: End) {
    && (forall k | 0 <= k < |ran| - 1 :: FateOf(env, ran[k]) == Finished)
    && (ran == [] ==> end == Done && st1.paused == st.paused)
    && (ran != [] ==>
          var fate := FateOf(env, ran[|ran| - 1]);
          && (end == Errored <==> fate == Failing)
          && (end == Escalated <==> fate == Escalating)
          && (st1.paused <==> st.paused || fate == Waiting))
  }

  ghost predicate Outcome(env: Env, st: State, ran: seq<Visit>, st1: State, end: End) {
    && st1.started == st.started + Names(ran) && st1.finished == st.finished + FinishedIn(env, ran)
    && ComesOut(env, st, ran, st1, end)
  }

  lemma NamesOf(ran: seq<Visit>)
    requires ran != []
    ensures Names(ran) == [ran[0].name] + Names(ran[1..])
  {
  }

  lemma NoNames(env: Env)
    ensures Names([]) == [] && FinishedIn(env, []) == []
  {
  }

  /** The leaves that are started and those that finish. */
  lemma {:induction false} RanLeaves(env: Env, st: State, ran: seq<Visit>, st1: State, end: End)
    requires Ran(env, st, ran, st1, end)
    ensures st1.started == st.started + Names(ran) && st1.finished == st.finished + FinishedIn(env, ran)
    decreases ran
  {
    hide FateOf, Names;
    NoNames(env);
    if ran != [] {
      var v, rest := ran[0], ran[1..];
      var done := if FateOf(env, v) == Finished then [v.name] else [];
      NamesOf(ran);
      Regroup(st.started, [v.name], Names(rest));
      Regroup(st.finished, done, FinishedIn(env, rest));
      if |ran| > 1 {
        RanLeaves(env, v.after, rest, st1, end);
      } else {
        assert rest == [];
        Regroup(st.started, [v.name], []);
        Regroup(st.finished, done, []);
      }
    }
  }

  lemma {:induction false} RanComesOut(env: Env, st: State, ran: seq<Visit>, st1: State, end: End)
    requires Ran(env, st, ran, st1, end)
    ensures ComesOut(env, st, ran, st1, end)
    decreases ran
  {
    hide FateOf;
    if |ran| > 1 {
      var v, rest := ran[0], ran[1..];
      RanComesOut(env, v.after, rest, st1, end);
      forall k | 0 <= k < |ran| - 1 ensures FateOf(env, ran[k]) == Finished {
        assert k > 0 ==> ran[k] == rest[k - 1];
      }
      assert ran[|ran| - 1] == rest[|rest| - 1];
    }
  }

  /**
   * Every run of every tree, in every environment, is told by the streams of its leaves: it fails, or escalates, just
   * if the last leaf started does; it is paused just if it was or the last leaf pauses; and exactly the leaves that
   * finished are recorded as finished.  After a leaf that does not finish nothing is started, nor after a cancellation.
   */
  lemma RunComesOutAsItsLeaves(env: Env, a: Tree, st: State) returns (ran: seq<Visit>)
    ensures var (st1, end) := Run(env, a, st); Ran(env, st, ran, st1, end) && Outcome(env, st, ran, st1, end)
    ensures a.Leaf? || Uncancelled(env, ran)
  {
    ran := RunRan(env, a, st);
    hide Ran, ComesOut;
    RanLeaves(env, st, ran, Run(env, a, st).0, Run(env, a, st).1);
    RanComesOut(env, st, ran, Run(env, a, st).0, Run(env, a, st).1);
  }

  lemma {:induction false} AllListedRun(env: Env, names: seq<string>, st: State)
    requires (forall t :: !env.cancelled(t)) && !st.paused
    ensures var (st1, end) := RunLeaves(env, names, st);
            end == Done && !st1.paused ==>
              st1.started == st.started + names && st1.finished == st.finished + names
    decreases names
  {
    if names == [] {
      assert st.started + names == st.started && st.finished + names == st.finished;
    } else {
      var (st1, end) := RunLeaf(env, names[0], st);
      LeafRunDid(env, names[0], st);
      hide LeafDid, FateOf;
      assert names == [names[0]] + names[1..];
      if end == Done && !st1.paused {
        LeafThatFinished(env, names[0], st);
        AllListedRun(env, names[1..], st1);
        Regroup(st.started, [names[0]], names[1..]);
        Regroup(st.finished, [names[0]], names[1..]);
      }
    }
  }

  lemma LeafThatFinished(env: Env, name: string, st: State)
    ensures var (st1, end) := RunLeaf(env, name, st);
            end == Done && !st1.paused ==>
              st1.started == st.started + [name] && st1.finished == st.finished + [name]
  {
    LeafRunDid(env, name, st);
    hide FateOf;
  }

  /** A run that is not cut short has started and finished every leaf of the tree, each as often as the loops say. */
  lemma NothingIsSkipped(env: Env, a: Tree, st: State)
    requires WellFormed(a) && !env.resumable && (forall t :: !env.cancelled(t)) && !st.paused
    ensures var (st1, end) := Run(env, a, st);
            end == Done && !st1.paused ==>
              st1.started == st.started + Leaves(a) && st1.finished == st.finished + Leaves(a)
  {
    TreeIsItsLeaves(env, a, st);
    AllListedRun(env, Leaves(a), st);
  }

  /** The smallest instance: an error of the first step ends the sequence, and nothing has finished. */
  lemma ErrorEndsTheSequence(env: Env, st: State)
    requires !env.resumable && !env.cancelled(st.tick) && !st.paused
    requires env.leaf("a", st) == LeafRun([], Fails)
    ensures var (st1, end) := Run(env, Sequential("s", [Leaf("a"), Leaf("b")]), st);
            end == Errored && st1.started == st.started + ["a"] && st1.finished == st.finished
  {
    var a := Sequential("s", [Leaf("a"), Leaf("b")]);
    LeafRunDid(env, "a", st);
    assert RunSubs(env, a, 0, st) == Run(env, a.subs[0], st);
  }
}
