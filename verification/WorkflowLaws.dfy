/**
 * The algebra of workflow agents: without resumability a tree of sequences and loops is no more than the list of its
 * leaves, run in order until something stops the invocation.
 */
module WorkflowLaws {
  import opened Genai
  import opened Workflow

  // ---- The reference: a list of leaves -----------------------------------------------------------------

  function Leaves(a: Tree): seq<string>
    decreases a, 2, 0
  {
    match a
    case Leaf(name) => [name]
    case Sequential(_, _) => LeavesFrom(a, 0)
    case Loop(_, _, n) => Repeat(LeavesFrom(a, 0), n)
  }

  function Subs(a: Tree): seq<Tree> {
    if a.Leaf? then [] else a.subs
  }

  function LeavesFrom(a: Tree, i: nat): seq<string>
    requires i <= |Subs(a)|
    decreases a, 1, |Subs(a)| - i
  {
    if i == |Subs(a)| then [] else Leaves(Subs(a)[i]) + LeavesFrom(a, i + 1)
  }

  function Repeat<T>(xs: seq<T>, n: nat): seq<T> {
    if n == 0 then [] else xs + Repeat(xs, n - 1)
  }

  /** Run the leaves one after another: stop on cancellation, on an escalation or error, and on a pause. */
  function RunLeaves(env: Env, names: seq<string>, st: State): (State, End)
    decreases names
  {
    if names == [] || env.cancelled(st.tick) then (st, Done)
    else
      var (st1, end) := RunLeaf(env, names[0], st);
      if end != Done || st1.paused then (st1, end) else RunLeaves(env, names[1..], st1)
  }

  // ---- Flattening --------------------------------------------------------------------------------------

  lemma {:induction false} RunLeavesConcat(env: Env, xs: seq<string>, ys: seq<string>, st: State)
    requires xs != []
    ensures var (st1, end) := RunLeaves(env, xs, st);
            RunLeaves(env, xs + ys, st) ==
            if end != Done || st1.paused then (st1, end) else RunLeaves(env, ys, st1)
    decreases xs
  {
    var (st1, end) := RunLeaf(env, xs[0], st);
    assert (xs + ys)[0] == xs[0] && (xs + ys)[1..] == xs[1..] + ys;
    if |xs| == 1 {
      assert xs[1..] == [] && xs[1..] + ys == ys;
    } else if !env.cancelled(st.tick) && end == Done && !st1.paused {
      RunLeavesConcat(env, xs[1..], ys, st1);
    }
  }

  lemma {:induction false} LeavesNonEmpty(a: Tree)
    requires WellFormed(a)
    ensures Leaves(a) != []
    decreases a
  {
    if !a.Leaf? {
      LeavesNonEmpty(a.subs[0]);
      assert LeavesFrom(a, 0) == Leaves(a.subs[0]) + LeavesFrom(a, 1);
      if a.Loop? {
        assert Repeat(LeavesFrom(a, 0), a.maxIterations) ==
               LeavesFrom(a, 0) + Repeat(LeavesFrom(a, 0), a.maxIterations - 1);
      }
    }
  }

  /**
   * A tree means the list of its leaves, whatever the leaves do, whenever the flag flips, and however the tree
   * pauses, escalates or fails.  (A bare leaf is started without looking at the flag.)
   */
  lemma {:induction false} TreeIsItsLeaves(env: Env, a: Tree, st: State)
    requires !env.resumable && WellFormed(a)
    requires a.Leaf? ==> !env.cancelled(st.tick)
    ensures Run(env, a, st) == RunLeaves(env, Leaves(a), st)
    decreases a, 3, 0, 0
  {
    match a
    case Leaf(name) =>
      assert [name][1..] == [];
    case Sequential(_, _) =>
      SubsAreLeaves(env, a, 0, st);
    case Loop(_, _, n) =>
      IterationsAreLeaves(env, a, n, st);
  }

  lemma {:induction false} SubsAreLeaves(env: Env, a: Tree, i: nat, st: State)
    requires !env.resumable && a.Sequential? && WellFormed(a) && i <= |a.subs|
    ensures RunSubs(env, a, i, st) == RunLeaves(env, LeavesFrom(a, i), st)
    decreases a, 2, |a.subs| - i, 0
  {
    if i < |a.subs| && !env.cancelled(st.tick) {
      var sub := a.subs[i];
      LeavesNonEmpty(sub);
      TreeIsItsLeaves(env, sub, st);
      RunLeavesConcat(env, Leaves(sub), LeavesFrom(a, i + 1), st);
      var (st1, end) := Run(env, sub, st);
      if end == Done && !st1.paused {
        SubsAreLeaves(env, a, i + 1, st1);
      }
    }
  }

  lemma {:induction false} IterationsAreLeaves(env: Env, a: Tree, n: nat, st: State)
    requires !env.resumable && a.Loop? && WellFormed(a)
    ensures RunIterations(env, a, n, st) == RunLeaves(env, Repeat(LeavesFrom(a, 0), n), st)
    decreases a, 2, n, 1
  {
    if n > 0 && !env.cancelled(st.tick) {
      BodyIsLeaves(env, a, 0, st);
      LeavesNonEmpty(a.subs[0]);
      assert LeavesFrom(a, 0) == Leaves(a.subs[0]) + LeavesFrom(a, 1);
      RunLeavesConcat(env, LeavesFrom(a, 0), Repeat(LeavesFrom(a, 0), n - 1), st);
      var (st1, end, stop) := RunBody(env, a, 0, st);
      if !stop {
        IterationsAreLeaves(env, a, n - 1, st1);
      } else if end == Done && !st1.paused {
        assert env.cancelled(st1.tick);
      }
    }
  }

  lemma {:induction false} BodyIsLeaves(env: Env, a: Tree, j: nat, st: State)
    requires !env.resumable && a.Loop? && WellFormed(a) && j <= |a.subs|
    ensures var (st1, end, stop) := RunBody(env, a, j, st);
            && (st1, end) == RunLeaves(env, LeavesFrom(a, j), st)
            && (stop <==> end != Done || (j < |a.subs| && st1.paused) || StoppedByCancel(env, a, j, st))
            && (StoppedByCancel(env, a, j, st) ==> env.cancelled(st1.tick))
            && (!stop && j < |a.subs| ==> !st1.paused)
    decreases a, 1, |a.subs| - j, 0
  {
    if j < |a.subs| && !env.cancelled(st.tick) {
      var sub := a.subs[j];
      LeavesNonEmpty(sub);
      TreeIsItsLeaves(env, sub, st);
      RunLeavesConcat(env, Leaves(sub), LeavesFrom(a, j + 1), st);
      hide Run;
      hide Leaves;
      var (st1, end) := Run(env, sub, st);
      if end == Done && !st1.paused {
        BodyIsLeaves(env, a, j + 1, st1);
      }
    }
  }

  /** The iteration from sub-agent `j` on is left because the flag is seen. */
  ghost predicate StoppedByCancel(env: Env, a: Tree, j: nat, st: State)
    requires a.Loop? && j <= |a.subs|
    decreases |a.subs| - j
  {
    j < |a.subs| &&
    (env.cancelled(st.tick) ||
     var (st1, end) := Run(env, a.subs[j], st);
     end == Done && !st1.paused && StoppedByCancel(env, a, j + 1, st1))
  }

  // ---- Laws that follow --------------------------------------------------------------------------------

  function ConcatLeaves(subs: seq<Tree>): seq<string> {
    if subs == [] then [] else Leaves(subs[0]) + ConcatLeaves(subs[1..])
  }

  lemma {:induction false} LeavesAreConcat(a: Tree, i: nat)
    requires i <= |Subs(a)|
    ensures LeavesFrom(a, i) == ConcatLeaves(Subs(a)[i..])
    decreases |Subs(a)| - i
  {
    if i < |Subs(a)| {
      assert Subs(a)[i..][1..] == Subs(a)[i + 1..];
      LeavesAreConcat(a, i + 1);
    }
  }

  lemma {:induction false} ConcatLeavesConcat(xs: seq<Tree>, ys: seq<Tree>)
    ensures ConcatLeaves(xs + ys) == ConcatLeaves(xs) + ConcatLeaves(ys)
    decreases xs
  {
    if xs == [] {
      assert xs + ys == ys;
    } else {
      assert (xs + ys)[1..] == xs[1..] + ys;
      ConcatLeavesConcat(xs[1..], ys);
    }
  }

  lemma {:induction false} ConcatLeavesRepeat(xs: seq<Tree>, n: nat)
    ensures ConcatLeaves(Repeat(xs, n)) == Repeat(ConcatLeaves(xs), n)
    decreases n
  {
    if n > 0 {
      ConcatLeavesConcat(xs, Repeat(xs, n - 1));
      ConcatLeavesRepeat(xs, n - 1);
    }
  }

  /** Trees with the same leaves in the same order cannot be told apart. */
  lemma SameLeavesSameRun(env: Env, a: Tree, b: Tree, st: State)
    requires !env.resumable && WellFormed(a) && WellFormed(b) && !a.Leaf? && !b.Leaf?
    requires Leaves(a) == Leaves(b)
    ensures Run(env, a, st) == Run(env, b, st)
  {
    TreeIsItsLeaves(env, a, st);
    TreeIsItsLeaves(env, b, st);
  }

  /** Nesting of sequences is associative. */
  lemma SequenceAssociative(env: Env, name: string, inner: string,
                            xs: seq<Tree>, ys: seq<Tree>, zs: seq<Tree>, st: State)
    requires !env.resumable && ys != []
    requires forall s | s in xs + ys + zs :: WellFormed(s)
    ensures Run(env, Sequential(name, xs + [Sequential(inner, ys)] + zs), st) ==
            Run(env, Sequential(name, xs + ys + zs), st)
  {
    var mid := Sequential(inner, ys);
    var nested, flat := Sequential(name, xs + [mid] + zs), Sequential(name, xs + ys + zs);
    assert WellFormed(mid);
    assert WellFormed(nested) && WellFormed(flat);
    LeavesAreConcat(mid, 0);
    assert [mid][1..] == [];
    assert ConcatLeaves([mid]) == ConcatLeaves(ys);
    ConcatLeavesConcat(xs + [mid], zs);
    ConcatLeavesConcat(xs, [mid]);
    ConcatLeavesConcat(xs + ys, zs);
    ConcatLeavesConcat(xs, ys);
    LeavesAreConcat(nested, 0);
    LeavesAreConcat(flat, 0);
    SameLeavesSameRun(env, nested, flat, st);
  }

  lemma {:induction false} RepeatMembers<T>(xs: seq<T>, n: nat)
    ensures forall x | x in Repeat(xs, n) :: x in xs
    ensures n > 0 && xs != [] ==> Repeat(xs, n) != []
    decreases n
  {
    if n > 0 {
      RepeatMembers(xs, n - 1);
    }
  }

  /** A loop is the sequence of its sub-agents written out `n` times. */
  lemma LoopIsRepeatedSequence(env: Env, name: string, xs: seq<Tree>, n: nat, st: State)
    requires !env.resumable && xs != [] && n > 0
    requires forall s | s in xs :: WellFormed(s)
    ensures Run(env, Loop(name, xs, n), st) == Run(env, Sequential(name, Repeat(xs, n)), st)
  {
    var looped, written := Loop(name, xs, n), Sequential(name, Repeat(xs, n));
    RepeatMembers(xs, n);
    assert WellFormed(written);
    ConcatLeavesRepeat(xs, n);
    LeavesAreConcat(looped, 0);
    LeavesAreConcat(written, 0);
    SameLeavesSameRun(env, looped, written, st);
  }

  // ---- Escalation --------------------------------------------------------------------------------------

  /**
   * `after` extends the log of `before` by a stream in which nothing follows an escalating event, and the run ended
   * by escalation exactly if its last event escalates.
   */
  ghost predicate CutAtEscalation(before: State, after: State, end: End) {
    && |before.log| <= |after.log|
    && after.log[..|before.log|] == before.log
    && (forall i | |before.log| <= i < |after.log| - 1 :: !Escalates(after.log[i]))
    && (end == Escalated <==> |before.log| < |after.log| && Escalates(after.log[|after.log| - 1]))
  }

  lemma CutCompose(a: State, b: State, c: State, end: End)
    requires CutAtEscalation(a, b, Done) && CutAtEscalation(b, c, end)
    ensures CutAtEscalation(a, c, end)
  {
    assert c.log[..|a.log|] == b.log[..|a.log|];
    forall i | |a.log| <= i < |c.log| - 1 ensures !Escalates(c.log[i]) {
      if i < |b.log| {
        assert c.log[i] == b.log[i];
      }
    }
    if |b.log| == |c.log| {
      assert c.log == b.log;
    }
  }

  lemma {:induction false} ForwardCuts(st: State, events: seq<Event>)
    ensures CutAtEscalation(st, Forward(st, events).0, if Forward(st, events).1 then Escalated else Done)
    ensures Forward(st, events).1 <==> exists i :: 0 <= i < |events| && Escalates(events[i])
    decreases events
  {
    if events != [] && !Escalates(events[0]) {
      var next := Yield(st, events[0]);
      ForwardCuts(next, events[1..]);
      CutCompose(st, next, Forward(st, events).0, if Forward(st, events).1 then Escalated else Done);
      if i :| 0 <= i < |events| && Escalates(events[i]) {
        assert events[1..][i - 1] == events[i];
      }
      if i :| 0 <= i < |events[1..]| && Escalates(events[1..][i]) {
        assert events[i + 1] == events[1..][i];
      }
    }
  }

  /** Nothing runs, anywhere in the tree, after an event that escalates: also not beyond the loop it leaves. */
  lemma {:induction false} EscalationEndsTheRun(env: Env, a: Tree, st: State)
    ensures CutAtEscalation(st, Run(env, a, st).0, Run(env, a, st).1)
    decreases a, 3, 0, 0
  {
    match a
    case Leaf(name) =>
      ForwardCuts(st.(started := st.started + [name]), env.leaf(name, st).events);
    case Sequential(_, _) =>
      SubsCut(env, a, StartIndex(env, a, st), st);
    case Loop(_, _, n) =>
      IterationsCut(env, a, n, st);
  }

  lemma {:induction false} SubsCut(env: Env, a: Tree, i: nat, st: State)
    requires a.Sequential?
    ensures CutAtEscalation(st, RunSubs(env, a, i, st).0, RunSubs(env, a, i, st).1)
    decreases a, 2, |a.subs| - i, 0
  {
    if i < |a.subs| && !env.cancelled(st.tick) {
      var (st1, end) := Run(env, a.subs[i], st);
      EscalationEndsTheRun(env, a.subs[i], st);
      if end == Done && !st1.paused {
        var mark := CheckpointEvent(a.name, env.invocationId, i + 1);
        var st2 := if env.resumable && i + 1 < |a.subs| then Yield(st1, mark) else st1;
        assert CutAtEscalation(st1, st2, Done);
        CutCompose(st, st1, st2, Done);
        SubsCut(env, a, i + 1, st2);
        CutCompose(st, st2, RunSubs(env, a, i, st).0, RunSubs(env, a, i, st).1);
      }
    }
  }

  lemma {:induction false} IterationsCut(env: Env, a: Tree, n: nat, st: State)
    requires a.Loop?
    ensures CutAtEscalation(st, RunIterations(env, a, n, st).0, RunIterations(env, a, n, st).1)
    decreases a, 2, n, 1
  {
    if n > 0 && !env.cancelled(st.tick) {
      var (st1, end, stop) := RunBody(env, a, 0, st);
      BodyCut(env, a, 0, st);
      if !stop {
        IterationsCut(env, a, n - 1, st1);
        CutCompose(st, st1, RunIterations(env, a, n, st).0, RunIterations(env, a, n, st).1);
      }
    }
  }

  lemma {:induction false} BodyCut(env: Env, a: Tree, j: nat, st: State)
    requires a.Loop? && j <= |a.subs|
    ensures CutAtEscalation(st, RunBody(env, a, j, st).0, RunBody(env, a, j, st).1)
    ensures !RunBody(env, a, j, st).2 ==> RunBody(env, a, j, st).1 == Done
    decreases a, 1, |a.subs| - j, 0
  {
    if j < |a.subs| && !env.cancelled(st.tick) {
      var (st1, end) := Run(env, a.subs[j], st);
      EscalationEndsTheRun(env, a.subs[j], st);
      if end == Done && !st1.paused {
        BodyCut(env, a, j + 1, st1);
        CutCompose(st, st1, RunBody(env, a, j, st).0, RunBody(env, a, j, st).1);
      }
    }
  }
}
