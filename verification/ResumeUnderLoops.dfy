/**
 * Resumable pipelines below a LoopAgent (src/agents/sequential_agent.rs:101-111, src/agents/loop_agent.rs:61-84).
 *
 * A sequence reads its own checkpoint whenever it is entered, also when a loop enters it again in the same run, and
 * then skips children.  So switching resumability on changes what an uninterrupted run does, and exactly for the
 * trees in which a loop of two or more iterations encloses a sequence of two or more children.
 */
module ResumeUnderLoops {
  import opened Genai
  import opened Workflow
  import opened WorkflowLaws
  import opened Resume

  /** Sequences that write checkpoints. */
  predicate WritesCheckpoints(a: Tree) {
    (a.Sequential? && |a.subs| > 1) || (!a.Leaf? && exists i | 0 <= i < |a.subs| :: WritesCheckpoints(a.subs[i]))
  }

  /** No loop of two or more iterations encloses a sequence that writes checkpoints. */
  predicate LoopSafe(a: Tree) {
    !a.Leaf? ==>
      && (forall i | 0 <= i < |a.subs| :: LoopSafe(a.subs[i]))
      && !(a.Loop? && a.maxIterations > 1 && exists i | 0 <= i < |a.subs| :: WritesCheckpoints(a.subs[i]))
  }

  /** A tree of sequences and loops with distinct names. */
  ghost predicate DistinctNames(a: Tree) {
    !a.Leaf? ==>
      && a.name !in NamesFrom(a, 0)
      && (forall i | 0 <= i < |a.subs| :: DistinctNames(a.subs[i]))
      && (forall i, j | 0 <= i < j < |a.subs| :: PipelineNames(a.subs[i]) !! PipelineNames(a.subs[j]))
  }

  /** A resumable run in which every leaf runs to its end. */
  ghost predicate Uninterrupted(env: Env, names: set<string>) {
    && Calm(env, names)
    && forall name, st :: env.leaf(name, st).end == Finishes
  }

  // ---- What an uninterrupted run does ------------------------------------------------------------------

  function Exec(env: Env, a: Tree, st: State): State
    decreases a, 2, 0, 0
  {
    match a
    case Leaf(name) => RunLeaf(env, name, st).0
    case Sequential(name, _) => ExecFrom(env, a, Completed(env, st.log, name), st)
    case Loop(_, _, n) => ExecTimes(env, a, n, st)
  }

  function ExecFrom(env: Env, a: Tree, i: nat, st: State): State
    requires !a.Leaf?
    decreases a, 0, |a.subs| - i, 0
  {
    if i >= |a.subs| then st
    else
      var st1 := Exec(env, a.subs[i], st);
      var st2 := if a.Sequential? && i + 1 < |a.subs|
                 then Yield(st1, CheckpointEvent(a.name, env.invocationId, i + 1)) else st1;
      ExecFrom(env, a, i + 1, st2)
  }

  function ExecTimes(env: Env, a: Tree, n: nat, st: State): State
    requires a.Loop?
    decreases a, 1, n, 0
  {
    if n == 0 then st else ExecTimes(env, a, n - 1, ExecFrom(env, a, 0, st))
  }

  lemma LeafExec(env: Env, name: string, st: State, names: set<string>)
    requires Uninterrupted(env, names)
    ensures RunLeaf(env, name, st).1 == Done
    ensures var st1 := RunLeaf(env, name, st).0;
            && st1.paused == st.paused
            && st1.started == st.started + [name]
            && SameCheckpoints(env, names, st.log, st1.log)
  {
    var run := env.leaf(name, st);
    assert forall e | e in run.events :: !Escalates(e) && Neutral(e, env.invocationId, names);
    ForwardAll(st.(started := st.started + [name]), run.events);
    NeutralEventsKeepCheckpoints(env, names, st.log, run.events);
  }

  /** `Exec` is the run. */
  lemma {:induction false} RunIsExec(env: Env, a: Tree, st: State, names: set<string>)
    requires Uninterrupted(env, names) && !st.paused
    ensures Run(env, a, st) == (Exec(env, a, st), Done) && !Exec(env, a, st).paused
    decreases a, 3, 0, 0
  {
    match a
    case Leaf(name) => LeafExec(env, name, st, names);
    case Sequential(_, _) => SubsAreExec(env, a, Completed(env, st.log, a.name), st, names);
    case Loop(_, _, n) => IterationsAreExec(env, a, n, st, names);
  }

  lemma {:induction false} SubsAreExec(env: Env, a: Tree, i: nat, st: State, names: set<string>)
    requires Uninterrupted(env, names) && !st.paused && a.Sequential?
    ensures RunSubs(env, a, i, st) == (ExecFrom(env, a, i, st), Done) && !ExecFrom(env, a, i, st).paused
    decreases a, 0, |a.subs| - i, 0
  {
    if i < |a.subs| {
      RunIsExec(env, a.subs[i], st, names);
      var st1 := Exec(env, a.subs[i], st);
      var st2 := if i + 1 < |a.subs| then Yield(st1, CheckpointEvent(a.name, env.invocationId, i + 1)) else st1;
      SubsAreExec(env, a, i + 1, st2, names);
    }
  }

  lemma {:induction false} BodyIsExec(env: Env, a: Tree, j: nat, st: State, names: set<string>)
    requires Uninterrupted(env, names) && !st.paused && a.Loop? && j <= |a.subs|
    ensures RunBody(env, a, j, st) == (ExecFrom(env, a, j, st), Done, false) && !ExecFrom(env, a, j, st).paused
    decreases a, 0, |a.subs| - j, 0
  {
    if j < |a.subs| {
      RunIsExec(env, a.subs[j], st, names);
      BodyIsExec(env, a, j + 1, Exec(env, a.subs[j], st), names);
    }
  }

  lemma {:induction false} IterationsAreExec(env: Env, a: Tree, n: nat, st: State, names: set<string>)
    requires Uninterrupted(env, names) && !st.paused && a.Loop?
    ensures RunIterations(env, a, n, st) == (ExecTimes(env, a, n, st), Done) && !ExecTimes(env, a, n, st).paused
    decreases a, 1, n, 0
  {
    if n > 0 {
      BodyIsExec(env, a, 0, st, names);
      IterationsAreExec(env, a, n - 1, ExecFrom(env, a, 0, st), names);
    }
  }

  // ---- At most the declared leaves; checkpoints only grow from nothing to something --------------------

  /** Checkpoints of other sequences are untouched and no checkpoint goes back to zero. */
  ghost predicate Grows(env: Env, a: Tree, names: set<string>, log: seq<Event>, log': seq<Event>) {
    && SameCheckpoints(env, names - PipelineNames(a), log, log')
    && forall n | n in names && Completed(env, log, n) > 0 :: Completed(env, log', n) > 0
  }

  lemma YieldedCheckpoint(env: Env, a: Tree, i: nat, names: set<string>, st: State, st1: State)
    requires a.Sequential? && i + 1 < |a.subs| && i < |Subs(a)| && PipelineNames(a) <= names
    requires Grows(env, a.subs[i], names, st.log, st1.log)
    ensures var st2 := Yield(st1, CheckpointEvent(a.name, env.invocationId, i + 1));
            && Grows(env, a, names, st.log, st2.log)
            && Completed(env, st2.log, a.name) == i + 1
            && forall n | n in names && n != a.name :: Completed(env, st2.log, n) == Completed(env, st1.log, n)
  {
    NamesOfSub(a, 0, i);
    CheckpointIsLatest(env, st1.log, a.name, i + 1);
  }

  lemma {:induction false} ExecBounded(env: Env, a: Tree, st: State, names: set<string>)
    requires Uninterrupted(env, names) && PipelineNames(a) <= names
    ensures |Exec(env, a, st).started| <= |st.started| + |Leaves(a)|
    ensures Grows(env, a, names, st.log, Exec(env, a, st).log)
    decreases a, 2, 0, 0
  {
    match a
    case Leaf(name) => LeafExec(env, name, st, names);
    case Sequential(_, _) =>
      var c := Completed(env, st.log, a.name);
      if c < |a.subs| {
        ExecFromBounded(env, a, c, st, names);
        LaterLeavesFewer(a, 0, c);
      }
    case Loop(_, _, n) => ExecTimesBounded(env, a, n, st, names);
  }

  lemma {:induction false} LaterLeavesFewer(a: Tree, i: nat, c: nat)
    requires i <= c <= |Subs(a)|
    ensures |LeavesFrom(a, c)| <= |LeavesFrom(a, i)|
    ensures WellFormed(a) && i < c ==> |LeavesFrom(a, c)| < |LeavesFrom(a, i)|
    decreases c - i
  {
    if i < c {
      LaterLeavesFewer(a, i + 1, c);
      if WellFormed(a) {
        LeavesNonEmpty(Subs(a)[i]);
      }
    }
  }

  lemma {:induction false} ExecFromBounded(env: Env, a: Tree, i: nat, st: State, names: set<string>)
    requires Uninterrupted(env, names) && PipelineNames(a) <= names && !a.Leaf? && i <= |a.subs|
    ensures |ExecFrom(env, a, i, st).started| <= |st.started| + |LeavesFrom(a, i)|
    ensures Grows(env, a, names, st.log, ExecFrom(env, a, i, st).log)
    decreases a, 0, |a.subs| - i, 0
  {
    if i < |a.subs| {
      NamesOfSub(a, 0, i);
      ExecBounded(env, a.subs[i], st, names);
      var st1 := Exec(env, a.subs[i], st);
      if a.Sequential? && i + 1 < |a.subs| {
        YieldedCheckpoint(env, a, i, names, st, st1);
        ExecFromBounded(env, a, i + 1, Yield(st1, CheckpointEvent(a.name, env.invocationId, i + 1)), names);
      } else {
        ExecFromBounded(env, a, i + 1, st1, names);
      }
    }
  }

  lemma {:induction false} ExecTimesBounded(env: Env, a: Tree, n: nat, st: State, names: set<string>)
    requires Uninterrupted(env, names) && PipelineNames(a) <= names && a.Loop?
    ensures |ExecTimes(env, a, n, st).started| <= |st.started| + |Repeat(LeavesFrom(a, 0), n)|
    ensures Grows(env, a, names, st.log, ExecTimes(env, a, n, st).log)
    decreases a, 1, n, 0
  {
    if n > 0 {
      ExecFromBounded(env, a, 0, st, names);
      ExecTimesBounded(env, a, n - 1, ExecFrom(env, a, 0, st), names);
    }
  }

  // ---- Loop-safe trees run every declared leaf ---------------------------------------------------------

  /** The children from `i` on have no checkpoints. */
  ghost predicate FreshFrom(env: Env, a: Tree, i: nat, log: seq<Event>) {
    forall j | i <= j < |Subs(a)| :: Fresh(env, Subs(a)[j], log)
  }

  lemma FreshChildren(env: Env, a: Tree, log: seq<Event>)
    requires Fresh(env, a, log)
    ensures FreshFrom(env, a, 0, log)
  {
    forall j | 0 <= j < |Subs(a)| ensures Fresh(env, Subs(a)[j], log) {
      NamesOfSub(a, 0, j);
    }
  }

  /** State after child `i` and the checkpoint behind it, if there is one. */
  function Behind(env: Env, a: Tree, i: nat, st1: State): State
    requires !a.Leaf?
  {
    if a.Sequential? && i + 1 < |a.subs|
    then Yield(st1, CheckpointEvent(a.name, env.invocationId, i + 1)) else st1
  }

  /** Running child `i` leaves the later children fresh. */
  lemma LaterStayFresh(env: Env, a: Tree, i: nat, st: State, names: set<string>)
    requires Uninterrupted(env, names) && PipelineNames(a) <= names && DistinctNames(a)
    requires !a.Leaf? && i < |a.subs| && FreshFrom(env, a, i, st.log)
    ensures FreshFrom(env, a, i + 1, Behind(env, a, i, Exec(env, a.subs[i], st)).log)
    ensures Grows(env, a, names, st.log, Behind(env, a, i, Exec(env, a.subs[i], st)).log)
  {
    NamesOfSub(a, 0, i);
    ExecBounded(env, a.subs[i], st, names);
    var st1 := Exec(env, a.subs[i], st);
    if a.Sequential? && i + 1 < |a.subs| {
      YieldedCheckpoint(env, a, i, names, st, st1);
    }
    var st2 := Behind(env, a, i, st1);
    forall j | i + 1 <= j < |a.subs| ensures Fresh(env, a.subs[j], st2.log) {
      NamesOfSub(a, 0, j);
    }
  }

  lemma {:induction false} SafeExecComplete(env: Env, a: Tree, st: State, names: set<string>)
    requires Uninterrupted(env, names) && PipelineNames(a) <= names && DistinctNames(a)
    requires Fresh(env, a, st.log) && LoopSafe(a)
    ensures Exec(env, a, st).started == st.started + Leaves(a)
    decreases a, 2, 0, 0
  {
    FreshChildren(env, a, st.log);
    match a
    case Leaf(name) => LeafExec(env, name, st, names);
    case Sequential(_, _) => SafeFromComplete(env, a, 0, st, names);
    case Loop(_, _, n) => SafeTimesComplete(env, a, n, st, names);
  }

  lemma {:induction false} SafeFromComplete(env: Env, a: Tree, i: nat, st: State, names: set<string>)
    requires Uninterrupted(env, names) && PipelineNames(a) <= names && DistinctNames(a)
    requires !a.Leaf? && i <= |a.subs| && FreshFrom(env, a, i, st.log) && LoopSafe(a)
    ensures ExecFrom(env, a, i, st).started == st.started + LeavesFrom(a, i)
    decreases a, 0, |a.subs| - i, 0
  {
    if i < |a.subs| {
      NamesOfSub(a, 0, i);
      SafeExecComplete(env, a.subs[i], st, names);
      LaterStayFresh(env, a, i, st, names);
      SafeFromComplete(env, a, i + 1, Behind(env, a, i, Exec(env, a.subs[i], st)), names);
    }
  }

  lemma {:induction false} SafeTimesComplete(env: Env, a: Tree, n: nat, st: State, names: set<string>)
    requires Uninterrupted(env, names) && PipelineNames(a) <= names && DistinctNames(a)
    requires a.Loop? && n <= a.maxIterations && FreshFrom(env, a, 0, st.log) && LoopSafe(a)
    ensures ExecTimes(env, a, n, st).started == st.started + Repeat(LeavesFrom(a, 0), n)
    decreases a, 1, n, 0
  {
    if n > 0 {
      SafeFromComplete(env, a, 0, st, names);
      var st1 := ExecFrom(env, a, 0, st);
      hide ExecFrom;
      hide LeavesFrom;
      if n == 1 {
        assert ExecTimes(env, a, 0, st1) == st1;
      } else {
        SilentFromKeeps(env, a, 0, st, names);
        forall j | 0 <= j < |a.subs| ensures Fresh(env, a.subs[j], st1.log) {
          NamesOfSub(a, 0, j);
        }
        SafeTimesComplete(env, a, n - 1, st1, names);
      }
    }
  }

  /** A tree that writes no checkpoints changes none. */
  lemma {:induction false} SilentExecKeeps(env: Env, a: Tree, st: State, names: set<string>)
    requires Uninterrupted(env, names) && !WritesCheckpoints(a)
    ensures SameCheckpoints(env, names, st.log, Exec(env, a, st).log)
    decreases a, 2, 0, 0
  {
    match a
    case Leaf(name) => LeafExec(env, name, st, names);
    case Sequential(_, _) => SilentFromKeeps(env, a, Completed(env, st.log, a.name), st, names);
    case Loop(_, _, n) => SilentTimesKeeps(env, a, n, st, names);
  }

  lemma {:induction false} SilentFromKeeps(env: Env, a: Tree, i: nat, st: State, names: set<string>)
    requires Uninterrupted(env, names) && !a.Leaf? && !WritesCheckpoints(a)
    ensures SameCheckpoints(env, names, st.log, ExecFrom(env, a, i, st).log)
    decreases a, 0, |a.subs| - i, 0
  {
    if i < |a.subs| {
      SilentExecKeeps(env, a.subs[i], st, names);
      SilentFromKeeps(env, a, i + 1, Behind(env, a, i, Exec(env, a.subs[i], st)), names);
    }
  }

  lemma {:induction false} SilentTimesKeeps(env: Env, a: Tree, n: nat, st: State, names: set<string>)
    requires Uninterrupted(env, names) && a.Loop? && !WritesCheckpoints(a)
    ensures SameCheckpoints(env, names, st.log, ExecTimes(env, a, n, st).log)
    decreases a, 1, n, 0
  {
    if n > 0 {
      SilentFromKeeps(env, a, 0, st, names);
      SilentTimesKeeps(env, a, n - 1, ExecFrom(env, a, 0, st), names);
    }
  }

  // ---- Any other tree skips leaves ---------------------------------------------------------------------

  /** Every sequence that writes checkpoints has written one. */
  ghost predicate Marked(env: Env, a: Tree, log: seq<Event>) {
    !a.Leaf? ==>
      && (a.Sequential? && |a.subs| > 1 ==> Completed(env, log, a.name) > 0)
      && forall i | 0 <= i < |a.subs| :: Marked(env, a.subs[i], log)
  }

  lemma {:induction false} MarkedStays(env: Env, a: Tree, names: set<string>, log: seq<Event>, log': seq<Event>)
    requires PipelineNames(a) <= names && Marked(env, a, log)
    requires forall n | n in names && Completed(env, log, n) > 0 :: Completed(env, log', n) > 0
    ensures Marked(env, a, log')
    decreases a
  {
    if !a.Leaf? {
      forall i | 0 <= i < |a.subs| ensures Marked(env, a.subs[i], log') {
        NamesOfSub(a, 0, i);
        MarkedStays(env, a.subs[i], names, log, log');
      }
    }
  }

  /** After a first pass, everything is marked. */
  lemma {:induction false} FirstPassMarks(env: Env, a: Tree, st: State, names: set<string>)
    requires Uninterrupted(env, names) && PipelineNames(a) <= names && DistinctNames(a) && WellFormed(a)
    requires Fresh(env, a, st.log)
    ensures Marked(env, a, Exec(env, a, st).log)
    decreases a, 2, 0, 0
  {
    FreshChildren(env, a, st.log);
    if !a.Leaf? {
      FirstPassMarksFrom(env, a, 0, st, names);
      if a.Loop? {
        var st1 := ExecFrom(env, a, 0, st);
        assert Exec(env, a, st) == ExecTimes(env, a, a.maxIterations - 1, st1);
        ExecTimesBounded(env, a, a.maxIterations - 1, st1, names);
        MarkedStays(env, a, names, st1.log, Exec(env, a, st).log);
      }
    }
  }

  lemma {:induction false} FirstPassMarksFrom(env: Env, a: Tree, i: nat, st: State, names: set<string>)
    requires Uninterrupted(env, names) && PipelineNames(a) <= names && DistinctNames(a) && WellFormed(a)
    requires !a.Leaf? && i <= |a.subs| && FreshFrom(env, a, i, st.log)
    requires forall j | 0 <= j < i :: Marked(env, a.subs[j], st.log)
    requires a.Sequential? && i > 0 && |a.subs| > 1 ==> Completed(env, st.log, a.name) > 0
    ensures Marked(env, a, ExecFrom(env, a, i, st).log)
    decreases a, 0, |a.subs| - i, 0
  {
    if i < |a.subs| {
      NamesOfSub(a, 0, i);
      FirstPassMarks(env, a.subs[i], st, names);
      ExecBounded(env, a.subs[i], st, names);
      LaterStayFresh(env, a, i, st, names);
      var st1 := Exec(env, a.subs[i], st);
      var st2 := Behind(env, a, i, st1);
      if a.Sequential? && i + 1 < |a.subs| {
        YieldedCheckpoint(env, a, i, names, st, st1);
      }
      MarkedStays(env, a.subs[i], names, st1.log, st2.log);
      forall j | 0 <= j < i ensures Marked(env, a.subs[j], st2.log) {
        NamesOfSub(a, 0, j);
        MarkedStays(env, a.subs[j], names, st.log, st2.log);
      }
      FirstPassMarksFrom(env, a, i + 1, st2, names);
    }
  }

  /** A marked tree that writes checkpoints runs fewer leaves than it declares. */
  lemma {:induction false} MarkedSkips(env: Env, a: Tree, st: State, names: set<string>)
    requires Uninterrupted(env, names) && PipelineNames(a) <= names && WellFormed(a)
    requires Marked(env, a, st.log) && WritesCheckpoints(a)
    ensures |Exec(env, a, st).started| < |st.started| + |Leaves(a)|
    decreases a, 2, 0, 0
  {
    if a.Sequential? && |a.subs| > 1 {
      var c := Completed(env, st.log, a.name);
      if c < |a.subs| {
        ExecFromBounded(env, a, c, st, names);
        LaterLeavesFewer(a, 0, c);
      } else {
        LeavesNonEmpty(a);
      }
    } else {
      var k :| 0 <= k < |a.subs| && WritesCheckpoints(a.subs[k]);
      if a.Sequential? {
        if Completed(env, st.log, a.name) == 0 {
          MarkedSkipsFrom(env, a, 0, k, st, names);
        } else {
          LeavesNonEmpty(a);
        }
      } else {
        MarkedSkipsFrom(env, a, 0, k, st, names);
        ExecTimesBounded(env, a, a.maxIterations - 1, ExecFrom(env, a, 0, st), names);
      }
    }
  }

  lemma {:induction false} MarkedSkipsFrom(env: Env, a: Tree, i: nat, k: nat, st: State, names: set<string>)
    requires Uninterrupted(env, names) && PipelineNames(a) <= names && WellFormed(a)
    requires !a.Leaf? && i <= k < |a.subs| && WritesCheckpoints(a.subs[k])
    requires forall j | 0 <= j < |a.subs| :: Marked(env, a.subs[j], st.log)
    ensures |ExecFrom(env, a, i, st).started| < |st.started| + |LeavesFrom(a, i)|
    decreases a, 0, |a.subs| - i, 0
  {
    NamesOfSub(a, 0, i);
    ExecBounded(env, a.subs[i], st, names);
    var st1 := Exec(env, a.subs[i], st);
    var st2 := Behind(env, a, i, st1);
    if a.Sequential? && i + 1 < |a.subs| {
      YieldedCheckpoint(env, a, i, names, st, st1);
    }
    if i == k {
      MarkedSkips(env, a.subs[k], st, names);
      ExecFromBounded(env, a, i + 1, st2, names);
    } else {
      forall j | 0 <= j < |a.subs| ensures Marked(env, a.subs[j], st2.log) {
        NamesOfSub(a, 0, j);
        MarkedStays(env, a.subs[j], names, st.log, st2.log);
      }
      MarkedSkipsFrom(env, a, i + 1, k, st2, names);
    }
  }

  lemma {:induction false} UnsafeExecSkips(env: Env, a: Tree, st: State, names: set<string>)
    requires Uninterrupted(env, names) && PipelineNames(a) <= names && DistinctNames(a) && WellFormed(a)
    requires Fresh(env, a, st.log) && !LoopSafe(a)
    ensures |Exec(env, a, st).started| < |st.started| + |Leaves(a)|
    decreases a, 2, 0, 0
  {
    FreshChildren(env, a, st.log);
    if i :| 0 <= i < |a.subs| && !LoopSafe(a.subs[i]) {
      UnsafeFromSkips(env, a, 0, i, st, names);
      if a.Loop? {
        ExecTimesBounded(env, a, a.maxIterations - 1, ExecFrom(env, a, 0, st), names);
      }
    } else {
      var k :| 0 <= k < |a.subs| && WritesCheckpoints(a.subs[k]);
      SecondIterationSkips(env, a, k, st, names);
    }
  }

  lemma {:induction false} UnsafeFromSkips(env: Env, a: Tree, i: nat, k: nat, st: State, names: set<string>)
    requires Uninterrupted(env, names) && PipelineNames(a) <= names && DistinctNames(a) && WellFormed(a)
    requires !a.Leaf? && i <= k < |a.subs| && FreshFrom(env, a, i, st.log) && !LoopSafe(a.subs[k])
    ensures |ExecFrom(env, a, i, st).started| < |st.started| + |LeavesFrom(a, i)|
    decreases a, 0, |a.subs| - i, 0
  {
    NamesOfSub(a, 0, i);
    ExecBounded(env, a.subs[i], st, names);
    LaterStayFresh(env, a, i, st, names);
    var st2 := Behind(env, a, i, Exec(env, a.subs[i], st));
    if i == k {
      UnsafeExecSkips(env, a.subs[k], st, names);
      ExecFromBounded(env, a, i + 1, st2, names);
    } else {
      UnsafeFromSkips(env, a, i + 1, k, st2, names);
    }
  }

  lemma SecondIterationSkips(env: Env, a: Tree, k: nat, st: State, names: set<string>)
    requires Uninterrupted(env, names) && PipelineNames(a) <= names && DistinctNames(a) && WellFormed(a)
    requires a.Loop? && a.maxIterations > 1 && k < |a.subs| && WritesCheckpoints(a.subs[k])
    requires FreshFrom(env, a, 0, st.log)
    ensures |Exec(env, a, st).started| < |st.started| + |Leaves(a)|
  {
    var n, once := a.maxIterations, LeavesFrom(a, 0);
    FirstPassMarksFrom(env, a, 0, st, names);
    ExecFromBounded(env, a, 0, st, names);
    var st1 := ExecFrom(env, a, 0, st);
    MarkedSkipsFrom(env, a, 0, k, st1, names);
    var st2 := ExecFrom(env, a, 0, st1);
    ExecTimesBounded(env, a, n - 2, st2, names);
    hide ExecFrom;
    hide LeavesFrom;
    assert ExecTimes(env, a, n, st) == ExecTimes(env, a, n - 1, st1) == ExecTimes(env, a, n - 2, st2);
    assert Repeat(once, n) == once + Repeat(once, n - 1);
    assert Repeat(once, n - 1) == once + Repeat(once, n - 2);
  }

  // ---- The exact condition -----------------------------------------------------------------------------

  /**
   * With resumability on, an uninterrupted run of a fresh invocation starts every declared leaf, in order, if and
   * only if no loop of two or more iterations encloses a sequence of two or more children.
   */
  lemma ResumabilityIsHarmlessIffLoopSafe(env: Env, root: Tree, st: State)
    requires Uninterrupted(env, PipelineNames(root)) && DistinctNames(root) && WellFormed(root)
    requires !st.paused && Fresh(env, root, st.log)
    ensures Run(env, root, st).0.started == st.started + Leaves(root) <==> LoopSafe(root)
  {
    var names := PipelineNames(root);
    RunIsExec(env, root, st, names);
    if LoopSafe(root) {
      SafeExecComplete(env, root, st, names);
    } else {
      UnsafeExecSkips(env, root, st, names);
    }
  }

  /** The smallest instance: two iterations of a two-step pipeline start fewer leaves than the declared four. */
  lemma LoopedPipelineSkips(env: Env, st: State)
    requires Uninterrupted(env, {"loop", "steps"}) && !st.paused
    requires Completed(env, st.log, "loop") == 0 && Completed(env, st.log, "steps") == 0
    ensures var pipeline := Sequential("steps", [Leaf("draft"), Leaf("review")]);
            |Run(env, Loop("loop", [pipeline], 2), st).0.started| < |st.started| + 4
  {
    var pipeline := Sequential("steps", [Leaf("draft"), Leaf("review")]);
    var root := Loop("loop", [pipeline], 2);
    assert PipelineNames(pipeline) == {"steps"} by {
      assert NamesFrom(pipeline, 2) == {} && NamesFrom(pipeline, 1) == {} && NamesFrom(pipeline, 0) == {};
    }
    assert NamesFrom(root, 1) == {} && NamesFrom(root, 0) == {"steps"};
    assert PipelineNames(root) == {"loop", "steps"};
    assert WritesCheckpoints(root.subs[0]);
    assert DistinctNames(pipeline);
    assert LeavesFrom(pipeline, 2) == [] && LeavesFrom(pipeline, 1) == ["review"];
    assert Leaves(pipeline) == ["draft", "review"];
    assert LeavesFrom(root, 1) == [] && LeavesFrom(root, 0) == Leaves(pipeline);
    assert Repeat(Leaves(pipeline), 2) == Leaves(pipeline) + (Leaves(pipeline) + Repeat(Leaves(pipeline), 0));
    RunIsExec(env, root, st, PipelineNames(root));
    UnsafeExecSkips(env, root, st, PipelineNames(root));
  }
}
