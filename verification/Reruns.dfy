/**
 * Whether a resume runs a finished leaf again (src/agents/sequential_agent.rs:98-135, src/agents/loop_agent.rs:58-87).
 *
 * Resuming is documented never to run finished steps again.  A loop keeps no checkpoint, so it begins anew; the promise
 * is kept for exactly the trees whose loops run one child once.
 */
module Reruns {
  import opened Genai
  import opened Workflow
  import opened WorkflowLaws
  import opened Resume
  import opened ResumeUnderLoops

  // ---- Trees -------------------------------------------------------------------------------------------

  /** Every loop runs one child once. */
  predicate OnePass(a: Tree) {
    !a.Leaf? ==> (a.Loop? ==> RunsOnce(a)) && forall i | 0 <= i < |a.subs| :: OnePass(a.subs[i])
  }

  /** Every loop has one iteration. */
  predicate SinglePass(a: Tree) {
    !a.Leaf? ==> (a.Loop? ==> a.maxIterations == 1) && forall i | 0 <= i < |a.subs| :: SinglePass(a.subs[i])
  }

  /** The names of the leaves, each leaf once. */
  function LeafNames(a: Tree): seq<string>
    decreases a, 1, 0
  {
    if a.Leaf? then [a.name] else LeafNamesFrom(a, 0)
  }

  function LeafNamesFrom(a: Tree, i: nat): seq<string>
    requires i <= |Subs(a)|
    decreases a, 0, |Subs(a)| - i
  {
    if i == |Subs(a)| then [] else LeafNames(Subs(a)[i]) + LeafNamesFrom(a, i + 1)
  }

  predicate NoRepeats(names: seq<string>) {
    forall i, j | 0 <= i < j < |names| :: names[i] != names[j]
  }

  /** No two agents share a name: neither leaves nor the sequences and loops above them. */
  ghost predicate AllDistinct(a: Tree) {
    DistinctNames(a) && NoRepeats(LeafNames(a))
  }

  // ---- The promise -------------------------------------------------------------------------------------

  /**
   * The run from `st` to `st1` starts a leaf that had finished: before this run, or in this run, where a leaf that does
   * not finish ends the run.
   */
  ghost predicate RunsAgain(st: State, st1: State) {
    exists i :: |st.started| <= i < |st1.started| && Again(st, st1, i)
  }

  ghost predicate Again(st: State, st1: State, i: nat)
    requires i < |st1.started|
  {
    st1.started[i] in st.finished || exists j :: |st.started| <= j < i && st1.started[j] == st1.started[i]
  }

  /** No run and no resume runs a finished leaf again. */
  ghost predicate Keeps(env: Env, root: Tree, st: State, inputs: seq<seq<Event>>)
    decreases inputs
  {
    var st1 := Run(env, root, st).0;
    && !RunsAgain(st, st1)
    && (st1.paused && inputs != [] ==> Keeps(env, root, Reopen(st1, inputs[0]), inputs[1..]))
  }

  function Opened(log: seq<Event>): State { State(log, 0, false, [], []) }

  /** In every calm environment, from every fresh log, over any rounds of pausing and resuming. */
  ghost predicate NeverRunsAgain(root: Tree) {
    forall env, log, inputs
      | Calm(env, PipelineNames(root)) && Fresh(env, root, log) && NeutralInputs(env, root, inputs) ::
      Keeps(env, root, Opened(log), inputs)
  }

  // ---- One pass keeps the promise ----------------------------------------------------------------------

  lemma {:induction false} OnePassIsPipeline(a: Tree)
    requires OnePass(a) && DistinctNames(a) && WellFormed(a)
    ensures Pipeline(a) && Leaves(a) == LeafNames(a)
    decreases a, 1, 0
  {
    if !a.Leaf? {
      forall i | 0 <= i < |a.subs| ensures Pipeline(a.subs[i]) {
        OnePassIsPipeline(a.subs[i]);
      }
      OnePassLeaves(a, 0);
      if a.Loop? {
        OnceLeaves(a);
        assert LeafNamesFrom(a, 1) == [];
        OnePassIsPipeline(a.subs[0]);
      }
    }
  }

  lemma {:induction false} OnePassLeaves(a: Tree, i: nat)
    requires OnePass(a) && DistinctNames(a) && WellFormed(a) && !a.Leaf? && i <= |a.subs|
    ensures LeavesFrom(a, i) == LeafNamesFrom(a, i)
    decreases a, 0, |a.subs| - i
  {
    if i < |a.subs| {
      OnePassIsPipeline(a.subs[i]);
      OnePassLeaves(a, i + 1);
    }
  }

  /** What remains in a pipeline is new: a run works off a front part of it. */
  lemma FrontIsNew(st: State, st1: State, todo: seq<string>, left: seq<string>)
    requires NoRepeats(st.finished + todo) && Advanced(st, st1, todo, left)
    ensures !RunsAgain(st, st1)
  {
    var k := if st1.paused then |todo| - |left| + 1 else |todo|;
    assert st1.started == st.started + todo[..k] by {
      assert todo[..|todo|] == todo;
    }
    var all, n, m := st.finished + todo, |st.finished|, |st.started|;
    forall i | m <= i < |st1.started| ensures !Again(st, st1, i) {
      assert st1.started[i] == todo[i - m] == all[n + i - m];
      forall f | 0 <= f < n ensures st.finished[f] != st1.started[i] {
        assert all[f] == st.finished[f];
      }
      forall j | m <= j < i ensures st1.started[j] != st1.started[i] {
        assert st1.started[j] == all[n + j - m];
      }
    }
  }

  lemma {:induction false} PipelineKeeps(env: Env, root: Tree, st: State, inputs: seq<seq<Event>>)
    requires Calm(env, PipelineNames(root)) && Pipeline(root) && NeutralInputs(env, root, inputs)
    requires !st.paused && Consistent(env, root, st.log) && NoRepeats(Leaves(root))
    requires st.finished + Remaining(env, root, st.log) == Leaves(root)
    ensures Keeps(env, root, st, inputs)
    decreases inputs
  {
    hide Run, Remaining, Consistent, Pipeline, Calm, Leaves, RunsAgain;
    var names := PipelineNames(root);
    RunAdvances(env, root, st, names);
    var st1 := Run(env, root, st).0;
    var todo, left := Remaining(env, root, st.log), Remaining(env, root, st1.log);
    FrontIsNew(st, st1, todo, left);
    if st1.paused && inputs != [] {
      var k := |todo| - |left|;
      assert todo == todo[..k] + todo[k..];
      assert st1.finished + left == st.finished + (todo[..k] + todo[k..]);
      assert inputs[0] in inputs && forall input | input in inputs[1..] :: input in inputs;
      var st2 := Reopen(st1, inputs[0]);
      NeutralEventsKeepCheckpoints(env, names, st1.log, inputs[0]);
      SameCheckpointsSameProgress(env, root, st1.log, st2.log);
      PipelineKeeps(env, root, st2, inputs[1..]);
    }
  }

  // ---- Environments that pause at one leaf, or nowhere -------------------------------------------------

  /** Leaves that say nothing and finish, all but those that pause. */
  function PausesAt(pausing: set<string>): Env {
    Env("", true, _ => false, (name: string, _: State) => LeafRun([], if name in pausing then Pauses else Finishes))
  }

  const QUIET: Env := PausesAt({})

  lemma QuietIsUninterrupted(names: set<string>, pausing: set<string>)
    ensures Uninterrupted(QUIET, names) && Calm(PausesAt(pausing), names)
  {
  }

  /** A tree without pausing leaves does what it does where none pauses. */
  lemma {:induction false} NonePauses(a: Tree, st: State, pausing: set<string>)
    requires forall x | x in LeafNames(a) :: x !in pausing
    ensures Run(PausesAt(pausing), a, st) == Run(QUIET, a, st)
    decreases a, 3, 0, 0
  {
    match a
    case Leaf(name) => assert name in LeafNames(a);
    case Sequential(_, _) => NonePausesSubs(a, StartIndex(QUIET, a, st), st, pausing);
    case Loop(_, _, n) => NonePausesTimes(a, n, st, pausing);
  }

  lemma {:induction false} LeafOfSub(a: Tree, i: nat, k: nat)
    requires i <= k < |Subs(a)|
    ensures forall x | x in LeafNames(Subs(a)[k]) :: x in LeafNamesFrom(a, i)
    decreases k - i
  {
    if i < k {
      LeafOfSub(a, i + 1, k);
    }
  }

  lemma {:induction false} NonePausesSubs(a: Tree, i: nat, st: State, pausing: set<string>)
    requires a.Sequential? && forall x | x in LeafNames(a) :: x !in pausing
    ensures RunSubs(PausesAt(pausing), a, i, st) == RunSubs(QUIET, a, i, st)
    decreases a, 1, |a.subs| - i, 0
  {
    if i < |a.subs| {
      LeafOfSub(a, 0, i);
      NonePauses(a.subs[i], st, pausing);
      var st1 := Run(QUIET, a.subs[i], st).0;
      NonePausesSubs(a, i + 1, st1, pausing);
      NonePausesSubs(a, i + 1, Yield(st1, CheckpointEvent(a.name, "", i + 1)), pausing);
    }
  }

  lemma {:induction false} NonePausesTimes(a: Tree, n: nat, st: State, pausing: set<string>)
    requires a.Loop? && forall x | x in LeafNames(a) :: x !in pausing
    ensures RunIterations(PausesAt(pausing), a, n, st) == RunIterations(QUIET, a, n, st)
    decreases a, 1, n, 1
  {
    if n > 0 {
      NonePausesBody(a, 0, st, pausing);
      NonePausesTimes(a, n - 1, RunBody(QUIET, a, 0, st).0, pausing);
    }
  }

  lemma {:induction false} NonePausesBody(a: Tree, j: nat, st: State, pausing: set<string>)
    requires a.Loop? && j <= |a.subs| && forall x | x in LeafNames(a) :: x !in pausing
    ensures RunBody(PausesAt(pausing), a, j, st) == RunBody(QUIET, a, j, st)
    decreases a, 0, |a.subs| - j, 0
  {
    if j < |a.subs| {
      LeafOfSub(a, 0, j);
      NonePauses(a.subs[j], st, pausing);
      NonePausesBody(a, j + 1, Run(QUIET, a.subs[j], st).0, pausing);
    }
  }

  // ---- What a run starts with --------------------------------------------------------------------------

  /** No checkpoint says that all children of a sequence are done. */
  ghost predicate InRange(a: Tree, log: seq<Event>) {
    !a.Leaf? ==>
      && (a.Sequential? ==> Completed(QUIET, log, a.name) < |a.subs|)
      && forall i | 0 <= i < |a.subs| :: InRange(a.subs[i], log)
  }

  lemma {:induction false} FreshInRange(a: Tree, log: seq<Event>)
    requires Fresh(QUIET, a, log) && WellFormed(a)
    ensures InRange(a, log)
    decreases a
  {
    if !a.Leaf? {
      forall i | 0 <= i < |a.subs| ensures InRange(a.subs[i], log) {
        NamesOfSub(a, 0, i);
        FreshInRange(a.subs[i], log);
      }
    }
  }

  lemma {:induction false} InRangeStays(a: Tree, log: seq<Event>, log': seq<Event>)
    requires InRange(a, log) && SameCheckpoints(QUIET, PipelineNames(a), log, log')
    ensures InRange(a, log')
    decreases a
  {
    if !a.Leaf? {
      forall i | 0 <= i < |a.subs| ensures InRange(a.subs[i], log') {
        NamesOfSub(a, 0, i);
        InRangeStays(a.subs[i], log, log');
      }
    }
  }

  /** The leaf that a run of the tree starts first. */
  function NextLeaf(a: Tree, log: seq<Event>): string {
    match a
    case Leaf(name) => name
    case Sequential(name, subs) =>
      var c := Completed(QUIET, log, name);
      if c < |subs| then NextLeaf(subs[c], log) else ""
    case Loop(_, subs, _) => if subs == [] then "" else NextLeaf(subs[0], log)
  }

  lemma {:induction false} NextIsLeaf(a: Tree, log: seq<Event>)
    requires WellFormed(a) && InRange(a, log)
    ensures NextLeaf(a, log) in LeafNames(a)
    decreases a
  {
    if !a.Leaf? {
      var c := if a.Loop? then 0 else Completed(QUIET, log, a.name);
      NextIsLeaf(a.subs[c], log);
      LeafOfSub(a, 0, c);
    }
  }

  /** A run of the tree only adds to the leaves started. */
  lemma {:induction false} RunExtends(env: Env, a: Tree, st: State)
    ensures st.started <= Run(env, a, st).0.started
    decreases a, 3, 0, 0
  {
    match a
    case Leaf(name) => ForwardStarts(st.(started := st.started + [name]), env.leaf(name, st).events);
    case Sequential(_, _) => SubsExtend(env, a, StartIndex(env, a, st), st);
    case Loop(_, _, n) => TimesExtend(env, a, n, st);
  }

  lemma {:induction false} ForwardStarts(st: State, events: seq<Event>)
    ensures Forward(st, events).0.started == st.started
    decreases events
  {
    if events != [] && !Escalates(events[0]) {
      ForwardStarts(Yield(st, events[0]), events[1..]);
    }
  }

  lemma {:induction false} SubsExtend(env: Env, a: Tree, i: nat, st: State)
    requires a.Sequential?
    ensures st.started <= RunSubs(env, a, i, st).0.started
    decreases a, 1, |a.subs| - i, 0
  {
    if i < |a.subs| {
      RunExtends(env, a.subs[i], st);
      var st1 := Run(env, a.subs[i], st).0;
      SubsExtend(env, a, i + 1, st1);
      SubsExtend(env, a, i + 1, Yield(st1, CheckpointEvent(a.name, env.invocationId, i + 1)));
    }
  }

  lemma {:induction false} TimesExtend(env: Env, a: Tree, n: nat, st: State)
    requires a.Loop?
    ensures st.started <= RunIterations(env, a, n, st).0.started
    decreases a, 1, n, 1
  {
    if n > 0 {
      BodyExtends(env, a, 0, st);
      TimesExtend(env, a, n - 1, RunBody(env, a, 0, st).0);
    }
  }

  lemma {:induction false} BodyExtends(env: Env, a: Tree, j: nat, st: State)
    requires a.Loop? && j <= |a.subs|
    ensures st.started <= RunBody(env, a, j, st).0.started
    decreases a, 0, |a.subs| - j, 0
  {
    if j < |a.subs| {
      RunExtends(env, a.subs[j], st);
      BodyExtends(env, a, j + 1, Run(env, a.subs[j], st).0);
    }
  }

  /** The first leaf that the run from `st` to `st1` starts. */
  ghost predicate StartsWith(st: State, st1: State, name: string) {
    st.started + [name] <= st1.started
  }

  lemma {:induction false} RunStartsWith(a: Tree, st: State, pausing: set<string>)
    requires WellFormed(a) && InRange(a, st.log)
    ensures StartsWith(st, Run(PausesAt(pausing), a, st).0, NextLeaf(a, st.log))
    decreases a
  {
    var env := PausesAt(pausing);
    match a
    case Leaf(name) => ForwardStarts(st.(started := st.started + [name]), env.leaf(name, st).events);
    case Sequential(name, _) =>
      var c := Completed(QUIET, st.log, name);
      RunStartsWith(a.subs[c], st, pausing);
      var st1 := Run(env, a.subs[c], st).0;
      SubsExtend(env, a, c + 1, st1);
      SubsExtend(env, a, c + 1, Yield(st1, CheckpointEvent(name, "", c + 1)));
    case Loop(_, _, n) =>
      RunStartsWith(a.subs[0], st, pausing);
      BodyExtends(env, a, 1, Run(env, a.subs[0], st).0);
      TimesExtend(env, a, n - 1, RunBody(env, a, 0, st).0);
  }

  // ---- A quiet first pass ------------------------------------------------------------------------------

  /** What a quiet run starts it finishes, in the same order. */
  ghost predicate FinishesAll(st: State, st1: State) {
    st.started <= st1.started && st1.finished == st.finished + st1.started[|st.started|..]
  }

  lemma FinishesThen(a: State, b: State, c: State)
    requires FinishesAll(a, b) && FinishesAll(b, c)
    ensures FinishesAll(a, c)
  {
    assert c.started[|a.started|..] == b.started[|a.started|..] + c.started[|b.started|..];
  }

  lemma {:induction false} ExecFinishes(a: Tree, st: State)
    ensures FinishesAll(st, Exec(QUIET, a, st))
    decreases a, 2, 0, 0
  {
    match a
    case Leaf(name) => assert Forward(st.(started := st.started + [name]), []).0.started == st.started + [name];
    case Sequential(_, _) =>
      assert FinishesAll(st, st);
      if Completed(QUIET, st.log, a.name) < |a.subs| {
        ExecFromFinishes(a, Completed(QUIET, st.log, a.name), st);
      }
    case Loop(_, _, n) => ExecTimesFinishes(a, n, st);
  }

  lemma {:induction false} ExecFromFinishes(a: Tree, i: nat, st: State)
    requires !a.Leaf? && i <= |a.subs|
    ensures FinishesAll(st, ExecFrom(QUIET, a, i, st))
    decreases a, 0, |a.subs| - i, 0
  {
    if i < |a.subs| {
      var st1 := Exec(QUIET, a.subs[i], st);
      var st2 := Behind(QUIET, a, i, st1);
      ExecFinishes(a.subs[i], st);
      assert FinishesAll(st, st2);
      ExecFromFinishes(a, i + 1, st2);
      FinishesThen(st, st2, ExecFrom(QUIET, a, i + 1, st2));
    }
  }

  lemma {:induction false} ExecTimesFinishes(a: Tree, n: nat, st: State)
    requires a.Loop?
    ensures FinishesAll(st, ExecTimes(QUIET, a, n, st))
    decreases a, 1, n, 0
  {
    if n > 0 {
      var st1 := ExecFrom(QUIET, a, 0, st);
      ExecFromFinishes(a, 0, st);
      ExecTimesFinishes(a, n - 1, st1);
      FinishesThen(st, st1, ExecTimes(QUIET, a, n - 1, st1));
    }
  }

  /** All of `names` are started between the two states. */
  ghost predicate StartsAll(st: State, st1: State, names: seq<string>) {
    st.started <= st1.started && forall x | x in names :: x in st1.started[|st.started|..]
  }

  lemma StartsThen(a: State, b: State, c: State, xs: seq<string>, ys: seq<string>)
    requires StartsAll(a, b, xs) && StartsAll(b, c, ys)
    ensures StartsAll(a, c, xs + ys)
  {
    assert c.started[|a.started|..] == b.started[|a.started|..] + c.started[|b.started|..];
  }

  /** A first pass starts every leaf. */
  lemma {:induction false} FirstPassStarts(a: Tree, st: State, names: set<string>)
    requires PipelineNames(a) <= names && DistinctNames(a) && WellFormed(a) && Fresh(QUIET, a, st.log)
    ensures StartsAll(st, Exec(QUIET, a, st), LeafNames(a))
    decreases a, 2, 0, 0
  {
    FreshChildren(QUIET, a, st.log);
    match a
    case Leaf(name) => assert Forward(st.(started := st.started + [name]), []).0.started == st.started + [name];
    case Sequential(_, _) => FirstPassStartsFrom(a, 0, st, names);
    case Loop(_, _, n) =>
      FirstPassStartsFrom(a, 0, st, names);
      var st1 := ExecFrom(QUIET, a, 0, st);
      ExecTimesFinishes(a, n - 1, st1);
      StartsThen(st, st1, ExecTimes(QUIET, a, n - 1, st1), LeafNames(a), []);
      assert LeafNames(a) + [] == LeafNames(a);
  }

  lemma {:induction false} FirstPassStartsFrom(a: Tree, i: nat, st: State, names: set<string>)
    requires PipelineNames(a) <= names && DistinctNames(a) && WellFormed(a)
    requires !a.Leaf? && i <= |a.subs| && FreshFrom(QUIET, a, i, st.log)
    ensures StartsAll(st, ExecFrom(QUIET, a, i, st), LeafNamesFrom(a, i))
    decreases a, 0, |a.subs| - i, 0
  {
    if i < |a.subs| {
      var st1 := Exec(QUIET, a.subs[i], st);
      var st2 := Behind(QUIET, a, i, st1);
      NamesOfSub(a, 0, i);
      FirstPassStarts(a.subs[i], st, names);
      QuietIsUninterrupted(names, {});
      LaterStayFresh(QUIET, a, i, st, names);
      FirstPassStartsFrom(a, i + 1, st2, names);
      assert StartsAll(st, st2, LeafNames(a.subs[i]));
      StartsThen(st, st2, ExecFrom(QUIET, a, i + 1, st2), LeafNames(a.subs[i]), LeafNamesFrom(a, i + 1));
    }
  }

  /** A quiet run leaves the checkpoints in range. */
  lemma {:induction false} ExecInRange(a: Tree, st: State, names: set<string>)
    requires PipelineNames(a) <= names && DistinctNames(a) && InRange(a, st.log)
    ensures InRange(a, Exec(QUIET, a, st).log)
    decreases a, 2, 0, 0
  {
    QuietIsUninterrupted(names, {});
    match a
    case Leaf(name) => LeafExec(QUIET, name, st, names);
    case Sequential(_, _) => ExecFromInRange(a, Completed(QUIET, st.log, a.name), st, names);
    case Loop(_, _, n) => ExecTimesInRange(a, n, st, names);
  }

  lemma {:induction false} ExecFromInRange(a: Tree, i: nat, st: State, names: set<string>)
    requires PipelineNames(a) <= names && DistinctNames(a) && InRange(a, st.log) && !a.Leaf? && i <= |a.subs|
    ensures InRange(a, ExecFrom(QUIET, a, i, st).log)
    decreases a, 0, |a.subs| - i, 0
  {
    if i < |a.subs| {
      StepInRange(a, i, st, names);
      ExecFromInRange(a, i + 1, Behind(QUIET, a, i, Exec(QUIET, a.subs[i], st)), names);
    }
  }

  lemma {:induction false} StepInRange(a: Tree, i: nat, st: State, names: set<string>)
    requires PipelineNames(a) <= names && DistinctNames(a) && InRange(a, st.log) && !a.Leaf? && i < |a.subs|
    ensures InRange(a, Behind(QUIET, a, i, Exec(QUIET, a.subs[i], st)).log)
    decreases a, 0, 0, 0
  {
    var st1 := Exec(QUIET, a.subs[i], st);
    var st2 := Behind(QUIET, a, i, st1);
    NamesOfSub(a, 0, i);
    QuietIsUninterrupted(names, {});
    ExecBounded(QUIET, a.subs[i], st, names);
    ExecInRange(a.subs[i], st, names);
    if a.Sequential? && i + 1 < |a.subs| {
      CheckpointIsLatest(QUIET, st1.log, a.name, i + 1);
    }
    forall j | 0 <= j < |a.subs| ensures InRange(a.subs[j], st2.log) {
      NamesOfSub(a, 0, j);
      InRangeStays(a.subs[j], if j == i then st1.log else st.log, st2.log);
    }
  }

  lemma {:induction false} ExecTimesInRange(a: Tree, n: nat, st: State, names: set<string>)
    requires PipelineNames(a) <= names && DistinctNames(a) && InRange(a, st.log) && a.Loop?
    ensures InRange(a, ExecTimes(QUIET, a, n, st).log)
    decreases a, 1, n, 0
  {
    if n > 0 {
      ExecFromInRange(a, 0, st, names);
      ExecTimesInRange(a, n - 1, ExecFrom(QUIET, a, 0, st), names);
    }
  }

  // ---- A second iteration runs finished leaves again ---------------------------------------------------

  /** Some leaf is started twice after position `n`. */
  ghost predicate TwiceAfter(n: nat, started: seq<string>) {
    exists i, j :: n <= j < i < |started| && started[j] == started[i]
  }

  lemma TwiceWidens(m: nat, n: nat, started: seq<string>, more: seq<string>)
    requires TwiceAfter(n, started) && m <= n && started <= more
    ensures TwiceAfter(m, more)
  {
    var i, j :| n <= j < i < |started| && started[j] == started[i];
    assert more[i] == started[i] && more[j] == started[j];
  }

  lemma TwiceAcross(n: nat, started: seq<string>, x: string, more: seq<string>)
    requires n <= |started| && x in started[n..] && started + [x] <= more
    ensures TwiceAfter(n, more)
  {
    var j :| 0 <= j < |started[n..]| && started[n..][j] == x;
    assert (started + [x])[n + j] == x && (started + [x])[|started|] == x;
    assert more[n + j] == x == more[|started|];
  }

  lemma {:induction false} RepeatsLeaf(a: Tree, st: State, names: set<string>)
    requires PipelineNames(a) <= names && DistinctNames(a) && WellFormed(a) && Fresh(QUIET, a, st.log)
    requires !SinglePass(a) && !st.paused
    ensures TwiceAfter(|st.started|, Exec(QUIET, a, st).started)
    decreases a, 2, 0, 0
  {
    FreshChildren(QUIET, a, st.log);
    if a.Loop? && a.maxIterations > 1 {
      SecondIterationRepeats(a, st, names);
    } else {
      var k :| 0 <= k < |a.subs| && !SinglePass(a.subs[k]);
      RepeatsLeafFrom(a, 0, k, st, names);
      if a.Loop? {
        var st1 := ExecFrom(QUIET, a, 0, st);
        assert Exec(QUIET, a, st) == ExecTimes(QUIET, a, 0, st1) == st1;
      }
    }
  }

  lemma {:induction false} RepeatsLeafFrom(a: Tree, i: nat, k: nat, st: State, names: set<string>)
    requires PipelineNames(a) <= names && DistinctNames(a) && WellFormed(a) && !st.paused
    requires !a.Leaf? && i <= k < |a.subs| && FreshFrom(QUIET, a, i, st.log) && !SinglePass(a.subs[k])
    ensures TwiceAfter(|st.started|, ExecFrom(QUIET, a, i, st).started)
    decreases a, 0, |a.subs| - i, 0
  {
    var st1 := Exec(QUIET, a.subs[i], st);
    var st2 := Behind(QUIET, a, i, st1);
    NamesOfSub(a, 0, i);
    QuietIsUninterrupted(names, {});
    LaterStayFresh(QUIET, a, i, st, names);
    RunIsExec(QUIET, a.subs[i], st, names);
    ExecFinishes(a.subs[i], st);
    ExecFromFinishes(a, i + 1, st2);
    var end := ExecFrom(QUIET, a, i + 1, st2).started;
    if i == k {
      RepeatsLeaf(a.subs[k], st, names);
      TwiceWidens(|st.started|, |st.started|, st1.started, end);
    } else {
      RepeatsLeafFrom(a, i + 1, k, st2, names);
      TwiceWidens(|st.started|, |st2.started|, end, end);
    }
  }

  /** The second iteration begins with a leaf of the first one. */
  lemma SecondIterationBegins(a: Tree, st: State, names: set<string>)
    requires PipelineNames(a) <= names && DistinctNames(a) && WellFormed(a) && Fresh(QUIET, a, st.log)
    requires a.Loop? && !st.paused
    ensures TwiceAfter(|st.started|, Exec(QUIET, a.subs[0], ExecFrom(QUIET, a, 0, st)).started)
  {
    var st1 := ExecFrom(QUIET, a, 0, st);
    FreshChildren(QUIET, a, st.log);
    FirstPassStartsFrom(a, 0, st, names);
    FreshInRange(a, st.log);
    ExecFromInRange(a, 0, st, names);
    QuietIsUninterrupted(names, {});
    BodyIsExec(QUIET, a, 0, st, names);
    RunStartsWith(a.subs[0], st1, {});
    RunIsExec(QUIET, a.subs[0], st1, names);
    NextIsLeaf(a.subs[0], st1.log);
    LeafOfSub(a, 0, 0);
    hide ExecFrom, Exec, Run, RunBody, InRange, FreshFrom, Fresh;
    TwiceAcross(|st.started|, st1.started, NextLeaf(a.subs[0], st1.log), Exec(QUIET, a.subs[0], st1).started);
  }

  lemma SecondIterationRepeats(a: Tree, st: State, names: set<string>)
    requires PipelineNames(a) <= names && DistinctNames(a) && WellFormed(a) && Fresh(QUIET, a, st.log)
    requires a.Loop? && a.maxIterations > 1 && !st.paused
    ensures TwiceAfter(|st.started|, Exec(QUIET, a, st).started)
  {
    var n, st1 := a.maxIterations, ExecFrom(QUIET, a, 0, st);
    var st2 := Exec(QUIET, a.subs[0], st1);
    var st3 := ExecFrom(QUIET, a, 1, st2);
    SecondIterationBegins(a, st, names);
    ExecFromFinishes(a, 1, st2);
    ExecTimesFinishes(a, n - 2, st3);
    assert st3 == ExecFrom(QUIET, a, 0, st1);
    assert Exec(QUIET, a, st) == ExecTimes(QUIET, a, n - 1, st1) == ExecTimes(QUIET, a, n - 2, st3);
    TwiceWidens(|st.started|, |st.started|, st2.started, Exec(QUIET, a, st).started);
  }

  // ---- A pause in a second child runs the first one again ----------------------------------------------

  function FirstLeaf(a: Tree): string {
    if a.Leaf? then a.name else if a.subs == [] then "" else FirstLeaf(a.subs[0])
  }

  lemma {:induction false} FirstIsLeaf(a: Tree)
    requires WellFormed(a)
    ensures FirstLeaf(a) in LeafNames(a)
    decreases a
  {
    if !a.Leaf? {
      FirstIsLeaf(a.subs[0]);
      LeafOfSub(a, 0, 0);
    }
  }

  function FirstBad(a: Tree, i: nat): (k: nat)
    requires !a.Leaf? && i <= |a.subs| && exists j :: i <= j < |a.subs| && !OnePass(a.subs[j])
    ensures i <= k < |a.subs| && !OnePass(a.subs[k])
    decreases |a.subs| - i
  {
    if !OnePass(a.subs[i]) then i else FirstBad(a, i + 1)
  }

  /** The leaf to pause at: the first of the second child of an outermost loop that has one. */
  function PausePoint(a: Tree): string
    requires !OnePass(a) && SinglePass(a) && WellFormed(a)
  {
    if a.Loop? && |a.subs| > 1 then FirstLeaf(a.subs[1]) else PausePoint(a.subs[FirstBad(a, 0)])
  }

  lemma {:induction false} PausePointIsLeaf(a: Tree)
    requires !OnePass(a) && SinglePass(a) && WellFormed(a)
    ensures PausePoint(a) in LeafNames(a)
    decreases a
  {
    if a.Loop? && |a.subs| > 1 {
      FirstIsLeaf(a.subs[1]);
      LeafOfSub(a, 0, 1);
    } else {
      var k := FirstBad(a, 0);
      PausePointIsLeaf(a.subs[k]);
      LeafOfSub(a, 0, k);
    }
  }

  /** Children of a tree with distinct leaves have distinct leaves of their own. */
  lemma {:induction false} LeavesApart(a: Tree, i: nat, j: nat, k: nat)
    requires i <= j < |Subs(a)| && NoRepeats(LeafNamesFrom(a, i))
    ensures NoRepeats(LeafNames(Subs(a)[j]))
    ensures j < k < |Subs(a)| ==> forall x | x in LeafNames(Subs(a)[j]) :: x !in LeafNames(Subs(a)[k])
    decreases j - i
  {
    var xs, ys := LeafNames(Subs(a)[i]), LeafNamesFrom(a, i + 1);
    var all := xs + ys;
    forall m, n | 0 <= m < n < |ys| ensures ys[m] != ys[n] {
      assert all[|xs| + m] == ys[m] && all[|xs| + n] == ys[n];
    }
    if i < j {
      LeavesApart(a, i + 1, j, k);
    } else {
      forall m, n | 0 <= m < n < |xs| ensures xs[m] != xs[n] {
        assert all[m] == xs[m] && all[n] == xs[n];
      }
      if j < k < |Subs(a)| {
        LeafOfSub(a, i + 1, k);
        forall m, n | 0 <= m < |xs| && 0 <= n < |ys| ensures xs[m] != ys[n] {
          assert all[m] == xs[m] && all[|xs| + n] == ys[n];
        }
      }
    }
  }

  /** A fresh tree whose first leaf pauses stops at once, and nothing else has happened. */
  lemma {:induction false} PausesAtOnce(a: Tree, st: State, pausing: set<string>)
    requires WellFormed(a) && Fresh(QUIET, a, st.log) && FirstLeaf(a) in pausing
    ensures var (st1, end) := Run(PausesAt(pausing), a, st);
            end == Done && st1.paused && st1.log == st.log && st1.finished == st.finished
    decreases a
  {
    if !a.Leaf? {
      NamesOfSub(a, 0, 0);
      PausesAtOnce(a.subs[0], st, pausing);
      var env := PausesAt(pausing);
      var st1 := Run(env, a.subs[0], st).0;
      if a.Sequential? {
        assert a.name in PipelineNames(a);
        assert StartIndex(env, a, st) == Completed(QUIET, st.log, a.name) == 0;
        assert RunSubs(env, a, 0, st) == (st1, Done);
      } else {
        assert RunBody(env, a, 0, st) == (st1, Done, true);
        assert RunIterations(env, a, a.maxIterations, st) == (st1, Done);
      }
    }
  }

  /** A fresh child without pausing leaves runs to its end. */
  lemma ChildRuns(a: Tree, i: nat, st: State, pausing: set<string>, names: set<string>)
    requires PipelineNames(a) <= names && DistinctNames(a) && WellFormed(a) && !st.paused
    requires !a.Leaf? && i < |a.subs| && FreshFrom(QUIET, a, i, st.log)
    requires forall x | x in LeafNames(a.subs[i]) :: x !in pausing
    ensures var st1 := Exec(QUIET, a.subs[i], st); var st2 := Behind(QUIET, a, i, st1);
            && Run(PausesAt(pausing), a.subs[i], st) == (st1, Done) && !st1.paused
            && FinishesAll(st, st1) && StartsAll(st, st1, LeafNames(a.subs[i]))
            && FreshFrom(QUIET, a, i + 1, st2.log)
            && Grows(QUIET, a, names, st.log, st2.log)
            && Grows(QUIET, a.subs[i], names, st.log, st1.log)
            && InRange(a.subs[i], st2.log)
  {
    var st1 := Exec(QUIET, a.subs[i], st);
    NamesOfSub(a, 0, i);
    QuietIsUninterrupted(names, {});
    NonePauses(a.subs[i], st, pausing);
    RunIsExec(QUIET, a.subs[i], st, names);
    ExecFinishes(a.subs[i], st);
    FirstPassStarts(a.subs[i], st, names);
    LaterStayFresh(QUIET, a, i, st, names);
    ExecBounded(QUIET, a.subs[i], st, names);
    FreshInRange(a.subs[i], st.log);
    ExecInRange(a.subs[i], st, names);
    CheckpointIsLatest(QUIET, st1.log, a.name, i + 1);
    InRangeStays(a.subs[i], st1.log, Behind(QUIET, a, i, st1).log);
  }

  /** The run has paused, and the next one will start a leaf that has finished. */
  ghost predicate StuckBehind(a: Tree, names: set<string>, st: State, st1: State) {
    && st1.paused && InRange(a, st1.log)
    && st.finished <= st1.finished && NextLeaf(a, st1.log) in st1.finished
    && SameCheckpoints(QUIET, names - PipelineNames(a), st.log, st1.log)
  }

  lemma {:induction false} PauseSticks(a: Tree, st: State, names: set<string>)
    requires !OnePass(a) && SinglePass(a) && WellFormed(a) && AllDistinct(a) && PipelineNames(a) <= names
    requires Fresh(QUIET, a, st.log) && !st.paused
    ensures var (st1, end) := Run(PausesAt({PausePoint(a)}), a, st); end == Done && StuckBehind(a, names, st, st1)
    decreases a, 1, 0
  {
    FreshChildren(QUIET, a, st.log);
    var y := PausePoint(a);
    if a.Loop? && |a.subs| > 1 {
      SecondChildPauses(a, st, names);
    } else if a.Loop? {
      NamesOfSub(a, 0, 0);
      LeavesApart(a, 0, 0, 0);
      PauseSticks(a.subs[0], st, names);
      QuietIsUninterrupted(names, {y});
      OnceIsItsChild(PausesAt({y}), a, st, names);
    } else {
      PauseSticksFrom(a, 0, st, names);
    }
  }

  lemma SecondChildPauses(a: Tree, st: State, names: set<string>)
    requires !OnePass(a) && SinglePass(a) && WellFormed(a) && AllDistinct(a) && PipelineNames(a) <= names
    requires FreshFrom(QUIET, a, 0, st.log) && !st.paused && a.Loop? && |a.subs| > 1
    ensures var (st1, end) := Run(PausesAt({PausePoint(a)}), a, st); end == Done && StuckBehind(a, names, st, st1)
  {
    var pausing := {PausePoint(a)};
    LeavesApart(a, 0, 0, 1);
    FirstIsLeaf(a.subs[1]);
    ChildRuns(a, 0, st, pausing, names);
    var st1 := Exec(QUIET, a.subs[0], st);
    PausesAtOnce(a.subs[1], st1, pausing);
    var st2 := Run(PausesAt(pausing), a.subs[1], st1).0;
    assert RunBody(PausesAt(pausing), a, 1, st1) == (st2, Done, true);
    assert RunBody(PausesAt(pausing), a, 0, st) == (st2, Done, true);
    assert Run(PausesAt(pausing), a, st) == (st2, Done);
    forall j | 0 <= j < |a.subs| ensures InRange(a.subs[j], st2.log) {
      if j > 0 {
        FreshInRange(a.subs[j], st2.log);
      }
    }
    NextIsLeaf(a.subs[0], st2.log);
  }

  /** A sequence about to run child `i`: the ones before are done, the others are fresh. */
  ghost predicate Before(a: Tree, i: nat, st: State)
    requires a.Sequential? && i <= |a.subs|
  {
    && FreshFrom(QUIET, a, i, st.log) && !st.paused && Completed(QUIET, st.log, a.name) == i
    && forall j | 0 <= j < i :: InRange(a.subs[j], st.log)
  }

  lemma {:induction false} PauseSticksFrom(a: Tree, i: nat, st: State, names: set<string>)
    requires !OnePass(a) && SinglePass(a) && WellFormed(a) && AllDistinct(a) && PipelineNames(a) <= names
    requires a.Sequential? && i <= FirstBad(a, 0) && Before(a, i, st)
    ensures var (st1, end) := RunSubs(PausesAt({PausePoint(a)}), a, i, st);
            end == Done && StuckBehind(a, names, st, st1)
    decreases a, 0, |a.subs| - i
  {
    var k, y := FirstBad(a, 0), PausePoint(a);
    var env := PausesAt({y});
    if i == k {
      BadChild(a, names);
      PauseSticks(a.subs[k], st, names);
      hide *;
      PauseReaches(a, st, names);
    } else {
      var st1 := Exec(QUIET, a.subs[i], st);
      var st2 := Behind(QUIET, a, i, st1);
      BadChild(a, names);
      LeavesApart(a, 0, i, k);
      PausePointIsLeaf(a.subs[k]);
      ChildRuns(a, i, st, {y}, names);
      NextBefore(a, i, st, names, y);
      PauseSticksFrom(a, i + 1, st2, names);
      StepsBehind(a, i, st1, {y});
      QuietIsUninterrupted(names, {y});
      RunSubsStep(env, a, i, st, names);
      hide *;
      StuckThen(a, names, st, st1, st2, RunSubs(env, a, i + 1, st2).0);
    }
  }

  /** The child to pause in is a tree of the same kind, with the same leaf to pause at. */
  lemma BadChild(a: Tree, names: set<string>)
    requires !OnePass(a) && SinglePass(a) && WellFormed(a) && AllDistinct(a) && PipelineNames(a) <= names
    requires a.Sequential?
    ensures var k := FirstBad(a, 0); var sub := a.subs[k];
            && !OnePass(sub) && SinglePass(sub) && WellFormed(sub) && AllDistinct(sub) && PipelineNames(sub) <= names
            && PausePoint(a) == PausePoint(sub)
  {
    var k := FirstBad(a, 0);
    LeavesApart(a, 0, k, k);
    NamesOfSub(a, 0, k);
  }

  lemma PauseReaches(a: Tree, st: State, names: set<string>)
    requires !OnePass(a) && SinglePass(a) && WellFormed(a) && AllDistinct(a) && PipelineNames(a) <= names
    requires a.Sequential? && Before(a, FirstBad(a, 0), st)
    requires var (st1, end) := Run(PausesAt({PausePoint(a)}), a.subs[FirstBad(a, 0)], st);
             end == Done && StuckBehind(a.subs[FirstBad(a, 0)], names, st, st1)
    ensures var (st1, end) := RunSubs(PausesAt({PausePoint(a)}), a, FirstBad(a, 0), st);
            end == Done && StuckBehind(a, names, st, st1)
  {
    var k, env := FirstBad(a, 0), PausesAt({PausePoint(a)});
    QuietIsUninterrupted(names, {PausePoint(a)});
    RunSubsStep(env, a, k, st, names);
    StuckAbove(a, k, st, Run(env, a.subs[k], st).0, names);
    hide Run, RunSubs, PausesAt, InRange, OnePass, SinglePass;
  }

  lemma StuckThen(a: Tree, names: set<string>, st: State, st1: State, st2: State, st3: State)
    requires FinishesAll(st, st1) && st2.finished == st1.finished && Grows(QUIET, a, names, st.log, st2.log)
    requires StuckBehind(a, names, st2, st3)
    ensures StuckBehind(a, names, st, st3)
  {
    hide InRange, NextLeaf;
  }

  lemma StepsBehind(a: Tree, i: nat, st1: State, pausing: set<string>)
    requires a.Sequential? && i + 1 < |a.subs|
    ensures Yield(st1, CheckpointEvent(a.name, PausesAt(pausing).invocationId, i + 1)) == Behind(QUIET, a, i, st1)
  {
  }

  /** The child's pause is the sequence's. */
  lemma StuckAbove(a: Tree, k: nat, st: State, st1: State, names: set<string>)
    requires a.Sequential? && WellFormed(a) && AllDistinct(a) && PipelineNames(a) <= names
    requires k < |a.subs| && Before(a, k, st) && StuckBehind(a.subs[k], names, st, st1)
    ensures StuckBehind(a, names, st, st1)
  {
    NamesOfSub(a, 0, k);
    forall j | 0 <= j < |a.subs| ensures InRange(a.subs[j], st1.log) {
      NamesOfSub(a, 0, j);
      if j != k {
        if j > k {
          FreshInRange(a.subs[j], st.log);
        }
        InRangeStays(a.subs[j], st.log, st1.log);
      }
    }
  }

  /** After a child that runs to its end, the sequence is about to run the next. */
  lemma NextBefore(a: Tree, i: nat, st: State, names: set<string>, y: string)
    requires a.Sequential? && WellFormed(a) && AllDistinct(a) && PipelineNames(a) <= names
    requires i + 1 < |a.subs| && Before(a, i, st) && y !in LeafNames(a.subs[i])
    ensures Before(a, i + 1, Behind(QUIET, a, i, Exec(QUIET, a.subs[i], st)))
  {
    var st1 := Exec(QUIET, a.subs[i], st);
    var st2 := Behind(QUIET, a, i, st1);
    ChildRuns(a, i, st, {y}, names);
    CheckpointIsLatest(QUIET, st1.log, a.name, i + 1);
    NamesOfSub(a, 0, i);
    forall j | 0 <= j < i + 1 ensures InRange(a.subs[j], st2.log) {
      NamesOfSub(a, 0, j);
      if j < i {
        InRangeStays(a.subs[j], st.log, st2.log);
      }
    }
  }

  // ---- The exact condition -----------------------------------------------------------------------------

  lemma SecondPassBreaks(root: Tree)
    requires WellFormed(root) && AllDistinct(root) && !SinglePass(root)
    ensures !Keeps(QUIET, root, Opened([]), [])
  {
    var st, names := Opened([]), PipelineNames(root);
    QuietIsUninterrupted(names, {});
    RunIsExec(QUIET, root, st, names);
    RepeatsLeaf(root, st, names);
    var st1 := Run(QUIET, root, st).0;
    var i, j :| 0 <= j < i < |st1.started| && st1.started[j] == st1.started[i];
    assert Again(st, st1, i);
  }

  lemma SecondChildBreaks(root: Tree)
    requires WellFormed(root) && AllDistinct(root) && SinglePass(root) && !OnePass(root)
    ensures !Keeps(PausesAt({PausePoint(root)}), root, Opened([]), [[]])
  {
    var st, env, names := Opened([]), PausesAt({PausePoint(root)}), PipelineNames(root);
    PauseSticks(root, st, names);
    var st1 := Run(env, root, st).0;
    var st2 := Reopen(st1, []);
    assert st2.log == st1.log;
    RunStartsWith(root, st2, {PausePoint(root)});
    var st3, x := Run(env, root, st2).0, NextLeaf(root, st1.log);
    assert (st2.started + [x])[|st2.started|] == x;
    assert Again(st2, st3, |st2.started|);
    var inputs: seq<seq<Event>> := [[]];
    assert inputs[0] == [];
  }

  /**
   * The documented promise that a resume never runs finished steps again is kept by a tree, in every calm environment
   * and over any rounds of pausing and resuming, if and only if all its loops run one child once.
   */
  lemma NeverRunsAgainIffOnePass(root: Tree)
    requires WellFormed(root) && AllDistinct(root)
    ensures NeverRunsAgain(root) <==> OnePass(root)
  {
    var names := PipelineNames(root);
    if OnePass(root) {
      OnePassIsPipeline(root);
      forall env, log, inputs |
        Calm(env, names) && Fresh(env, root, log) && NeutralInputs(env, root, inputs)
        ensures Keeps(env, root, Opened(log), inputs)
      {
        FreshIsAllRemaining(env, root, log);
        assert [] + Leaves(root) == Leaves(root);
        PipelineKeeps(env, root, Opened(log), inputs);
      }
    } else if SinglePass(root) {
      var env := PausesAt({PausePoint(root)});
      QuietIsUninterrupted(names, {PausePoint(root)});
      SecondChildBreaks(root);
      assert Fresh(env, root, []) && NeutralInputs(env, root, [[]]);
    } else {
      QuietIsUninterrupted(names, {});
      SecondPassBreaks(root);
      assert Fresh(QUIET, root, []) && NeutralInputs(QUIET, root, []);
    }
  }

  /** The smallest instance: after a pause in the second step of a loop, the first step runs again. */
  lemma LoopedStepRunsAgain()
    ensures var root := Loop("loop", [Leaf("draft"), Leaf("review")], 1);
            !Keeps(PausesAt({"review"}), root, Opened([]), [[]])
  {
    var root := Loop("loop", [Leaf("draft"), Leaf("review")], 1);
    assert LeafNamesFrom(root, 2) == [];
    assert LeafNamesFrom(root, 1) == ["review"] + [] == ["review"];
    assert LeafNames(root) == ["draft"] + ["review"];
    assert "draft"[0] != "review"[0];
    assert NamesFrom(root, 2) == {} && NamesFrom(root, 1) == {} && NamesFrom(root, 0) == {};
    assert PausePoint(root) == "review";
    SecondChildBreaks(root);
  }
}
