/**
 * Pausing and resuming nested pipelines (src/agents/sequential_agent.rs).
 *
 * A resumable sequence writes a checkpoint after every child but the last and reads its latest one when it is entered.
 * Held against the list of leaves: what has finished, followed by what the checkpoints leave to do, is always the
 * whole list, so a resume enters exactly the leaf that paused and nothing runs to its end twice.
 */
module Resume {
  import opened Genai
  import opened Workflow
  import opened WorkflowLaws

  // ---- Pipelines and calm environments -----------------------------------------------------------------

  function PipelineNames(a: Tree): set<string>
    decreases a, 1, 0
  {
    match a
    case Leaf(_) => {}
    case _ => {a.name} + NamesFrom(a, 0)
  }

  function NamesFrom(a: Tree, i: nat): set<string>
    requires i <= |Subs(a)|
    decreases a, 0, |Subs(a)| - i
  {
    if i == |Subs(a)| then {} else PipelineNames(Subs(a)[i]) + NamesFrom(a, i + 1)
  }

  /** A loop that is none: it runs one child once. */
  predicate RunsOnce(a: Tree) {
    a.Loop? && a.maxIterations == 1 && |a.subs| == 1
  }

  /** A tree of sequences, and of loops that run one child once, in which no two of them share a name. */
  ghost predicate Pipeline(a: Tree) {
    && (a.Loop? ==> RunsOnce(a))
    && (!a.Leaf? ==>
          && a.subs != []
          && a.name !in NamesFrom(a, 0)
          && (forall i | 0 <= i < |a.subs| :: Pipeline(a.subs[i]))
          && (forall i, j | 0 <= i < j < |a.subs| :: PipelineNames(a.subs[i]) !! PipelineNames(a.subs[j])))
  }

  /** An event that none of the named sequences would take for its own checkpoint. */
  predicate Neutral(e: Event, invocationId: string, names: set<string>) {
    e.invocationId == invocationId && e.actions.agentState.Some? ==> e.author !in names
  }

  /** Resumable, never cancelled; leaves may pause at any time but neither escalate, fail nor forge checkpoints. */
  ghost predicate Calm(env: Env, names: set<string>) {
    && env.resumable
    && (forall t :: !env.cancelled(t))
    && (forall name, st :: env.leaf(name, st).end != Fails)
    && (forall name, st, e | e in env.leaf(name, st).events ::
          !Escalates(e) && Neutral(e, env.invocationId, names))
  }

  function Completed(env: Env, log: seq<Event>, name: string): nat {
    CompletedSubAgents(log, env.invocationId, name)
  }

  // ---- What the checkpoints leave to do ----------------------------------------------------------------

  /** The leaves still to be started, by the checkpoints in `log`. */
  function Remaining(env: Env, a: Tree, log: seq<Event>): seq<string> {
    match a
    case Sequential(name, subs) =>
      var c := Completed(env, log, name);
      if c < |subs| then Remaining(env, subs[c], log) + LeavesFrom(a, c + 1) else []
    case Loop(_, subs, _) => if RunsOnce(a) then Remaining(env, subs[0], log) else Leaves(a)
    case Leaf(_) => Leaves(a)
  }

  /** No sequence in `a` has a checkpoint. */
  ghost predicate Fresh(env: Env, a: Tree, log: seq<Event>) {
    forall n | n in PipelineNames(a) :: Completed(env, log, n) == 0
  }

  /** The checkpoints fit together: the child to enter is consistent, the children after it are untouched. */
  ghost predicate Consistent(env: Env, a: Tree, log: seq<Event>) {
    && (a.Sequential? ==>
          var c := Completed(env, log, a.name);
          && c < |a.subs|
          && Consistent(env, a.subs[c], log)
          && forall j | c < j < |a.subs| :: Fresh(env, a.subs[j], log))
    && (RunsOnce(a) ==> Consistent(env, a.subs[0], log))
  }

  lemma OnceLeaves(a: Tree)
    requires RunsOnce(a)
    ensures Leaves(a) == Leaves(a.subs[0])
  {
    assert LeavesFrom(a, 1) == [];
    assert LeavesFrom(a, 0) == Leaves(a.subs[0]) + [] == Leaves(a.subs[0]);
    assert Repeat(LeavesFrom(a, 0), 1) == LeavesFrom(a, 0) + Repeat(LeavesFrom(a, 0), 0);
  }

  lemma {:induction false} NamesOfSub(a: Tree, i: nat, k: nat)
    requires i <= k < |Subs(a)|
    ensures PipelineNames(Subs(a)[k]) <= NamesFrom(a, i)
    decreases k - i
  {
    if i < k {
      NamesOfSub(a, i + 1, k);
    }
  }

  /** Before anything has run, everything remains. */
  lemma {:induction false} FreshIsAllRemaining(env: Env, a: Tree, log: seq<Event>)
    requires Pipeline(a) && Fresh(env, a, log)
    ensures Consistent(env, a, log) && Remaining(env, a, log) == Leaves(a)
    decreases a
  {
    if !a.Leaf? {
      NamesOfSub(a, 0, 0);
      FreshIsAllRemaining(env, a.subs[0], log);
    }
    if a.Loop? {
      OnceLeaves(a);
    } else if a.Sequential? {
      forall j | 0 < j < |a.subs| ensures Fresh(env, a.subs[j], log) {
        NamesOfSub(a, 0, j);
      }
    }
  }

  /** The two logs agree on the checkpoints of every sequence in `names`. */
  ghost predicate SameCheckpoints(env: Env, names: set<string>, log: seq<Event>, log': seq<Event>) {
    forall n | n in names :: Completed(env, log', n) == Completed(env, log, n)
  }

  lemma {:induction false} SameCheckpointsSameProgress(env: Env, a: Tree, log: seq<Event>, log': seq<Event>)
    requires SameCheckpoints(env, PipelineNames(a), log, log')
    ensures Consistent(env, a, log) <==> Consistent(env, a, log')
    ensures Remaining(env, a, log) == Remaining(env, a, log')
    ensures Fresh(env, a, log) <==> Fresh(env, a, log')
    decreases a
  {
    if !a.Leaf? {
      forall j | 0 <= j < |a.subs|
        ensures Consistent(env, a.subs[j], log) <==> Consistent(env, a.subs[j], log')
        ensures Remaining(env, a.subs[j], log) == Remaining(env, a.subs[j], log')
        ensures Fresh(env, a.subs[j], log) <==> Fresh(env, a.subs[j], log')
      {
        NamesOfSub(a, 0, j);
        SameCheckpointsSameProgress(env, a.subs[j], log, log');
      }
    }
  }

  lemma {:induction false} NeutralEventsKeepCheckpoints(env: Env, names: set<string>, log: seq<Event>,
                                                        events: seq<Event>)
    requires forall e | e in events :: Neutral(e, env.invocationId, names)
    ensures SameCheckpoints(env, names, log, log + events)
    decreases events
  {
    if events == [] {
      assert log + events == log;
    } else {
      var init, last := events[..|events| - 1], events[|events| - 1];
      assert forall e | e in init :: e in events;
      NeutralEventsKeepCheckpoints(env, names, log, init);
      assert last in events;
      assert log + events == (log + init) + [last];
      forall n | n in names ensures Completed(env, log + events, n) == Completed(env, log + init, n) {
        assert (log + events)[..|log + events| - 1] == log + init;
      }
    }
  }

  lemma CheckpointIsLatest(env: Env, log: seq<Event>, author: string, n: nat)
    ensures Completed(env, log + [CheckpointEvent(author, env.invocationId, n)], author) == n
    ensures forall other | other != author ::
              Completed(env, log + [CheckpointEvent(author, env.invocationId, n)], other) == Completed(env, log, other)
  {
    var log' := log + [CheckpointEvent(author, env.invocationId, n)];
    assert log'[..|log'| - 1] == log;
  }

  // ---- One run -----------------------------------------------------------------------------------------

  lemma {:induction false} ForwardAll(st: State, events: seq<Event>)
    requires forall e | e in events :: !Escalates(e)
    ensures Forward(st, events) == (st.(log := st.log + events, tick := st.tick + |events|), false)
    decreases events
  {
    if events == [] {
      assert st.log + events == st.log;
    } else {
      assert events[0] in events && forall e | e in events[1..] :: e in events;
      ForwardAll(Yield(st, events[0]), events[1..]);
      assert st.log + [events[0]] + events[1..] == st.log + events;
    }
  }

  /**
   * From `before` to `after`, the leaves in `todo` were run from the front: all of them, or up to one that paused and
   * that `left` then begins with.
   */
  ghost predicate Advanced(before: State, after: State, todo: seq<string>, left: seq<string>) {
    if after.paused then
      && 0 < |left| <= |todo|
      && var k := |todo| - |left|;
      && left == todo[k..]
      && after.finished == before.finished + todo[..k]
      && after.started == before.started + todo[..k + 1]
    else
      && after.finished == before.finished + todo
      && after.started == before.started + todo
  }

  lemma AdvancedThen(a: State, b: State, c: State, todo: seq<string>, more: seq<string>, left: seq<string>)
    requires !b.paused && Advanced(a, b, todo, []) && Advanced(b, c, more, left)
    ensures Advanced(a, c, todo + more, left)
  {
    var all := todo + more;
    if c.paused {
      var k := |more| - |left|;
      assert all[|todo| + k..] == more[k..];
      assert all[..|todo| + k] == todo + more[..k];
      assert all[..|todo| + k + 1] == todo + more[..k + 1];
    }
  }

  lemma AdvancedEarly(a: State, c: State, todo: seq<string>, more: seq<string>, left: seq<string>)
    requires c.paused && Advanced(a, c, todo, left)
    ensures Advanced(a, c, todo + more, left + more)
  {
    var all, k := todo + more, |todo| - |left|;
    assert all[k..] == todo[k..] + more;
    assert all[..k] == todo[..k] && all[..k + 1] == todo[..k + 1];
  }

  /**
   * One run of a consistent pipeline: it works off exactly what remained, stops at the first leaf that pauses, and
   * leaves consistent checkpoints from which exactly the rest remains.  Other sequences' checkpoints are untouched.
   */
  lemma {:induction false} RunAdvances(env: Env, a: Tree, st: State, names: set<string>)
    requires Calm(env, names) && Pipeline(a) && PipelineNames(a) <= names
    requires !st.paused && Consistent(env, a, st.log)
    ensures var (st1, end) := Run(env, a, st);
            && end == Done
            && Advanced(st, st1, Remaining(env, a, st.log), Remaining(env, a, st1.log))
            && (st1.paused ==> Consistent(env, a, st1.log))
            && SameCheckpoints(env, names - PipelineNames(a), st.log, st1.log)
    decreases a, 1, 0
  {
    match a
    case Leaf(name) =>
      var run := env.leaf(name, st);
      var st0 := st.(started := st.started + [name]);
      assert forall e | e in run.events :: !Escalates(e) && Neutral(e, env.invocationId, names);
      ForwardAll(st0, run.events);
      NeutralEventsKeepCheckpoints(env, names, st.log, run.events);
      assert [name][..1] == [name] && [name][0..] == [name];
    case Sequential(name, _) =>
      SubsAdvance(env, a, Completed(env, st.log, name), st, names);
    case Loop(_, _, _) =>
      SubIsPipeline(a, 0);
      RunAdvances(env, a.subs[0], st, names);
      OnceIsItsChild(env, a, st, names);
  }

  /** A loop that runs one child once is that child. */
  lemma OnceIsItsChild(env: Env, a: Tree, st: State, names: set<string>)
    requires Calm(env, names) && RunsOnce(a) && Run(env, a.subs[0], st).1 == Done
    ensures Run(env, a, st) == Run(env, a.subs[0], st)
  {
    var st1 := Run(env, a.subs[0], st).0;
    assert RunBody(env, a, 1, st1) == (st1, Done, false);
    assert RunBody(env, a, 0, st) == (st1, Done, st1.paused);
    assert RunIterations(env, a, 0, st1) == (st1, Done);
    assert RunIterations(env, a, 1, st) == (st1, Done);
  }

  lemma SubIsPipeline(a: Tree, i: nat)
    requires !a.Leaf? && Pipeline(a) && i < |a.subs|
    ensures Pipeline(a.subs[i])
    ensures PipelineNames(a.subs[i]) <= PipelineNames(a)
  {
    NamesOfSub(a, 0, i);
  }

  lemma {:induction false} SubsAdvance(env: Env, a: Tree, i: nat, st: State, names: set<string>)
    requires Calm(env, names) && a.Sequential? && Pipeline(a) && PipelineNames(a) <= names
    requires !st.paused && Consistent(env, a, st.log) && i == Completed(env, st.log, a.name)
    ensures var (st1, end) := RunSubs(env, a, i, st);
            && end == Done
            && Advanced(st, st1, Remaining(env, a, st.log), Remaining(env, a, st1.log))
            && (st1.paused ==> Consistent(env, a, st1.log))
            && SameCheckpoints(env, names - PipelineNames(a), st.log, st1.log)
    decreases a, 0, |a.subs| - i
  {
    SubIsPipeline(a, i);
    EnteredAt(env, a, i, st.log);
    RunSubsStep(env, a, i, st, names);
    hide *;
    RunAdvances(env, a.subs[i], st, names);
    var st1 := Run(env, a.subs[i], st).0;
    OthersUntouched(env, a, i, st.log, st1.log, names);
    if st1.paused {
      SubPaused(env, a, i, st, st1);
    } else if i + 1 < |a.subs| {
      var st2 := Yield(st1, CheckpointEvent(a.name, env.invocationId, i + 1));
      SubCheckpointed(env, a, i, st, st1, st2, names);
      SubsAdvance(env, a, i + 1, st2, names);
      CheckpointedThen(env, a, i, st, st1, st2, RunSubs(env, a, i + 1, st2).0);
      AgreeThen(env, names - PipelineNames(a), st.log, st2.log, RunSubs(env, a, i + 1, st2).0.log);
    } else {
      LastSubFinished(env, a, i, st, st1);
    }
  }

  /** One child of a sequence that is neither cancelled nor fails. */
  lemma RunSubsStep(env: Env, a: Tree, i: nat, st: State, names: set<string>)
    requires Calm(env, names) && a.Sequential? && i < |a.subs|
    ensures var (st1, end) := Run(env, a.subs[i], st);
            var st2 := Yield(st1, CheckpointEvent(a.name, env.invocationId, i + 1));
            && (end == Done && st1.paused ==> RunSubs(env, a, i, st) == (st1, Done))
            && (end == Done && !st1.paused ==>
                  RunSubs(env, a, i, st) == RunSubs(env, a, i + 1, if i + 1 < |a.subs| then st2 else st1))
            && st2.paused == st1.paused && st2.started == st1.started && st2.finished == st1.finished
  {
  }

  lemma AgreeThen(env: Env, names: set<string>, a: seq<Event>, b: seq<Event>, c: seq<Event>)
    requires SameCheckpoints(env, names, a, b) && SameCheckpoints(env, names, b, c)
    ensures SameCheckpoints(env, names, a, c)
  {
  }

  /** What a sequence has still to do, when its checkpoints say that child `i` is next. */
  lemma EnteredAt(env: Env, a: Tree, i: nat, log: seq<Event>)
    requires a.Sequential? && i < |a.subs| && i == Completed(env, log, a.name)
    ensures Remaining(env, a, log) == Remaining(env, a.subs[i], log) + LeavesFrom(a, i + 1)
    ensures Consistent(env, a, log) <==>
            Consistent(env, a.subs[i], log) && forall j | i < j < |a.subs| :: Fresh(env, a.subs[j], log)
  {
  }

  lemma SubPaused(env: Env, a: Tree, i: nat, st: State, st1: State)
    requires a.Sequential? && i < |a.subs|
    requires i == Completed(env, st.log, a.name) == Completed(env, st1.log, a.name)
    requires st1.paused && Consistent(env, a.subs[i], st1.log)
    requires forall j | i < j < |a.subs| :: Fresh(env, a.subs[j], st1.log)
    requires Advanced(st, st1, Remaining(env, a.subs[i], st.log), Remaining(env, a.subs[i], st1.log))
    ensures Advanced(st, st1, Remaining(env, a, st.log), Remaining(env, a, st1.log))
    ensures Consistent(env, a, st1.log)
  {
    EnteredAt(env, a, i, st.log);
    EnteredAt(env, a, i, st1.log);
    AdvancedEarly(st, st1, Remaining(env, a.subs[i], st.log), LeavesFrom(a, i + 1), Remaining(env, a.subs[i], st1.log));
  }

  lemma SubCheckpointed(env: Env, a: Tree, i: nat, st: State, st1: State, st2: State, names: set<string>)
    requires a.Sequential? && Pipeline(a) && i + 1 < |a.subs| && PipelineNames(a) <= names
    requires st2 == Yield(st1, CheckpointEvent(a.name, env.invocationId, i + 1))
    requires forall j | i < j < |a.subs| :: Fresh(env, a.subs[j], st1.log)
    requires SameCheckpoints(env, names - PipelineNames(a), st.log, st1.log)
    ensures Completed(env, st2.log, a.name) == i + 1
    ensures Consistent(env, a, st2.log) && Remaining(env, a, st2.log) == LeavesFrom(a, i + 1)
    ensures SameCheckpoints(env, names - PipelineNames(a), st.log, st2.log)
  {
    CheckpointIsLatest(env, st1.log, a.name, i + 1);
    AfterCheckpoint(env, a, i, st1.log, st2.log);
  }

  lemma CheckpointedThen(env: Env, a: Tree, i: nat, st: State, st1: State, st2: State, st3: State)
    requires a.Sequential? && i + 1 < |a.subs| && i == Completed(env, st.log, a.name)
    requires !st1.paused && st2.paused == st1.paused && st2.started == st1.started && st2.finished == st1.finished
    requires Advanced(st, st1, Remaining(env, a.subs[i], st.log), Remaining(env, a.subs[i], st1.log))
    requires Advanced(st2, st3, LeavesFrom(a, i + 1), Remaining(env, a, st3.log))
    ensures Advanced(st, st3, Remaining(env, a, st.log), Remaining(env, a, st3.log))
  {
    EnteredAt(env, a, i, st.log);
    AdvancedThen(st, st2, st3, Remaining(env, a.subs[i], st.log), LeavesFrom(a, i + 1), Remaining(env, a, st3.log));
  }

  lemma LastSubFinished(env: Env, a: Tree, i: nat, st: State, st1: State)
    requires a.Sequential? && i + 1 == |a.subs| && i == Completed(env, st.log, a.name)
    requires !st1.paused
    requires Advanced(st, st1, Remaining(env, a.subs[i], st.log), Remaining(env, a.subs[i], st1.log))
    ensures Advanced(st, st1, Remaining(env, a, st.log), Remaining(env, a, st1.log))
    ensures RunSubs(env, a, i + 1, st1) == (st1, Done)
  {
    EnteredAt(env, a, i, st.log);
    assert LeavesFrom(a, i + 1) == [];
  }

  /** While child `i` runs, neither its parent nor its siblings gain checkpoints. */
  lemma OthersUntouched(env: Env, a: Tree, i: nat, log: seq<Event>, log': seq<Event>, names: set<string>)
    requires a.Sequential? && Pipeline(a) && PipelineNames(a) <= names && i < |a.subs|
    requires SameCheckpoints(env, names - PipelineNames(a.subs[i]), log, log')
    ensures Completed(env, log', a.name) == Completed(env, log, a.name)
    ensures forall j | i < j < |a.subs| :: Fresh(env, a.subs[j], log) ==> Fresh(env, a.subs[j], log')
    ensures SameCheckpoints(env, names - PipelineNames(a), log, log')
  {
    NamesOfSub(a, 0, i);
    forall j | i < j < |a.subs| && Fresh(env, a.subs[j], log) ensures Fresh(env, a.subs[j], log') {
      NamesOfSub(a, 0, j);
    }
  }

  /** Once child `i` is checkpointed, the next child is to be entered from its beginning. */
  lemma AfterCheckpoint(env: Env, a: Tree, i: nat, log: seq<Event>, log': seq<Event>)
    requires a.Sequential? && Pipeline(a) && i + 1 < |a.subs|
    requires Completed(env, log', a.name) == i + 1
    requires forall n | n != a.name :: Completed(env, log', n) == Completed(env, log, n)
    requires forall j | i < j < |a.subs| :: Fresh(env, a.subs[j], log)
    ensures Consistent(env, a, log') && Remaining(env, a, log') == LeavesFrom(a, i + 1)
  {
    forall j | i < j < |a.subs| ensures Fresh(env, a.subs[j], log') {
      NamesOfSub(a, 0, j);
    }
    FreshIsAllRemaining(env, a.subs[i + 1], log');
  }

  // ---- Any number of rounds ----------------------------------------------------------------------------

  /** Between two rounds the session gains the user's events (and those of other invocations); the pause is lifted. */
  function Reopen(st: State, between: seq<Event>): State {
    st.(log := st.log + between, paused := false)
  }

  /** Run, and as long as the run pauses and there is input to resume with, resume. */
  function Rounds(env: Env, root: Tree, st: State, inputs: seq<seq<Event>>): State
    decreases inputs
  {
    var st1 := Run(env, root, st).0;
    if !st1.paused || inputs == [] then st1 else Rounds(env, root, Reopen(st1, inputs[0]), inputs[1..])
  }

  /** Nobody but the pipeline itself writes its checkpoints. */
  ghost predicate NeutralInputs(env: Env, root: Tree, inputs: seq<seq<Event>>) {
    forall input, e | input in inputs && e in input :: Neutral(e, env.invocationId, PipelineNames(root))
  }

  /**
   * Over any number of pause and resume rounds, finished leaves and remaining leaves together are the declared
   * leaves in order; when the last round does not pause, every leaf has finished exactly once.
   */
  lemma {:induction false} ResumeDiscipline(env: Env, root: Tree, st: State, inputs: seq<seq<Event>>)
    requires Calm(env, PipelineNames(root)) && Pipeline(root) && NeutralInputs(env, root, inputs)
    requires !st.paused && Consistent(env, root, st.log)
    requires st.finished + Remaining(env, root, st.log) == Leaves(root)
    ensures var st1 := Rounds(env, root, st, inputs);
            && (st1.paused ==> Consistent(env, root, st1.log)
                               && st1.finished + Remaining(env, root, st1.log) == Leaves(root))
            && (!st1.paused ==> st1.finished == Leaves(root))
    decreases inputs
  {
    hide Run;
    hide Remaining;
    hide Consistent;
    hide Pipeline;
    hide Calm;
    hide Leaves;
    var names := PipelineNames(root);
    RunAdvances(env, root, st, names);
    var st1 := Run(env, root, st).0;
    var todo, left := Remaining(env, root, st.log), Remaining(env, root, st1.log);
    if st1.paused {
      var k := |todo| - |left|;
      assert st1.finished + left == st.finished + (todo[..k] + todo[k..]);
      assert todo == todo[..k] + todo[k..];
      if inputs != [] {
        assert inputs[0] in inputs && forall input | input in inputs[1..] :: input in inputs;
        var st2 := Reopen(st1, inputs[0]);
        NeutralEventsKeepCheckpoints(env, names, st1.log, inputs[0]);
        SameCheckpointsSameProgress(env, root, st1.log, st2.log);
        ResumeDiscipline(env, root, st2, inputs[1..]);
      }
    }
  }

  /** The same from the beginning of an invocation: no checkpoint, nothing finished. */
  lemma FreshInvocation(env: Env, root: Tree, log: seq<Event>, inputs: seq<seq<Event>>)
    requires Calm(env, PipelineNames(root)) && Pipeline(root) && NeutralInputs(env, root, inputs)
    requires Fresh(env, root, log)
    ensures var st1 := Rounds(env, root, State(log, 0, false, [], []), inputs);
            && st1.finished <= Leaves(root)
            && (!st1.paused <==> st1.finished == Leaves(root))
  {
    var st := State(log, 0, false, [], []);
    FreshIsAllRemaining(env, root, log);
    assert st.finished + Leaves(root) == Leaves(root);
    ResumeDiscipline(env, root, st, inputs);
    var st1 := Rounds(env, root, st, inputs);
    if st1.paused {
      RemainingNonEmpty(env, root, st1.log);
    }
  }

  lemma {:induction false} RemainingNonEmpty(env: Env, a: Tree, log: seq<Event>)
    requires Pipeline(a) && Consistent(env, a, log)
    ensures Remaining(env, a, log) != []
    decreases a
  {
    if !a.Leaf? {
      RemainingNonEmpty(env, a.subs[if a.Loop? then 0 else Completed(env, log, a.name)], log);
    }
  }

  /**
   * A resume re-enters exactly the leaf that paused: the leaf started last before the pause is the first one started
   * after it, and no leaf that finished is started again.
   */
  lemma ResumeEntersPausedLeaf(env: Env, root: Tree, st: State, input: seq<Event>)
    requires Calm(env, PipelineNames(root)) && Pipeline(root) && NeutralInputs(env, root, [input])
    requires !st.paused && Consistent(env, root, st.log)
    requires Run(env, root, st).0.paused
    ensures var st1 := Run(env, root, st).0;
            var st2 := Run(env, root, Reopen(st1, input)).0;
            && |st1.started| > |st.started| && |st2.started| > |st1.started|
            && st2.started[..|st1.started|] == st1.started
            && st2.started[|st1.started|] == st1.started[|st1.started| - 1]
            && exists m :: 0 <= m <= |Remaining(env, root, st1.log)|
                           && st2.started[|st1.started|..] == Remaining(env, root, st1.log)[..m]
  {
    hide Run;
    hide Remaining;
    hide Consistent;
    hide Pipeline;
    hide Calm;
    hide Leaves;
    var names := PipelineNames(root);
    RunAdvances(env, root, st, names);
    var st1 := Run(env, root, st).0;
    var todo, left := Remaining(env, root, st.log), Remaining(env, root, st1.log);
    var k := |todo| - |left|;
    assert st1.started[|st1.started| - 1] == todo[..k + 1][k] == todo[k] == left[0];
    var st2 := Reopen(st1, input);
    assert input in [input];
    NeutralEventsKeepCheckpoints(env, names, st1.log, input);
    SameCheckpointsSameProgress(env, root, st1.log, st2.log);
    RunAdvances(env, root, st2, names);
    var st3 := Run(env, root, st2).0;
    var m := if st3.paused then |left| - |Remaining(env, root, st3.log)| + 1 else |left|;
    assert left[..|left|] == left;
    assert st3.started == st1.started + left[..m];
  }
}
