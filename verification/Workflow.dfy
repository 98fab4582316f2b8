/**
 * Workflow agents: SequentialAgent and LoopAgent over arbitrary leaves (src/agents/sequential_agent.rs,
 * src/agents/loop_agent.rs), under one invocation with a shared log, pause flag and cancellation flag.
 *
 * `Run` is the meaning of a tree; `Invocation.RunAgent` is the code, loops and all, proved to have that meaning.
 * Streams are lazy and the runner appends every event before it asks for the next, so the log is the stream.
 */
module Workflow {
  import opened Wrappers
  import opened Genai

  // ---- Trees, leaves and the environment ---------------------------------------------------------------

  datatype Tree =
    | Leaf(name: string)
    | Sequential(name: string, subs: seq<Tree>)
    | Loop(name: string, subs: seq<Tree>, maxIterations: nat)

  /** The constructors refuse an empty list of sub-agents and a loop without iterations. */
  ghost predicate WellFormed(a: Tree) {
    match a
    case Leaf(_) => true
    case Sequential(_, subs) => subs != [] && forall s | s in subs :: WellFormed(s)
    case Loop(_, subs, n) => subs != [] && n > 0 && forall s | s in subs :: WellFormed(s)
  }

  datatype LeafEnd = Finishes | Pauses | Fails

  /** What a leaf does when it is started: the events of its stream, then how the stream ends. */
  datatype LeafRun = LeafRun(events: seq<Event>, end: LeafEnd)

  /**
   * The invocation so far.  `tick` advances with every event and every leaf that ends.  `started` and `finished`
   * record the leaves entered and the leaves that ran to their end.
   */
  datatype State = State(log: seq<Event>, tick: nat, paused: bool, started: seq<string>, finished: seq<string>)

  /** Leaves are arbitrary functions of everything that happened; the flag may flip at any tick. */
  datatype Env = Env(
    invocationId: string, resumable: bool, cancelled: nat -> bool, leaf: (string, State) -> LeafRun)

  datatype End = Done | Escalated | Errored

  predicate Escalates(e: Event) { e.actions.escalate == Some(true) }

  function Yield(st: State, e: Event): State {
    st.(log := st.log + [e], tick := st.tick + 1)
  }

  // ---- Checkpoints -------------------------------------------------------------------------------------

  const CHECKPOINT_KEY := "completed_sub_agents"

  function CheckpointEvent(author: string, invocationId: string, n: nat): Event {
    NewEvent(author, EMPTY_RESPONSE).(
      invocationId := invocationId,
      actions := NO_ACTIONS.(agentState := Some(Object(map[CHECKPOINT_KEY := Number(n)]))))
  }

  /** What a checkpoint looks like in the log: the sequence's own event, with the count and nothing to say. */
  lemma CheckpointSays(author: string, invocationId: string, n: nat)
    ensures var e := CheckpointEvent(author, invocationId, n);
            && e.author == author && e.invocationId == invocationId && e.response == EMPTY_RESPONSE
            && e.actions == NO_ACTIONS.(agentState := Some(Object(map["completed_sub_agents" := Number(n)])))
            && e.longRunningToolIds.None? && e.partial.None? && e.turnComplete.None? && e.branch.None?
  {
  }

  predicate IsCheckpoint(e: Event, author: string, invocationId: string) {
    e.invocationId == invocationId && e.author == author && e.actions.agentState.Some?
  }

  function RecordedCount(e: Event): nat
    requires e.actions.agentState.Some?
  {
    match e.actions.agentState.value
    case Object(fields) =>
      if CHECKPOINT_KEY in fields && fields[CHECKPOINT_KEY].Number? && fields[CHECKPOINT_KEY].n >= 0
      then fields[CHECKPOINT_KEY].n else 0
    case _ => 0
  }

  /** The latest checkpoint of `author` in this invocation: how many sub-agents have completed. */
  function CompletedSubAgents(log: seq<Event>, invocationId: string, author: string): nat {
    if log == [] then 0
    else if IsCheckpoint(log[|log| - 1], author, invocationId) then RecordedCount(log[|log| - 1])
    else CompletedSubAgents(log[..|log| - 1], invocationId, author)
  }

  // ---- The meaning of a tree ---------------------------------------------------------------------------

  /** Forward a stream up to and including its first escalating event. */
  function Forward(st: State, events: seq<Event>): (r: (State, bool))
    decreases events
  {
    if events == [] then (st, false)
    else if Escalates(events[0]) then (Yield(st, events[0]), true)
    else Forward(Yield(st, events[0]), events[1..])
  }

  function RunLeaf(env: Env, name: string, st: State): (State, End) {
    var run := env.leaf(name, st);
    var (st1, escalated) := Forward(st.(started := st.started + [name]), run.events);
    if escalated then (st1, Escalated)
    else
      var st2 := st1.(tick := st1.tick + 1);
      match run.end
      case Finishes => (st2.(finished := st2.finished + [name]), Done)
      case Pauses => (st2.(paused := true), Done)
      case Fails => (st2, Errored)
  }

  function Run(env: Env, a: Tree, st: State): (State, End)
    decreases a, 2, 0, 0
  {
    match a
    case Leaf(name) => RunLeaf(env, name, st)
    case Sequential(name, subs) => RunSubs(env, a, StartIndex(env, a, st), st)
    case Loop(_, subs, n) => RunIterations(env, a, n, st)
  }

  function StartIndex(env: Env, a: Tree, st: State): nat {
    if env.resumable then CompletedSubAgents(st.log, env.invocationId, a.name) else 0
  }

  function RunSubs(env: Env, a: Tree, i: nat, st: State): (State, End)
    requires a.Sequential?
    decreases a, 1, |a.subs| - i, 0
  {
    if i >= |a.subs| || env.cancelled(st.tick) then (st, Done)
    else
      var (st1, end) := Run(env, a.subs[i], st);
      if end != Done || st1.paused then (st1, end)
      else
        var st2 := if env.resumable && i + 1 < |a.subs|
                   then Yield(st1, CheckpointEvent(a.name, env.invocationId, i + 1)) else st1;
        RunSubs(env, a, i + 1, st2)
  }

  function RunIterations(env: Env, a: Tree, n: nat, st: State): (State, End)
    requires a.Loop?
    decreases a, 1, n, 1
  {
    if n == 0 || env.cancelled(st.tick) then (st, Done)
    else
      var (st1, end, stop) := RunBody(env, a, 0, st);
      if stop then (st1, end) else RunIterations(env, a, n - 1, st1)
  }

  /** One iteration from sub-agent `j` on; the flag says whether the loop is left. */
  function RunBody(env: Env, a: Tree, j: nat, st: State): (State, End, bool)
    requires a.Loop? && j <= |a.subs|
    decreases a, 0, |a.subs| - j, 0
  {
    if j == |a.subs| then (st, Done, false)
    else if env.cancelled(st.tick) then (st, Done, true)
    else
      var (st1, end) := Run(env, a.subs[j], st);
      if end != Done || st1.paused then (st1, end, true) else RunBody(env, a, j + 1, st1)
  }

  // ---- The code ----------------------------------------------------------------------------------------

  class Invocation {
    const env: Env
    var log: seq<Event>
    var tick: nat
    var paused: bool
    var started: seq<string>
    var finished: seq<string>

    function Now(): State
      reads this
    {
      State(log, tick, paused, started, finished)
    }

    constructor (env: Env, st: State)
      ensures this.env == env && Now() == st
    {
      this.env := env;
      log, tick, paused, started, finished := st.log, st.tick, st.paused, st.started, st.finished;
    }

    method Emit(e: Event)
      modifies this
      ensures Now() == Yield(old(Now()), e)
    {
      log := log + [e];
      tick := tick + 1;
    }

    method RunAgent(a: Tree) returns (end: End)
      modifies this
      ensures (Now(), end) == Run(env, a, old(Now()))
      decreases a, 1
    {
      match a {
        case Leaf(name) => end := StartLeaf(name);
        case Sequential(_, _) => end := RunSequential(a);
        case Loop(_, _, _) => end := RunLoop(a);
      }
    }

    method StartLeaf(name: string) returns (end: End)
      modifies this
      ensures (Now(), end) == RunLeaf(env, name, old(Now()))
    {
      var run := env.leaf(name, Now());
      started := started + [name];
      var i := 0;
      while i < |run.events|
        invariant 0 <= i <= |run.events|
        invariant Forward(old(Now()).(started := old(started) + [name]), run.events) == Forward(Now(), run.events[i..])
      {
        assert run.events[i..][0] == run.events[i] && run.events[i..][1..] == run.events[i + 1..];
        Emit(run.events[i]);
        if Escalates(run.events[i]) {
          return Escalated;
        }
        i := i + 1;
      }
      tick := tick + 1;
      match run.end {
        case Finishes => finished := finished + [name]; end := Done;
        case Pauses => paused := true; end := Done;
        case Fails => end := Errored;
      }
    }

    method RunSequential(a: Tree) returns (end: End)
      requires a.Sequential?
      modifies this
      ensures (Now(), end) == Run(env, a, old(Now()))
      decreases a, 0
    {
      var i := if env.resumable then CompletedSubAgents(log, env.invocationId, a.name) else 0;
      while i < |a.subs|
        invariant RunSubs(env, a, i, Now()) == Run(env, a, old(Now()))
        decreases |a.subs| - i
      {
        if env.cancelled(tick) {
          return Done;
        }
        end := RunAgent(a.subs[i]);
        if end != Done {
          return;
        }
        if paused {
          return;
        }
        if env.resumable && i + 1 < |a.subs| {
          Emit(CheckpointEvent(a.name, env.invocationId, i + 1));
        }
        i := i + 1;
      }
      end := Done;
    }

    method RunLoop(a: Tree) returns (end: End)
      requires a.Loop?
      modifies this
      ensures (Now(), end) == Run(env, a, old(Now()))
      decreases a, 0
    {
      end := Done;
      var n := a.maxIterations;
      label outer:
      while n > 0
        invariant end == Done
        invariant RunIterations(env, a, n, Now()) == Run(env, a, old(Now()))
      {
        if env.cancelled(tick) {
          break outer;
        }
        label iteration:
        var j := 0;
        while j < |a.subs|
          invariant 0 <= j <= |a.subs|
          invariant end == Done
          invariant RunBody(env, a, j, Now()) == RunBody(env, a, 0, old@iteration(Now()))
        {
          if env.cancelled(tick) {
            break outer;
          }
          end := RunAgent(a.subs[j]);
          if end != Done {
            break outer;
          }
          if paused {
            break outer;
          }
          j := j + 1;
        }
        n := n - 1;
      }
    }
  }
}
