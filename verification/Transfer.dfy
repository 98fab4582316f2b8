/**
 * Transfer chains and the budget of model calls (src/agents/llm_agent.rs:226-237, 514-531, 579-606;
 * src/core/context.rs:94-105).
 *
 * A transfer may lead anywhere in the tree, also back to an ancestor, so the tree alone does not bound a run.  The
 * budget does: it drops before every turn, and only a turn can transfer.  `Run` is a total function for that reason.
 */
module Transfer {
  import opened Wrappers
  import opened AgentTree

  /** What one turn of a model, and the tools it called, ask for. */
  datatype Turn =
    | Final
    | CodeExecuted
    | Tools(transfers: seq<string>, escalate: bool, pauses: bool, skipSummarization: bool)
    | Fails

  /** How a run of an LLM agent begins: at once with the loop, or ended by a callback, a replay or an error. */
  datatype Entry = Enter | EndsEarly | FailsEarly

  /**
   * `calls` counts model calls, `transfers` the runs started by transfer.  `tick` advances whenever an agent is
   * entered, an iteration begins or a model is called, so that a cancellation may come between any two of these.
   */
  datatype State = State(calls: nat, transfers: nat, tick: nat, paused: bool)

  /** Models, tools, callbacks, checkpoints and the user who cancels: arbitrary functions of the run so far. */
  datatype Env = Env(
    root: Agent, maxLlmCalls: nat, cancelled: State -> bool, entry: (Agent, State) -> Entry,
    turn: (Agent, State) -> Turn, startIndex: (Agent, State) -> nat)

  datatype End = Done | Escalated | BudgetExhausted | Errored

  function Ticked(st: State): State { st.(tick := st.tick + 1) }

  /** The last of the requested targets that resolves. */
  function Target(env: Env, a: Agent, requested: seq<string>): Option<Agent>
    requires a.kind.Llm?
  {
    if a.kind.disableTransfer || requested == [] then None
    else Or(ResolveTransferTarget(a, Some(env.root), requested[|requested| - 1]),
            Target(env, a, requested[..|requested| - 1]))
  }

  /** A result that stays within the budget, started no more transfers than turns, and never gave calls back. */
  ghost predicate Within(env: Env, before: State, after: State, end: End) {
    && before.calls <= after.calls <= env.maxLlmCalls
    && after.transfers - before.transfers <= after.calls - before.calls
    && before.transfers <= after.transfers
    && (end == BudgetExhausted ==> after.calls == env.maxLlmCalls)
  }

  function Run(env: Env, a: Agent, st: State): (r: (State, End))
    requires st.calls <= env.maxLlmCalls
    ensures Within(env, st, r.0, r.1)
    decreases env.maxLlmCalls - st.calls, a, 3, 0
  {
    var st1 := Ticked(st);
    match a.kind
    case Llm(_, _) =>
      (match env.entry(a, st1)
       case EndsEarly => (st1, Done)
       case FailsEarly => (st1, Errored)
       case Enter => RunTurns(env, a, 0, st1))
    case Sequence => RunSubs(env, a, env.startIndex(a, st1), st1)
    case Repetition(n) => RunIterations(env, a, n, st1)
  }

  /** The LLM loop from iteration `k` on. */
  function RunTurns(env: Env, a: Agent, k: nat, st: State): (r: (State, End))
    requires a.kind.Llm? && st.calls <= env.maxLlmCalls
    ensures Within(env, st, r.0, r.1)
    decreases env.maxLlmCalls - st.calls, a, 2, 0
  {
    if k >= a.kind.maxIterations || env.cancelled(st) then (st, Done)
    else if st.calls >= env.maxLlmCalls then (st, BudgetExhausted)
    else
      var st1 := st.(calls := st.calls + 1, tick := st.tick + 1);
      match env.turn(a, st1)
      case Final => (st1, Done)
      case CodeExecuted => RunTurns(env, a, k + 1, st1)
      case Fails => (st1, Errored)
      case Tools(requested, escalate, pauses, skip) =>
        var target := Target(env, a, requested);
        if target.Some? then Run(env, target.value, st1.(transfers := st1.transfers + 1))
        else if escalate then (st1, Escalated)
        else if pauses then (st1.(paused := true), Done)
        else if skip then (st1, Done)
        else RunTurns(env, a, k + 1, st1)
  }

  function RunSubs(env: Env, a: Agent, i: nat, st: State): (r: (State, End))
    requires st.calls <= env.maxLlmCalls
    ensures Within(env, st, r.0, r.1)
    decreases env.maxLlmCalls - st.calls, a, 0, |a.subs| - i
  {
    if i >= |a.subs| || env.cancelled(st) then (st, Done)
    else
      var (st1, end) := Run(env, a.subs[i], st);
      if end != Done || st1.paused then (st1, end) else RunSubs(env, a, i + 1, st1)
  }

  function RunIterations(env: Env, a: Agent, n: nat, st: State): (r: (State, End))
    requires st.calls <= env.maxLlmCalls
    ensures Within(env, st, r.0, r.1)
    decreases env.maxLlmCalls - st.calls, a, 1, n
  {
    if n == 0 || env.cancelled(st) then (st, Done)
    else
      var (st1, end, stop) := RunBody(env, a, 0, Ticked(st));
      if stop then (st1, end) else RunIterations(env, a, n - 1, st1)
  }

  function RunBody(env: Env, a: Agent, j: nat, st: State): (r: (State, End, bool))
    requires st.calls <= env.maxLlmCalls
    ensures Within(env, st, r.0, r.1)
    decreases env.maxLlmCalls - st.calls, a, 0, |a.subs| - j
  {
    if j >= |a.subs| then (st, Done, false)
    else if env.cancelled(st) then (st, Done, true)
    else
      var (st1, end) := Run(env, a.subs[j], st);
      if end != Done || st1.paused then (st1, end, true) else RunBody(env, a, j + 1, st1)
  }

  // ---- The code ----------------------------------------------------------------------------------------

  /** The loop of `LlmAgent::run`, reduced to what it asks for each turn; it calls itself through transfers. */
  class Invocation {
    const env: Env
    var st: State

    constructor (env: Env)
      ensures this.env == env && st == State(0, 0, 0, false)
    {
      this.env := env;
      st := State(0, 0, 0, false);
    }

    /** Fails when the cap was already reached; counts the call otherwise. */
    method CheckAndIncLlmCall() returns (ok: bool)
      requires st.calls <= env.maxLlmCalls
      modifies this
      ensures ok <==> old(st).calls < env.maxLlmCalls
      ensures st == if ok then old(st).(calls := old(st).calls + 1) else old(st)
    {
      if st.calls >= env.maxLlmCalls {
        return false;
      }
      st := st.(calls := st.calls + 1);
      ok := true;
    }

    method RunLlmAgent(a: Agent) returns (end: End)
      requires a.kind.Llm? && st.calls <= env.maxLlmCalls
      modifies this
      ensures (st, end) == RunTurns(env, a, 0, old(st))
      decreases env.maxLlmCalls - st.calls, a, 1
    {
      var k := 0;
      while k < a.kind.maxIterations
        invariant st.calls <= env.maxLlmCalls && st.calls >= old(st).calls
        invariant RunTurns(env, a, k, st) == RunTurns(env, a, 0, old(st))
      {
        if env.cancelled(st) {
          return Done;
        }
        var ok := CheckAndIncLlmCall();
        if !ok {
          return BudgetExhausted;
        }
        st := st.(tick := st.tick + 1);
        match env.turn(a, st) {
          case Final => return Done;
          case CodeExecuted =>
          case Fails => return Errored;
          case Tools(requested, escalate, pauses, skip) =>
            var target := FindTarget(a, requested);
            if target.Some? {
              st := st.(transfers := st.transfers + 1);
              end := RunAgent(target.value);
              return;
            }
            if escalate {
              return Escalated;
            }
            if pauses {
              st := st.(paused := true);
              return Done;
            }
            if skip {
              return Done;
            }
        }
        k := k + 1;
      }
      end := Done;
    }

    /** Every resolvable request overrides the ones before it. */
    method FindTarget(a: Agent, requested: seq<string>) returns (target: Option<Agent>)
      requires a.kind.Llm?
      ensures target == Target(env, a, requested)
    {
      target := None;
      for i := 0 to |requested|
        invariant target == Target(env, a, requested[..i])
      {
        assert requested[..i + 1][..i] == requested[..i];
        if !a.kind.disableTransfer {
          var found := ResolveTransferTarget(a, Some(env.root), requested[i]);
          if found.Some? {
            target := found;
          }
        }
      }
      assert requested[..|requested|] == requested;
    }

    method RunAgent(a: Agent) returns (end: End)
      requires st.calls <= env.maxLlmCalls
      modifies this
      ensures (st, end) == Run(env, a, old(st))
      decreases env.maxLlmCalls - st.calls, a, 2
    {
      st := Ticked(st);
      match a.kind {
        case Llm(_, _) =>
          match env.entry(a, st) {
            case EndsEarly => end := Done;
            case FailsEarly => end := Errored;
            case Enter => end := RunLlmAgent(a);
          }
        case Sequence =>
          var i := env.startIndex(a, st);
          while i < |a.subs|
            invariant st.calls <= env.maxLlmCalls && st.calls >= old(st).calls
            invariant RunSubs(env, a, i, st) == Run(env, a, old(st))
          {
            if env.cancelled(st) {
              return Done;
            }
            end := RunAgent(a.subs[i]);
            if end != Done || st.paused {
              return;
            }
            i := i + 1;
          }
          end := Done;
        case Repetition(n) => end := RunRepetition(a);
      }
    }

    method RunRepetition(a: Agent) returns (end: End)
      requires a.kind.Repetition? && st.calls <= env.maxLlmCalls
      modifies this
      ensures (st, end) == RunIterations(env, a, a.kind.maxIterations, old(st))
      decreases env.maxLlmCalls - st.calls, a, 1
    {
      var n := a.kind.maxIterations;
      while n > 0
        invariant st.calls <= env.maxLlmCalls && st.calls >= old(st).calls
        invariant RunIterations(env, a, n, st) == RunIterations(env, a, a.kind.maxIterations, old(st))
      {
        if env.cancelled(st) {
          return Done;
        }
        st := Ticked(st);
        label iteration:
        var j := 0;
        while j < |a.subs|
          invariant 0 <= j <= |a.subs|
          invariant st.calls <= env.maxLlmCalls && st.calls >= old(st).calls
          invariant RunBody(env, a, j, st) == RunBody(env, a, 0, old@iteration(st))
        {
          if env.cancelled(st) {
            return Done;
          }
          end := RunAgent(a.subs[j]);
          if end != Done || st.paused {
            return;
          }
          j := j + 1;
        }
        n := n - 1;
      }
      end := Done;
    }
  }

  // ---- Whom a turn hands over to -----------------------------------------------------------------------

  /** The agent that the k-th request names, if the agent takes part in transfers. */
  function Resolved(env: Env, a: Agent, requested: seq<string>, k: int): Option<Agent>
    requires a.kind.Llm? && 0 <= k < |requested|
  {
    if a.kind.disableTransfer then None else ResolveTransferTarget(a, Some(env.root), requested[k])
  }

  ghost predicate IsLastResolved(env: Env, a: Agent, requested: seq<string>, k: int)
    requires a.kind.Llm?
  {
    && 0 <= k < |requested| && Resolved(env, a, requested, k).Some?
    && forall j | k < j < |requested| :: Resolved(env, a, requested, j).None?
  }

  /** A turn hands over exactly if some request resolves, and then to what the last of those names. */
  lemma {:induction false} LastRequestWins(env: Env, a: Agent, requested: seq<string>)
    requires a.kind.Llm?
    ensures var target := Target(env, a, requested);
            if target.Some? then
              exists k :: IsLastResolved(env, a, requested, k) && Resolved(env, a, requested, k) == target
            else forall k | 0 <= k < |requested| :: Resolved(env, a, requested, k).None?
    decreases requested
  {
    if !a.kind.disableTransfer && requested != [] {
      var n := |requested| - 1;
      hide ResolveTransferTarget;
      LastRequestWins(env, a, requested[..n]);
      if Resolved(env, a, requested, n).Some? {
        assert IsLastResolved(env, a, requested, n);
      } else if Target(env, a, requested).Some? {
        var k :| IsLastResolved(env, a, requested[..n], k);
        assert Resolved(env, a, requested, k) == Resolved(env, a, requested[..n], k);
        assert forall j | k < j < n :: Resolved(env, a, requested, j) == Resolved(env, a, requested[..n], j);
        assert IsLastResolved(env, a, requested, k);
      } else {
        assert forall k | 0 <= k < n :: Resolved(env, a, requested, k) == Resolved(env, a, requested[..n], k);
      }
    }
  }

  // ---- What the last turn asked for --------------------------------------------------------------------

  /** The turn of `a` at the last call of a run, if it hands over to nobody. */
  ghost predicate LastTurn(env: Env, before: State, after: State, a: Agent, s: State) {
    && before.calls < s.calls == after.calls && a.kind.Llm?
    && (env.turn(a, s).Tools? ==> Target(env, a, env.turn(a, s).transfers).None?)
  }

  ghost predicate Escalates(env: Env, before: State, after: State) {
    exists a, s :: LastTurn(env, before, after, a, s) && env.turn(a, s).Tools? && env.turn(a, s).escalate
  }

  ghost predicate Pauses(env: Env, before: State, after: State) {
    exists a, s :: LastTurn(env, before, after, a, s) && env.turn(a, s).Tools? && env.turn(a, s).pauses
                   && !env.turn(a, s).escalate
  }

  ghost predicate FailsInTurn(env: Env, before: State, after: State) {
    exists a, s :: LastTurn(env, before, after, a, s) && env.turn(a, s).Fails?
  }

  ghost predicate FailsAtEntry(env: Env, after: State) {
    exists a: Agent, s: State :: a.kind.Llm? && s.calls == after.calls && env.entry(a, s) == FailsEarly
  }

  /** What ends a run is what its last turn asked for: nothing is called after an escalation, a pause or an error. */
  ghost predicate Explained(env: Env, before: State, after: State, end: End) {
    && (end == Escalated ==> Escalates(env, before, after))
    && (after.paused ==> before.paused || Pauses(env, before, after))
    && (end == Errored ==> FailsInTurn(env, before, after) || FailsAtEntry(env, after))
  }

  lemma ExplainedEarlier(env: Env, first: State, before: State, after: State, end: End)
    requires first.calls <= before.calls && (before.paused ==> first.paused) && Explained(env, before, after, end)
    ensures Explained(env, first, after, end)
  {
    hide Target;
    forall a, s | LastTurn(env, before, after, a, s) ensures LastTurn(env, first, after, a, s) {
    }
  }

  lemma {:induction false} RunExplained(env: Env, a: Agent, st: State)
    requires st.calls <= env.maxLlmCalls
    ensures Explained(env, st, Run(env, a, st).0, Run(env, a, st).1)
    decreases env.maxLlmCalls - st.calls, a, 3, 0
  {
    hide Explained;
    var st1 := Ticked(st);
    NothingToExplain(env, st, st1);
    match a.kind
    case Llm(_, _) =>
      match env.entry(a, st1) {
        case EndsEarly =>
        case FailsEarly => EntryExplains(env, a, st, st1);
        case Enter =>
          TurnsExplained(env, a, 0, st1);
          ExplainedEarlier(env, st, st1, RunTurns(env, a, 0, st1).0, RunTurns(env, a, 0, st1).1);
      }
    case Sequence =>
      var i := env.startIndex(a, st1);
      SubsExplained(env, a, i, st1);
      ExplainedEarlier(env, st, st1, RunSubs(env, a, i, st1).0, RunSubs(env, a, i, st1).1);
    case Repetition(n) =>
      IterationsExplained(env, a, n, st1);
      ExplainedEarlier(env, st, st1, RunIterations(env, a, n, st1).0, RunIterations(env, a, n, st1).1);
  }

  lemma NothingToExplain(env: Env, before: State, after: State)
    requires after.paused ==> before.paused
    ensures Explained(env, before, after, Done) && Explained(env, before, after, BudgetExhausted)
  {
  }

  lemma EntryExplains(env: Env, a: Agent, before: State, st: State)
    requires a.kind.Llm? && env.entry(a, st) == FailsEarly && (st.paused ==> before.paused)
    ensures Explained(env, before, st, Errored)
  {
  }

  /** A turn that hands over to nobody explains the end that it brings. */
  lemma TurnExplains(env: Env, a: Agent, before: State, st: State, after: State, end: End)
    requires LastTurn(env, before, after, a, st) && (st.paused ==> before.paused)
    requires || (env.turn(a, st).Fails? && end == Errored && after == st)
             || (env.turn(a, st).Tools? && env.turn(a, st).escalate && end == Escalated && after == st)
             || (env.turn(a, st).Tools? && !env.turn(a, st).escalate && env.turn(a, st).pauses && end == Done
                 && after == st.(paused := true))
    ensures Explained(env, before, after, end)
  {
    hide Target;
  }

  lemma {:induction false} TurnsExplained(env: Env, a: Agent, k: nat, st: State)
    requires a.kind.Llm? && st.calls <= env.maxLlmCalls
    ensures Explained(env, st, RunTurns(env, a, k, st).0, RunTurns(env, a, k, st).1)
    decreases env.maxLlmCalls - st.calls, a, 2, 0
  {
    hide Explained, Target;
    NothingToExplain(env, st, st);
    if k < a.kind.maxIterations && !env.cancelled(st) && st.calls < env.maxLlmCalls {
      var st1 := st.(calls := st.calls + 1, tick := st.tick + 1);
      NothingToExplain(env, st, st1);
      var (after, end) := RunTurns(env, a, k, st);
      match env.turn(a, st1)
      case Final =>
      case Fails => TurnExplains(env, a, st, st1, after, end);
      case CodeExecuted =>
        TurnsExplained(env, a, k + 1, st1);
        ExplainedEarlier(env, st, st1, after, end);
      case Tools(requested, escalate, pauses, skip) =>
        var target := Target(env, a, requested);
        if target.Some? {
          var st2 := st1.(transfers := st1.transfers + 1);
          RunExplained(env, target.value, st2);
          ExplainedEarlier(env, st, st2, after, end);
        } else if escalate || pauses {
          TurnExplains(env, a, st, st1, after, end);
        } else if !skip {
          TurnsExplained(env, a, k + 1, st1);
          ExplainedEarlier(env, st, st1, after, end);
        }
    }
  }

  lemma {:induction false} SubsExplained(env: Env, a: Agent, i: nat, st: State)
    requires st.calls <= env.maxLlmCalls
    ensures Explained(env, st, RunSubs(env, a, i, st).0, RunSubs(env, a, i, st).1)
    decreases env.maxLlmCalls - st.calls, a, 0, |a.subs| - i
  {
    hide Explained;
    NothingToExplain(env, st, st);
    if i < |a.subs| && !env.cancelled(st) {
      RunExplained(env, a.subs[i], st);
      var (st1, end) := Run(env, a.subs[i], st);
      if end == Done && !st1.paused {
        SubsExplained(env, a, i + 1, st1);
        ExplainedEarlier(env, st, st1, RunSubs(env, a, i + 1, st1).0, RunSubs(env, a, i + 1, st1).1);
      }
    }
  }

  lemma {:induction false} IterationsExplained(env: Env, a: Agent, n: nat, st: State)
    requires st.calls <= env.maxLlmCalls
    ensures Explained(env, st, RunIterations(env, a, n, st).0, RunIterations(env, a, n, st).1)
    decreases env.maxLlmCalls - st.calls, a, 1, n
  {
    hide Explained;
    NothingToExplain(env, st, st);
    if n > 0 && !env.cancelled(st) {
      BodyExplained(env, a, 0, Ticked(st));
      var (st1, end, stop) := RunBody(env, a, 0, Ticked(st));
      ExplainedEarlier(env, st, Ticked(st), st1, end);
      if !stop {
        IterationsExplained(env, a, n - 1, st1);
        ExplainedEarlier(env, st, st1, RunIterations(env, a, n - 1, st1).0, RunIterations(env, a, n - 1, st1).1);
      }
    }
  }

  lemma {:induction false} BodyExplained(env: Env, a: Agent, j: nat, st: State)
    requires st.calls <= env.maxLlmCalls
    ensures Explained(env, st, RunBody(env, a, j, st).0, RunBody(env, a, j, st).1)
    ensures !RunBody(env, a, j, st).2 && RunBody(env, a, j, st).0.paused ==> st.paused
    decreases env.maxLlmCalls - st.calls, a, 0, |a.subs| - j
  {
    hide Explained;
    NothingToExplain(env, st, st);
    if j < |a.subs| && !env.cancelled(st) {
      RunExplained(env, a.subs[j], st);
      var (st1, end) := Run(env, a.subs[j], st);
      if end == Done && !st1.paused {
        BodyExplained(env, a, j + 1, st1);
        ExplainedEarlier(env, st, st1, RunBody(env, a, j + 1, st1).0, RunBody(env, a, j + 1, st1).1);
      }
    }
  }

  // ---- The budget is all that stops a transfer chain ---------------------------------------------------

  const PING: Agent := Agent("ping", Llm(10, false), [PONG])
  const PONG: Agent := Agent("pong", Llm(10, false), [])

  /** Two agents that always hand over to each other. */
  function PingPong(n: nat): Env {
    Env(PING, n, _ => false, (_, _) => Enter,
        (a: Agent, _: State) => Tools([if a.name == "ping" then "pong" else "ping"], false, false, false),
        (_, _) => 0)
  }

  /** For every cap there is a run that uses all of it: without a cap this chain would not end. */
  lemma {:induction false} PingPongUsesBudget(n: nat, a: Agent, st: State)
    requires a in {PING, PONG} && st.calls <= n
    ensures Run(PingPong(n), a, st).1 == BudgetExhausted && Run(PingPong(n), a, st).0.calls == n
    decreases n - st.calls
  {
    var env := PingPong(n);
    if st.calls < n {
      var other := if a == PING then PONG else PING;
      OtherFound(a);
      assert [other.name][..0] == [];
      assert Target(env, a, [other.name]) == Some(other);
      PingPongUsesBudget(n, other, st.(calls := st.calls + 1, tick := st.tick + 2, transfers := st.transfers + 1));
    }
  }

  lemma OtherFound(a: Agent)
    requires a in {PING, PONG}
    ensures ResolveTransferTarget(a, Some(PING), if a == PING then "pong" else "ping") ==
            Some(if a == PING then PONG else PING)
  {
    assert "ping"[1] != "pong"[1];
    assert FindAgent(PONG, "ping") == None;
    assert FindAmong(PING, 0, "pong") == Some(PONG);
  }
}
