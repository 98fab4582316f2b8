/**
 * A whole invocation: LLM agents that run one after the other on one session, one bag and one budget.  Which agent runs
 * next, whether by a transfer, a sequence or a loop, is left open: the laws hold for every order, and agents may recur.
 */
module LlmInvocation {
  import opened Wrappers
  import opened Genai
  import opened Attributes
  import opened Dispatch
  import opened LlmAgent
  import opened Hosting
  import opened LlmLog
  import opened LlmGates

  /** An agent that gets its turn, and what it will meet. */
  datatype Entry = Entry(agent: LlmConfig, world: World, mode: StreamingMode)

  /** An invocation so far; an error ends it. */
  datatype Invoked = Invoked(trace: seq<Op>, log: seq<Event>, bag: Bag, calls: nat, failed: bool)

  function RunAll(entries: seq<Entry>, log: seq<Event>, bag: Bag, calls: nat): Invoked
    decreases entries
  {
    if entries == [] then Invoked([], log, bag, calls, false)
    else
      var e := entries[0];
      var (s, end) := Run(e.agent, e.world, e.mode, log, bag, calls);
      var log1 := Hosted(log, s.trace);
      if end.Errored? then Invoked(s.trace, log1, s.bag, s.calls, true)
      else
        var rest := RunAll(entries[1..], log1, s.bag, s.calls);
        rest.(trace := s.trace + rest.trace)
  }

  // ---- The session of an invocation --------------------------------------------------------------------

  lemma {:induction false} KeptInConcat(xs: seq<Event>, ys: seq<Event>)
    ensures KeptIn(xs + ys) == KeptIn(xs) + KeptIn(ys)
    decreases ys
  {
    if ys == [] {
      assert xs + ys == xs;
    } else {
      var n := |ys| - 1;
      assert (xs + ys)[..|xs + ys| - 1] == xs + ys[..n] && (xs + ys)[|xs + ys| - 1] == ys[n];
      hide Kept;
      KeptInConcat(xs, ys[..n]);
    }
  }

  /** At every yield point the session that a runner keeps is the initial one and what has been yielded. */
  ghost predicate MirrorsAtYields(log: seq<Event>, t: seq<Op>) {
    forall i | 0 <= i < |t| && t[i].Yield? :: Mirrors(log, t[..i + 1])
  }

  lemma YieldPointsConcat(log: seq<Event>, t: seq<Op>, u: seq<Op>)
    requires Mirrors(log, t) && MirrorsAtYields(log, t) && MirrorsAtYields(Hosted(log, t), u)
    ensures MirrorsAtYields(log, t + u)
  {
    hide Mirrors;
    forall i | 0 <= i < |t + u| && (t + u)[i].Yield? ensures Mirrors(log, (t + u)[..i + 1]) {
      if i < |t| {
        assert (t + u)[..i + 1] == t[..i + 1] && t[i].Yield?;
      } else {
        var v := u[..i - |t| + 1];
        assert u[i - |t|].Yield?;
        MirrorsConcat(log, t, v);
        assert (t + u)[..i + 1] == t + v;
      }
    }
  }

  lemma RunMirrors(e: Entry, log: seq<Event>, bag: Bag, calls: nat)
    ensures var (s, end) := Run(e.agent, e.world, e.mode, log, bag, calls);
            && Mirrors(log, s.trace) && MirrorsAtYields(log, s.trace)
            && Paired(KeptIn(Yields(s.trace)), end.Errored?)
  {
    RunKeeps(e.agent, e.world, e.mode, log, bag, calls);
    hide Run, Applied, Yields, KeptIn, Paired, Mirrors;
  }

  lemma PairedConcat(xs: seq<Event>, ys: seq<Event>, failed: bool)
    requires Paired(xs, false) && Paired(ys, failed)
    ensures Paired(xs + ys, failed)
  {
    hide HasCalls, Answers;
    var zs := xs + ys;
    forall i | 0 <= i < |zs| - 1 && HasCalls(zs[i]) ensures Answers(zs[i + 1], zs[i]) {
      if i < |xs| {
        assert zs[i] == xs[i] && i < |xs| - 1 && zs[i + 1] == xs[i + 1];
      } else {
        assert zs[i] == ys[i - |xs|] && zs[i + 1] == ys[i + 1 - |xs|];
      }
    }
  }

  /**
   * Over a whole invocation, under a runner and as long as the ids of markers are new, the session at every yield point
   * is the initial one followed by what the events yielded so far leave to be stored.  Among the kept ones every model
   * event that has calls is followed by its answer, except perhaps the last one of an invocation that failed.
   */
  lemma {:induction false} InvocationKeepsItsSession(entries: seq<Entry>, log: seq<Event>, bag: Bag, calls: nat)
    ensures var r := RunAll(entries, log, bag, calls);
            && r.log == Hosted(log, r.trace) && Mirrors(log, r.trace) && MirrorsAtYields(log, r.trace)
            && Paired(KeptIn(Yields(r.trace)), r.failed)
    decreases entries
  {
    if entries != [] {
      var e := entries[0];
      var (s, end) := Run(e.agent, e.world, e.mode, log, bag, calls);
      var log1 := Hosted(log, s.trace);
      RunMirrors(e, log, bag, calls);
      hide Run, Hosted, Yields, KeptIn, Paired, Mirrors, MirrorsAtYields;
      if !end.Errored? {
        var rest := RunAll(entries[1..], log1, s.bag, s.calls);
        InvocationKeepsItsSession(entries[1..], log1, s.bag, s.calls);
        HostedConcat(log, s.trace, rest.trace);
        MirrorsConcat(log, s.trace, rest.trace);
        YieldPointsConcat(log, s.trace, rest.trace);
        YieldsConcat(s.trace, rest.trace);
        KeptInConcat(Yields(s.trace), Yields(rest.trace));
        PairedConcat(KeptIn(Yields(s.trace)), KeptIn(Yields(rest.trace)), rest.failed);
      }
    }
  }

  /** No event that is yielded is by an agent called "user". */
  predicate NotUsers(t: seq<Op>) {
    forall i | 0 <= i < |t| && t[i].Yield? :: t[i].event.author != USER
  }

  lemma {:induction false} YieldsNotUsers(t: seq<Op>)
    requires NotUsers(t)
    ensures forall i | 0 <= i < |Yields(t)| :: Yields(t)[i].author != USER
    decreases t
  {
    if t != [] {
      YieldsNotUsers(t[..|t| - 1]);
    }
  }

  /** Without an agent called "user" the runner stores everything. */
  lemma StoredWhole(log: seq<Event>, t: seq<Op>)
    requires Mirrors(log, t) && NotUsers(t) && NewMarkers(log, t)
    ensures Hosted(log, t) == log + Persisted(Yields(t))
  {
    YieldsNotUsers(t);
    AllStoredIff(Yields(t));
    hide Hosted, Yields, StoredIn, Persisted, Marker;
  }

  lemma {:induction false} InvocationIsNotUsers(entries: seq<Entry>, log: seq<Event>, bag: Bag, calls: nat)
    requires forall e | e in entries :: e.agent.name != "user"
    ensures NotUsers(RunAll(entries, log, bag, calls).trace)
    decreases entries
  {
    if entries != [] {
      var e := entries[0];
      var (s, end) := Run(e.agent, e.world, e.mode, log, bag, calls);
      RunIsFrom(e.agent, e.world, e.mode, log, bag, calls);
      hide Run, Hosted, Unmarked;
      if !end.Errored? {
        InvocationIsNotUsers(entries[1..], Hosted(log, s.trace), s.bag, s.calls);
      }
    }
  }

  /**
   * If no agent is called "user" and the ids of markers are new, the session at every yield point of an invocation, and
   * at its end, is the initial one followed by every event yielded so far that is not partial, without its temporary
   * state: markers too, and nothing twice.
   */
  lemma InvocationIsStoredWhole(entries: seq<Entry>, log: seq<Event>, bag: Bag, calls: nat)
    requires forall e | e in entries :: e.agent.name != "user"
    requires NewMarkers(log, RunAll(entries, log, bag, calls).trace)
    ensures var r := RunAll(entries, log, bag, calls);
            r.log == log + Persisted(Yields(r.trace)) && StoredAtYields(log, r.trace)
  {
    var r := RunAll(entries, log, bag, calls);
    var t := r.trace;
    InvocationIsNotUsers(entries, log, bag, calls);
    InvocationKeepsItsSession(entries, log, bag, calls);
    hide *;
    StoredWhole(log, t);
    StoredWholeAtYields(log, t);
  }

  ghost predicate StoredAtYields(log: seq<Event>, t: seq<Op>) {
    forall i | 0 <= i < |t| && t[i].Yield? :: Hosted(log, t[..i + 1]) == log + Persisted(Yields(t[..i + 1]))
  }

  lemma StoredWholeAtYields(log: seq<Event>, t: seq<Op>)
    requires MirrorsAtYields(log, t) && NotUsers(t) && NewMarkers(log, t)
    ensures StoredAtYields(log, t)
  {
    hide Hosted, Yields, Persisted, Mirrors, NewMarkers;
    forall i | 0 <= i < |t| && t[i].Yield? ensures Hosted(log, t[..i + 1]) == log + Persisted(Yields(t[..i + 1])) {
      assert t == t[..i + 1] + t[i + 1..];
      NewMarkersSplit(log, t[..i + 1], t[i + 1..]);
      assert Mirrors(log, t[..i + 1]);
      StoredWhole(log, t[..i + 1]);
    }
  }

  // ---- The agent's name decides ------------------------------------------------------------------------

  ghost predicate RunStoredWhole(a: LlmConfig, w: World, mode: StreamingMode, log: seq<Event>, bag: Bag, calls: nat) {
    var t := Run(a, w, mode, log, bag, calls).0.trace;
    NewMarkers(log, t) ==> Hosted(log, t) == log + Persisted(Yields(t))
  }

  /** Nothing but an agent's loop. */
  const QUIET: World := World(
    "", Ok(None), Ok(Request(map[], None)), _ => [], None, _ => false, None, (_, _) => Err(""), (_, _) => Err(""),
    (_, _) => Err(""), (_, _, _) => Err(""), (_, _) => Err(""), Ok(None), HARMLESS, _ => ((_, _, _) => Err("")), s => s,
    _ => None, _ => false, _ => "", (_, _) => "")

  /** An agent called "user" that has no iterations yields its marker, and the session stays empty. */
  lemma UsersMarkerIsLost(a: LlmConfig, bag: Bag)
    requires a.name == USER && a.maxIterations == 0 && !a.includeHistory && bag.authIds.None? && bag.confirmations.None?
    ensures !RunStoredWhole(a, QUIET, StreamingMode.Whole, [], bag, 0)
    ensures Hosted([], Run(a, QUIET, StreamingMode.Whole, [], bag, 0).0.trace) == []
  {
    var marker := ExhaustedBudgetEvent(a, QUIET);
    QuietTrace(a, bag);
    hide Run, QUIET, Hosted, NewMarkers, Persisted, Yields;
    MarkerIsLost(marker);
  }

  lemma QuietTrace(a: LlmConfig, bag: Bag)
    requires a.maxIterations == 0 && bag.authIds.None? && bag.confirmations.None?
    ensures Run(a, QUIET, StreamingMode.Whole, [], bag, 0).0.trace == [Yield(ExhaustedBudgetEvent(a, QUIET))]
  {
    NothingToReplay(a, bag);
    hide ReplayAll, InitialContents;
  }

  lemma MarkerIsLost(marker: Event)
    requires Marker(marker) && marker.author == USER && marker.partial.None?
    ensures var t := [Yield(marker)]; NewMarkers([], t) && Hosted([], t) == [] != Persisted(Yields(t))
  {
    hide WithoutTemp, Marker;
    var t := [Yield(marker)];
    assert t[..0] == [] && Yields([]) == [];
    assert Yields(t) == [] + [marker] == [marker] && [marker][..0] == [];
    assert Persisted([marker]) == [] + [WithoutTemp(marker)];
    assert Hosted([], t) == Persist([], marker) == [];
  }

  lemma NothingToReplay(a: LlmConfig, bag: Bag)
    requires bag.authIds.None? && bag.confirmations.None?
    ensures ReplayOf(a, QUIET, [], map[], bag) == NOTHING_REPLAYED
  {
    assert ResumedIds(bag) == [];
  }

  /**
   * All that the runs of agents with a name yield is stored, whatever they are and whatever they meet, if and only if
   * the name is not "user".  (A builder accepts that name.)
   */
  lemma StoredWholeIffNotCalledUser(name: string)
    ensures (forall a: LlmConfig, w: World, mode: StreamingMode, log: seq<Event>, bag: Bag, calls: nat
               | a.name == name :: RunStoredWhole(a, w, mode, log, bag, calls)) <==>
            name != "user"
  {
    if name == USER {
      UsersMarkerIsLost(LlmConfig(USER, 0, false, None, false, false, None), Bag(None, None, false));
    } else {
      forall a: LlmConfig, w: World, mode: StreamingMode, log: seq<Event>, bag: Bag, calls: nat | a.name == name
        ensures RunStoredWhole(a, w, mode, log, bag, calls)
      {
        var t := Run(a, w, mode, log, bag, calls).0.trace;
        RunIsFrom(a, w, mode, log, bag, calls);
        RunKeeps(a, w, mode, log, bag, calls);
        hide Run, Hosted, Yields, Persisted, StoredIn, Applied, KeptIn, Paired;
        if NewMarkers(log, t) {
          StoredWhole(log, t);
        }
      }
    }
  }

  // ---- The approvals of an invocation ------------------------------------------------------------------

  /** New call ids are fresh: no two calls share one, and none is among the ids that wait to be resumed. */
  predicate FreshCallIds(bag: Bag, calls: seq<FunctionCall>) {
    DistinctCallIds(calls) && forall c | c in calls && c.id.Some? :: c.id.value !in ResumedIds(bag)
  }

  /** What one run leaves over cannot be spent by it: its gated executions and the later ones have different ids. */
  lemma LaterIdsDiffer(bag: Bag, after: Bag, t: seq<Op>, u: seq<Op>)
    requires Accounts(bag, after, false, t) && AllApproved(bag, Executed(t)) && AllApproved(after, Executed(u))
    requires FreshCallIds(bag, CallsMade(t) + CallsMade(u))
    ensures forall x, y | x in Executed(t) && x.gated && y in Executed(u) && y.gated :: x.call.id != y.call.id
  {
    ApprovedIsUnblocked(bag);
    ApprovedIsUnblocked(after);
    hide ResumedIds, Approved, Executed, CallsMade, DistinctCallIds;
    forall x, y | x in Executed(t) && x.gated && y in Executed(u) && y.gated ensures x.call.id != y.call.id {
      assert x.call.id.value in ResumedIds(bag);
      assert x.call in CallsMade(t) ==> x.call in CallsMade(t) + CallsMade(u);
    }
  }

  /** Freshness passes to each run, and to the rest of the invocation on what is left of the bag. */
  lemma FreshParts(bag: Bag, after: Bag, made: seq<FunctionCall>, later: seq<FunctionCall>)
    requires FreshCallIds(bag, made + later)
    requires forall id | id in ResumedIds(after) :: id in ResumedIds(bag)
    ensures DistinctCallIds(made) && FreshCallIds(after, later)
  {
    hide ResumedIds;
    DistinctConcat(made, later);
    hide DistinctCallIds;
    assert forall c | c in later :: c in made + later;
  }

  /**
   * Gate safety over a whole invocation.  Whatever agents run, in whatever order, every gated execution was approved
   * when the invocation started; if the ids of new calls are fresh and no auth id is listed twice, gated executions
   * have distinct ids, so they map injectively into the approvals the invocation started with.
   */
  lemma {:induction false} InvocationSpendsApprovalsOnce(entries: seq<Entry>, log: seq<Event>, bag: Bag, calls: nat)
    requires Valid(bag)
    ensures var t := RunAll(entries, log, bag, calls).trace;
            && AllApproved(bag, Executed(t))
            && (AuthIdsDistinct(bag) && FreshCallIds(bag, CallsMade(t)) ==> SpentOnce(Executed(t)))
    decreases entries
  {
    if entries == [] {
      QuietTraces([]);
    } else {
      var e := entries[0];
      var (s, end) := Run(e.agent, e.world, e.mode, log, bag, calls);
      var t := s.trace;
      ApprovalsAreSpentOnce(e.agent, e.world, e.mode, log, bag, calls);
      RunAccounts(e.agent, e.world, e.mode, log, bag, calls);
      hide Run, Hosted, Executed, CallsMade, Approved, ResumedIds, AuthIdsDistinct, DistinctCallIds, SpentOnce, Valid;
      if !end.Errored? {
        var u := RunAll(entries[1..], Hosted(log, t), s.bag, s.calls).trace;
        InvocationSpendsApprovalsOnce(entries[1..], Hosted(log, t), s.bag, s.calls);
        ConcatTraces(t, u);
        if AuthIdsDistinct(bag) && FreshCallIds(bag, CallsMade(t) + CallsMade(u)) {
          FreshParts(bag, s.bag, CallsMade(t), CallsMade(u));
          LaterIdsDiffer(bag, s.bag, t, u);
          SpentOnceConcat(Executed(t), Executed(u));
        }
      }
    }
  }
}
