/**
 * The runner around an agent (src/runner/runner.rs:334-358, src/core/services.rs:83-122): every event that the agent
 * yields, unless it is partial or its author is "user", is taken out of the session, if it is there, and appended
 * without its temporary state.
 */
module Hosting {
  import opened Wrappers
  import opened Genai
  import opened LlmAgent

  const TEMP_PREFIX := "temp:"

  function WithoutTemp(e: Event): Event {
    var delta := e.actions.stateDelta;
    e.(actions := e.actions.(stateDelta := map k | k in delta && !(TEMP_PREFIX <= k) :: delta[k]))
  }

  function RemoveLast(log: seq<Event>, id: string): seq<Event> {
    var k := LastWithId(log, id);
    if k < 0 then log else log[..k] + log[k + 1..]
  }

  const USER := "user"

  /** The runner takes events by this author for the user's, which it has stored before. */
  predicate Stores(e: Event) {
    e.partial != Some(true) && e.author != USER
  }

  function Persist(log: seq<Event>, e: Event): seq<Event> {
    if Stores(e) then RemoveLast(log, e.id) + [WithoutTemp(e)] else log
  }

  /** An operation of the agent, with what the runner does about it. */
  function HostOp(log: seq<Event>, op: Op): seq<Event> {
    if op.Yield? then Persist(log, op.event) else ApplyOp(log, op)
  }

  /** The session's events after a trace, under a runner. */
  function Hosted(log: seq<Event>, t: seq<Op>): seq<Event> {
    if t == [] then log else HostOp(Hosted(log, t[..|t| - 1]), t[|t| - 1])
  }

  /** The two events that an agent yields but does not put in the session. */
  predicate Marker(e: Event) {
    || e.actions.escalate == Some(true)
    || (e.response.errorCode == Some("MAX_ITERATIONS") && e.response.content.None? && e.turnComplete.None?)
  }

  /** What the session holds of a yielded event: an agent called "user" is left with what it has put there itself. */
  function StoredAs(e: Event): seq<Event> {
    if e.partial == Some(true) then []
    else if e.author != USER then [WithoutTemp(e)]
    else if Marker(e) then [] else [e]
  }

  function StoredIn(stream: seq<Event>): seq<Event> {
    if stream == [] then [] else StoredIn(stream[..|stream| - 1]) + StoredAs(stream[|stream| - 1])
  }

  /** Every event of the stream that is not partial, without its temporary state. */
  function Persisted(stream: seq<Event>): seq<Event> {
    if stream == [] then []
    else
      var e := stream[|stream| - 1];
      Persisted(stream[..|stream| - 1]) + (if e.partial == Some(true) then [] else [WithoutTemp(e)])
  }

  /** No event of the session has the id of a marker when the runner is about to store it. */
  ghost predicate NewMarkers(log: seq<Event>, t: seq<Op>) {
    forall i | 0 <= i < |t| && t[i].Yield? && Marker(t[i].event) && Stores(t[i].event) ::
      LastWithId(Hosted(log, t[..i]), t[i].event.id) < 0
  }

  /** Under a runner the session grows by exactly what the stream leaves to be stored, in order, and nothing twice. */
  ghost predicate Mirrors(log: seq<Event>, t: seq<Op>) {
    NewMarkers(log, t) ==> Hosted(log, t) == log + StoredIn(Yields(t))
  }

  /** Only temporary state is left out, and nothing else of the event changes. */
  lemma WithoutTempKeeps(e: Event)
    ensures var delta := WithoutTemp(e).actions.stateDelta;
            && WithoutTemp(e).(actions := WithoutTemp(e).actions.(stateDelta := e.actions.stateDelta)) == e
            && (forall key :: key in delta <==> key in e.actions.stateDelta && !("temp:" <= key))
            && (forall key | key in delta :: delta[key] == e.actions.stateDelta[key])
  {
  }

  lemma HostedSnoc(log: seq<Event>, t: seq<Op>, op: Op)
    ensures Hosted(log, t + [op]) == HostOp(Hosted(log, t), op)
  {
    assert (t + [op])[..|t|] == t;
  }

  lemma StoredSnoc(stream: seq<Event>, e: Event)
    ensures StoredIn(stream + [e]) == StoredIn(stream) + StoredAs(e)
    ensures Persisted(stream + [e]) ==
            Persisted(stream) + (if e.partial == Some(true) then [] else [WithoutTemp(e)])
  {
    assert (stream + [e])[..|stream|] == stream;
  }

  lemma NewMarkersSnoc(log: seq<Event>, t: seq<Op>, op: Op)
    requires NewMarkers(log, t + [op])
    ensures NewMarkers(log, t)
    ensures op.Yield? && Marker(op.event) && Stores(op.event) ==> LastWithId(Hosted(log, t), op.event.id) < 0
  {
    hide Marker, Hosted, Stores;
    var u := t + [op];
    forall i | 0 <= i < |t| && t[i].Yield? && Marker(t[i].event) && Stores(t[i].event)
      ensures LastWithId(Hosted(log, t[..i]), t[i].event.id) < 0
    {
      assert u[i] == t[i] && u[..i] == t[..i];
    }
    assert u[|t|] == op && u[..|t|] == t;
  }

  /** What is not recorded: executions, the pause, partial events, and markers, which the runner appends. */
  lemma SilentMirrors(log: seq<Event>, t: seq<Op>, op: Op)
    requires Mirrors(log, t)
    requires op.Ran? || op.Pause? || (op.Yield? && (op.event.partial == Some(true) || Marker(op.event)))
    ensures Mirrors(log, t + [op])
  {
    hide Hosted, Yields, StoredIn, Marker, NewMarkers;
    if NewMarkers(log, t + [op]) {
      NewMarkersSnoc(log, t, op);
      HostedSnoc(log, t, op);
      AppliedSnoc(log, t, op);
      if op.Yield? {
        StoredSnoc(Yields(t), op.event);
        assert StoredIn(Yields(t)) + [] == StoredIn(Yields(t));
      }
    }
  }

  lemma PersistedInPlace(log: seq<Event>, e: Event)
    requires e.partial != Some(true) && !Marker(e)
    ensures Persist(log + [e], e) == log + StoredAs(e)
    ensures LastWithId(log + [e], e.id) == |log|
  {
    hide WithoutTemp;
    CutLast(log, e);
    LastAtEnd(log, e);
    assert RemoveLast(log + [e], e.id) == log + [] == log;
  }

  lemma CutLast(log: seq<Event>, e: Event)
    ensures (log + [e])[..|log|] == log && (log + [e])[|log| + 1..] == []
  {
  }

  lemma LastAtEnd(log: seq<Event>, e: Event)
    ensures LastWithId(log + [e], e.id) == |log|
  {
    assert (log + [e])[|log|] == e;
  }

  /** What the agent puts in the session, before it yields it. */
  lemma HostedPush(log: seq<Event>, t: seq<Op>, first: Event, stamps: seq<Op>, e: Event)
    requires if stamps == [] then first == e else stamps == [Op.Stamp(e)] && first.id == e.id
    ensures var u := t + [Push(first)] + stamps; Hosted(log, u) == Hosted(log, t) + [e] && Yields(u) == Yields(t)
  {
    StampedInPlace(Hosted(log, t), first, e);
    hide Hosted, Yields, StampOver;
    var pushed := t + [Push(first)];
    HostedSnoc(log, t, Push(first));
    AppliedSnoc(log, t, Push(first));
    if stamps != [] {
      HostedSnoc(log, pushed, Op.Stamp(e));
      AppliedSnoc(log, pushed, Op.Stamp(e));
    } else {
      assert pushed + stamps == pushed;
    }
  }

  lemma HostedYield(log: seq<Event>, t: seq<Op>, e: Event)
    ensures Hosted(log, t + [Yield(e)]) == Persist(Hosted(log, t), e) && Yields(t + [Yield(e)]) == Yields(t) + [e]
  {
    hide Hosted, Yields, Persist;
    HostedSnoc(log, t, Yield(e));
    AppliedSnoc(log, t, Yield(e));
  }

  lemma RecordedEffect(log: seq<Event>, t: seq<Op>, first: Event, stamps: seq<Op>, e: Event)
    requires e.partial != Some(true) && !Marker(e)
    requires if stamps == [] then first == e else stamps == [Op.Stamp(e)] && first.id == e.id
    ensures var u := t + ([Push(first)] + stamps + [Yield(e)]);
            Hosted(log, u) == Hosted(log, t) + StoredAs(e) && Yields(u) == Yields(t) + [e]
  {
    hide *;
    var pushed := t + [Push(first)] + stamps;
    assert t + ([Push(first)] + stamps + [Yield(e)]) == pushed + [Yield(e)];
    HostedPush(log, t, first, stamps, e);
    HostedYield(log, pushed, e);
    PersistedInPlace(Hosted(log, t), e);
  }

  /** An event that goes to session and stream alike keeps its place. */
  lemma RecordedMirrors(log: seq<Event>, t: seq<Op>, first: Event, stamps: seq<Op>, e: Event)
    requires Mirrors(log, t) && e.partial != Some(true) && !Marker(e)
    requires if stamps == [] then first == e else stamps == [Op.Stamp(e)] && first.id == e.id
    ensures Mirrors(log, t + ([Push(first)] + stamps + [Yield(e)]))
  {
    RecordedEffect(log, t, first, stamps, e);
    hide Hosted, Yields, StoredIn, Marker, NewMarkers, StoredAs;
    var ops := [Push(first)] + stamps + [Yield(e)];
    StoredSnoc(Yields(t), e);
    if NewMarkers(log, t + ops) {
      NewMarkersSplit(log, t, ops);
    }
  }

  lemma StampedInPlace(log: seq<Event>, first: Event, e: Event)
    requires first.id == e.id
    ensures StampOver(log + [first], e) == log + [e]
  {
    assert (log + [first])[|log|] == first;
  }

  // ---- When everything is stored -----------------------------------------------------------------------

  lemma {:induction false} StoredIsNoLonger(stream: seq<Event>)
    ensures |StoredIn(stream)| <= |Persisted(stream)|
    decreases stream
  {
    hide WithoutTemp, Marker;
    if stream != [] {
      StoredIsNoLonger(stream[..|stream| - 1]);
    }
  }

  /** The runner leaves the event in the session as it stores others, also if it is by an agent called "user". */
  predicate StoredLikeOthers(e: Event) {
    e.partial == Some(true) || e.author != USER || (!Marker(e) && WithoutTemp(e) == e)
  }

  /**
   * The session holds every event of a stream, without temporary state, if and only if no agent called "user" has
   * yielded a marker or an event with temporary state.
   */
  lemma {:induction false} AllStoredIff(stream: seq<Event>)
    ensures StoredIn(stream) == Persisted(stream) <==> forall i | 0 <= i < |stream| :: StoredLikeOthers(stream[i])
    decreases stream
  {
    if stream != [] {
      var init, e := stream[..|stream| - 1], stream[|stream| - 1];
      assert stream == init + [e];
      AllStoredIff(init);
      StoredIsNoLonger(init);
      StoredSnoc(init, e);
      hide StoredIn, Persisted, WithoutTemp, Marker;
      if e.partial != Some(true) {
        var xs, ys := StoredIn(init), Persisted(init);
        assert (ys + [WithoutTemp(e)])[..|ys|] == ys && (ys + [WithoutTemp(e)])[|ys|] == WithoutTemp(e);
        if StoredAs(e) != [] {
          var x := StoredAs(e)[0];
          assert StoredAs(e) == [x] && (xs + [x])[..|xs|] == xs && (xs + [x])[|xs|] == x;
        }
      }
    }
  }

  // ---- One run after another ---------------------------------------------------------------------------

  lemma {:induction false} HostedConcat(log: seq<Event>, t: seq<Op>, u: seq<Op>)
    ensures Hosted(log, t + u) == Hosted(Hosted(log, t), u)
    decreases u
  {
    if u == [] {
      assert t + u == t;
    } else {
      var n := |u| - 1;
      assert (t + u)[..|t + u| - 1] == t + u[..n] && (t + u)[|t + u| - 1] == u[n];
      hide HostOp;
      HostedConcat(log, t, u[..n]);
    }
  }

  lemma {:induction false} YieldsConcat(t: seq<Op>, u: seq<Op>)
    ensures Yields(t + u) == Yields(t) + Yields(u)
    decreases u
  {
    if u == [] {
      assert t + u == t;
    } else {
      var n := |u| - 1;
      assert (t + u)[..|t + u| - 1] == t + u[..n] && (t + u)[|t + u| - 1] == u[n];
      YieldsConcat(t, u[..n]);
    }
  }

  lemma {:induction false} StoredConcat(xs: seq<Event>, ys: seq<Event>)
    ensures StoredIn(xs + ys) == StoredIn(xs) + StoredIn(ys)
    decreases ys
  {
    if ys == [] {
      assert xs + ys == xs;
    } else {
      var n := |ys| - 1;
      assert (xs + ys)[..|xs + ys| - 1] == xs + ys[..n] && (xs + ys)[|xs + ys| - 1] == ys[n];
      hide StoredAs;
      StoredConcat(xs, ys[..n]);
    }
  }

  lemma NewMarkersSplit(log: seq<Event>, t: seq<Op>, u: seq<Op>)
    requires NewMarkers(log, t + u)
    ensures NewMarkers(log, t) && NewMarkers(Hosted(log, t), u)
  {
    hide Marker, Hosted, Stores;
    var v := t + u;
    forall i | 0 <= i < |t| && t[i].Yield? && Marker(t[i].event) && Stores(t[i].event)
      ensures LastWithId(Hosted(log, t[..i]), t[i].event.id) < 0
    {
      assert v[i] == t[i] && v[..i] == t[..i];
    }
    forall i | 0 <= i < |u| && u[i].Yield? && Marker(u[i].event) && Stores(u[i].event)
      ensures LastWithId(Hosted(Hosted(log, t), u[..i]), u[i].event.id) < 0
    {
      assert v[|t| + i] == u[i] && v[..|t| + i] == t + u[..i];
      HostedConcat(log, t, u[..i]);
    }
  }

  lemma MirrorsConcat(log: seq<Event>, t: seq<Op>, u: seq<Op>)
    requires Mirrors(log, t) && Mirrors(Hosted(log, t), u)
    ensures Mirrors(log, t + u)
  {
    hide NewMarkers, Hosted, Yields, StoredIn;
    if NewMarkers(log, t + u) {
      NewMarkersSplit(log, t, u);
      HostedConcat(log, t, u);
      YieldsConcat(t, u);
      StoredConcat(Yields(t), Yields(u));
    }
  }
}
