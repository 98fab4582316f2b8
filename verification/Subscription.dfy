/**
 * A subscriber of a task's updates (src/a2a/task_service.rs:117-126, 155-176; src/a2a/server.rs:522-538).  Updates pass
 * through a broadcast channel with a fixed number of slots: a sender that finds them full overwrites the oldest update,
 * and a receiver that has fallen behind goes on with the oldest one left.
 *
 * The run sends and the handler receives at their own pace.  A schedule is any sequence of enabled steps of the two.
 */
module Subscription {
  import opened Wrappers
  import opened A2aTypes

  const SLOTS := 32

  predicate IsFinal(u: TaskUpdate) { u.StatusUpdate? && u.isFinal }

  /**
   * `sent` counts the updates sent since the subscription, `cursor` is the position of the next one to receive and
   * `received` the positions received.  The receiver closes after a final update.
   */
  datatype Subscriber = Subscriber(sent: nat, cursor: nat, received: seq<nat>, open: bool)

  datatype Step = Send | Receive

  const SUBSCRIBED: Subscriber := Subscriber(0, 0, [], true)

  predicate Shaped(us: seq<TaskUpdate>, s: Subscriber) {
    && s.cursor <= s.sent <= |us|
    && forall i | 0 <= i < |s.received| :: s.received[i] < s.cursor
  }

  predicate Enabled(us: seq<TaskUpdate>, s: Subscriber, step: Step) {
    match step
    case Send => s.sent < |us|
    case Receive => s.open && s.cursor < s.sent
  }

  /** A receiver whose next update was overwritten is told so, and moves on. */
  function Apply(us: seq<TaskUpdate>, s: Subscriber, step: Step): (t: Subscriber)
    requires Shaped(us, s) && Enabled(us, s, step)
    ensures Shaped(us, t)
  {
    match step
    case Send => s.(sent := s.sent + 1)
    case Receive =>
      if s.cursor + SLOTS < s.sent then s.(cursor := s.sent - SLOTS)
      else Subscriber(s.sent, s.cursor + 1, s.received + [s.cursor], !IsFinal(us[s.cursor]))
  }

  ghost predicate Leads(us: seq<TaskUpdate>, s: Subscriber, steps: seq<Step>, t: Subscriber)
    requires Shaped(us, s)
    decreases steps
  {
    if steps == [] then s == t
    else Enabled(us, s, steps[0]) && Leads(us, Apply(us, s, steps[0]), steps[1..], t)
  }

  /** The frames for the updates received. */
  function Frames(us: seq<TaskUpdate>, received: seq<nat>): seq<StreamingResult>
    requires forall i | 0 <= i < |received| :: received[i] < |us|
  {
    seq(|received|, i requires 0 <= i < |received| => Live(us[received[i]]))
  }

  /** The updates of a run: the last one is final, and no other. */
  ghost predicate EndsFinal(us: seq<TaskUpdate>) {
    us != [] && forall i | 0 <= i < |us| :: IsFinal(us[i]) <==> i == |us| - 1
  }

  // ---- The code ----------------------------------------------------------------------------------------

  /** Who moves at each tick, where both can. */
  type Pace = nat -> bool

  function WorkLeft(us: seq<TaskUpdate>, s: Subscriber): nat
    requires Shaped(us, s)
  {
    (|us| - s.sent) + (|us| - s.cursor)
  }

  /** The step taken at a tick, as long as there is one and the receiver is open. */
  function NextStep(us: seq<TaskUpdate>, pace: Pace, tick: nat, s: Subscriber): Option<Step> {
    if !s.open then None
    else if s.sent < |us| && (pace(tick) || s.cursor >= s.sent) then Some(Send)
    else if s.cursor < s.sent then Some(Receive)
    else None
  }

  /** Where the run and the receiver end up. */
  function Play(us: seq<TaskUpdate>, pace: Pace, tick: nat, s: Subscriber): (t: Subscriber)
    requires Shaped(us, s)
    ensures Shaped(us, t)
    decreases WorkLeft(us, s)
  {
    var step := NextStep(us, pace, tick, s);
    if step.None? then s else Play(us, pace, tick + 1, Apply(us, s, step.value))
  }

  /** The receive loop of the stream handler, between the sends of the run. */
  method Forward(us: seq<TaskUpdate>, pace: Pace) returns (frames: seq<StreamingResult>)
    ensures frames == Frames(us, Play(us, pace, 0, SUBSCRIBED).received)
  {
    frames := [];
    var sent, cursor, tick := 0, 0, 0;
    ghost var s := SUBSCRIBED;
    while true
      invariant Shaped(us, s) && s.open && s.sent == sent && s.cursor == cursor
      invariant frames == Frames(us, s.received)
      invariant Play(us, pace, tick, s) == Play(us, pace, 0, SUBSCRIBED)
      decreases WorkLeft(us, s)
    {
      if sent < |us| && (pace(tick) || cursor >= sent) {
        s := Apply(us, s, Send);
        sent := sent + 1;
      } else if cursor == sent {
        return;
      } else {
        s := Apply(us, s, Receive);
        if cursor + SLOTS < sent {
          cursor := sent - SLOTS;
        } else {
          frames := frames + [Live(us[cursor])];
          if IsFinal(us[cursor]) {
            return;
          }
          cursor := cursor + 1;
        }
      }
      tick := tick + 1;
    }
  }

  // ---- Schedules ---------------------------------------------------------------------------------------

  /** What is played is a schedule, and it ends with the receiver closed. */
  lemma {:induction false} PlayCloses(us: seq<TaskUpdate>, pace: Pace, tick: nat, s: Subscriber)
    requires Shaped(us, s) && EndsFinal(us) && (s.open ==> s.cursor < |us|)
    ensures !Play(us, pace, tick, s).open
    ensures exists steps :: Leads(us, s, steps, Play(us, pace, tick, s))
    decreases WorkLeft(us, s)
  {
    var step := NextStep(us, pace, tick, s);
    if step.None? {
      assert Leads(us, s, [], s);
    } else {
      var t := Apply(us, s, step.value);
      PlayCloses(us, pace, tick + 1, t);
      var rest :| Leads(us, t, rest, Play(us, pace, tick + 1, t));
      assert ([step.value] + rest)[1..] == rest;
      assert Leads(us, s, [step.value] + rest, Play(us, pace, tick, s));
    }
  }

  lemma {:induction false} ClosedStays(us: seq<TaskUpdate>, s: Subscriber, steps: seq<Step>, t: Subscriber)
    requires Shaped(us, s) && !s.open && Leads(us, s, steps, t)
    ensures t.received == s.received
    decreases steps
  {
    if steps != [] {
      ClosedStays(us, Apply(us, s, steps[0]), steps[1..], t);
    }
  }

  lemma {:induction false} FollowsSchedule(us: seq<TaskUpdate>, pace: Pace, tick: nat, s: Subscriber,
                                           steps: seq<Step>, t: Subscriber)
    requires Shaped(us, s) && Leads(us, s, steps, t) && !t.open
    requires forall i | 0 <= i < |steps| :: pace(tick + i) <==> steps[i].Send?
    ensures Play(us, pace, tick, s).received == t.received
    decreases steps
  {
    if !s.open {
      ClosedStays(us, s, steps, t);
    } else if steps != [] {
      assert pace(tick + 0) <==> steps[0].Send?;
      forall i | 0 <= i < |steps[1..]| ensures pace(tick + 1 + i) <==> steps[1..][i].Send? {
        assert pace(tick + (i + 1)) <==> steps[i + 1].Send?;
      }
      FollowsSchedule(us, pace, tick + 1, Apply(us, s, steps[0]), steps[1..], t);
    }
  }

  /** Every schedule that closes the receiver is played at some pace: quantifying over paces covers them all. */
  lemma EveryScheduleIsPlayed(us: seq<TaskUpdate>, steps: seq<Step>, t: Subscriber)
    requires Leads(us, SUBSCRIBED, steps, t) && !t.open
    ensures exists pace: Pace :: Play(us, pace, 0, SUBSCRIBED).received == t.received
  {
    var pace: Pace := (tick: nat) => tick < |steps| && steps[tick].Send?;
    FollowsSchedule(us, pace, 0, SUBSCRIBED, steps, t);
  }

  /** Every schedule ends. */
  lemma {:induction false} SchedulesEnd(us: seq<TaskUpdate>, s: Subscriber, steps: seq<Step>, t: Subscriber)
    requires Shaped(us, s) && Leads(us, s, steps, t)
    ensures |steps| <= WorkLeft(us, s)
    decreases steps
  {
    if steps != [] {
      SchedulesEnd(us, Apply(us, s, steps[0]), steps[1..], t);
    }
  }

  // ---- What is received --------------------------------------------------------------------------------

  function UpTo(n: nat): seq<nat> {
    seq(n, i => i)
  }

  /** A receiver that holds everything before its cursor. */
  predicate Complete(s: Subscriber) { s.received == UpTo(s.cursor) }

  /** In the order sent, without repeats. */
  predicate Increasing(xs: seq<nat>) {
    forall i, j | 0 <= i < j < |xs| :: xs[i] < xs[j]
  }

  /** As many updates as there are slots, or fewer: nothing is overwritten at any pace. */
  lemma {:induction false} FewUpdatesAllArrive(us: seq<TaskUpdate>, pace: Pace, tick: nat, s: Subscriber)
    requires Shaped(us, s) && EndsFinal(us) && |us| <= SLOTS && Complete(s)
    requires if s.open then s.cursor < |us| else s.cursor == |us|
    ensures Play(us, pace, tick, s).received == UpTo(|us|)
    decreases WorkLeft(us, s)
  {
    var step := NextStep(us, pace, tick, s);
    if step.Some? {
      FewUpdatesAllArrive(us, pace, tick + 1, Apply(us, s, step.value));
    }
  }

  /** Once the receiver has passed the first update, it never receives it. */
  lemma {:induction false} FirstIsGone(us: seq<TaskUpdate>, pace: Pace, tick: nat, s: Subscriber)
    requires Shaped(us, s) && s.cursor > 0 && 0 !in s.received
    ensures 0 !in Play(us, pace, tick, s).received
    decreases WorkLeft(us, s)
  {
    var step := NextStep(us, pace, tick, s);
    if step.Some? {
      FirstIsGone(us, pace, tick + 1, Apply(us, s, step.value));
    }
  }

  /** More updates than slots: if the run sends them all at once, the first is overwritten. */
  lemma {:induction false} ManyUpdatesLoseTheFirst(us: seq<TaskUpdate>, eager: Pace, tick: nat, s: Subscriber)
    requires Shaped(us, s) && |us| > SLOTS && s.open && s.cursor == 0 && s.received == []
    requires forall k: nat :: eager(k)
    ensures 0 !in Play(us, eager, tick, s).received
    decreases |us| - s.sent
  {
    if s.sent < |us| {
      ManyUpdatesLoseTheFirst(us, eager, tick + 1, Apply(us, s, Send));
    } else {
      FirstIsGone(us, eager, tick + 1, Apply(us, s, Receive));
    }
  }

  /** At any pace the updates received are in order, none twice, and the final one is the last of them. */
  lemma {:induction false} ReceivedInOrder(us: seq<TaskUpdate>, pace: Pace, tick: nat, s: Subscriber)
    requires Shaped(us, s) && EndsFinal(us) && Increasing(s.received)
    requires if s.open then s.cursor < |us| else s.received != [] && s.received[|s.received| - 1] == |us| - 1
    ensures var t := Play(us, pace, tick, s);
            Increasing(t.received) && t.received != [] && t.received[|t.received| - 1] == |us| - 1
    decreases WorkLeft(us, s)
  {
    var step := NextStep(us, pace, tick, s);
    if step.Some? {
      ReceivedInOrder(us, pace, tick + 1, Apply(us, s, step.value));
    }
  }

  /** All updates reach the subscriber at every pace if and only if there are at most as many as slots. */
  lemma AllArriveIff(us: seq<TaskUpdate>)
    requires EndsFinal(us)
    ensures (forall pace: Pace :: Play(us, pace, 0, SUBSCRIBED).received == UpTo(|us|)) <==> |us| <= 32
  {
    if |us| <= SLOTS {
      forall pace: Pace ensures Play(us, pace, 0, SUBSCRIBED).received == UpTo(|us|) {
        FewUpdatesAllArrive(us, pace, 0, SUBSCRIBED);
      }
    } else {
      var eager: Pace := _ => true;
      ManyUpdatesLoseTheFirst(us, eager, 0, SUBSCRIBED);
      assert UpTo(|us|)[0] == 0;
    }
  }
}
