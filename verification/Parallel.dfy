/**
 * ParallelAgent (src/agents/parallel_agent.rs): child tasks send into one bounded channel, a consumer merges.
 *
 * Tasks and consumer interleave freely, so the model is a state machine whose steps are the points at which the
 * source awaits.  A schedule is any sequence of enabled steps.
 */
module Parallel {
  import opened Wrappers
  import opened Genai

  const CAPACITY := 64

  /** What a child's stream yields. */
  datatype Item = Ev(event: Event) | Failure(error: string)

  /** A parallel agent and, for each child, the stream it produces in this run. */
  datatype Config = Config(name: string, streams: seq<seq<Item>>)

  datatype Tagged = Tagged(child: nat, item: Item)

  datatype End = Running | Completed | Cancelled | FailedWith(error: string)

  /**
   * `next[i]` counts the items that child `i` has dealt with and `exited[i]` says that its task has dropped its
   * sender.  `end` is `Running` as long as the consumer holds the receiver.
   */
  datatype State = State(
    next: seq<nat>, exited: seq<bool>, buffer: seq<Tagged>, delivered: seq<Tagged>, cancelled: bool, end: End)

  datatype Step = Send(child: nat) | Exit(child: nat) | Receive | Close | Cancel

  // ---- Branch labels -----------------------------------------------------------------------------------

  const DIGITS := "0123456789"

  function Decimal(n: nat): string {
    if n < 10 then [DIGITS[n]] else Decimal(n / 10) + [DIGITS[n % 10]]
  }

  function Branch(name: string, child: nat): string {
    name + "." + Decimal(child)
  }

  function Stamp(cfg: Config, child: nat, item: Item): Item {
    if item.Ev? && item.event.branch.None?
    then Ev(item.event.(branch := Some(Branch(cfg.name, child)))) else item
  }

  // ---- The machine -------------------------------------------------------------------------------------

  function Init(cfg: Config): State {
    State(seq(|cfg.streams|, _ => 0), seq(|cfg.streams|, _ => false), [], [], false, Running)
  }

  predicate Shaped(cfg: Config, s: State) {
    && |s.next| == |s.exited| == |cfg.streams|
    && forall i | 0 <= i < |s.next| :: s.next[i] <= |cfg.streams[i]|
  }

  predicate Enabled(cfg: Config, s: State, step: Step)
    requires Shaped(cfg, s)
  {
    match step
    case Send(i) =>
      && i < |s.next| && !s.exited[i] && s.next[i] < |cfg.streams[i]|
      && (s.end == Running ==> |s.buffer| < CAPACITY)
    case Exit(i) => i < |s.next| && !s.exited[i] && s.next[i] == |cfg.streams[i]|
    case Receive => s.end == Running && s.buffer != []
    case Close => s.end == Running && s.buffer == [] && forall i | 0 <= i < |s.exited| :: s.exited[i]
    case Cancel => !s.cancelled
  }

  /**
   * Sending to a dropped receiver fails: a task gives up when an event is refused and ignores a refused error.  The
   * consumer looks at the cancellation flag after it has taken an item; an error ends the merged stream.
   */
  function Apply(cfg: Config, s: State, step: Step): State
    requires Shaped(cfg, s) && Enabled(cfg, s, step)
  {
    match step
    case Send(i) =>
      var item := cfg.streams[i][s.next[i]];
      if s.end == Running then
        s.(next := s.next[i := s.next[i] + 1], buffer := s.buffer + [Tagged(i, Stamp(cfg, i, item))])
      else if item.Ev? then s.(exited := s.exited[i := true])
      else s.(next := s.next[i := s.next[i] + 1])
    case Exit(i) => s.(exited := s.exited[i := true])
    case Receive =>
      var head := s.buffer[0];
      if s.cancelled then s.(buffer := [], end := Cancelled)
      else if head.item.Failure? then s.(buffer := [], end := FailedWith(head.item.error))
      else s.(buffer := s.buffer[1..], delivered := s.delivered + [head])
    case Close => s.(end := Completed)
    case Cancel => s.(cancelled := true)
  }

  /** `steps` is a schedule that leads from `s` to `t`. */
  ghost predicate Leads(cfg: Config, s: State, steps: seq<Step>, t: State)
    requires Shaped(cfg, s)
    decreases steps
  {
    if steps == [] then s == t
    else Enabled(cfg, s, steps[0]) && Leads(cfg, Apply(cfg, s, steps[0]), steps[1..], t)
  }

  /** Nothing but a cancellation can still happen. */
  ghost predicate Terminal(cfg: Config, s: State)
    requires Shaped(cfg, s)
  {
    forall step | step != Cancel :: !Enabled(cfg, s, step)
  }

  // ---- What each child contributes ---------------------------------------------------------------------

  function Of(child: nat, ts: seq<Tagged>): seq<Item> {
    if ts == [] then [] else (if ts[0].child == child then [ts[0].item] else []) + Of(child, ts[1..])
  }

  /** Child `i`'s stream with missing branches filled in, from item `n` on. */
  function Stamped(cfg: Config, i: nat, n: nat): seq<Item>
    requires i < |cfg.streams| && n <= |cfg.streams[i]|
    decreases |cfg.streams[i]| - n
  {
    if n == |cfg.streams[i]| then [] else [Stamp(cfg, i, cfg.streams[i][n])] + Stamped(cfg, i, n + 1)
  }

  lemma {:induction false} OfConcat(child: nat, xs: seq<Tagged>, ys: seq<Tagged>)
    ensures Of(child, xs + ys) == Of(child, xs) + Of(child, ys)
    decreases xs
  {
    if xs == [] {
      assert xs + ys == ys;
    } else {
      var h := if xs[0].child == child then [xs[0].item] else [];
      OfConcat(child, xs[1..], ys);
      assert (xs + ys)[0] == xs[0] && (xs + ys)[1..] == xs[1..] + ys;
      assert h + (Of(child, xs[1..]) + Of(child, ys)) == (h + Of(child, xs[1..])) + Of(child, ys);
    }
  }

  /**
   * The merge invariant.  While the consumer runs, delivered, buffered and unsent items of a child are together its
   * stream; afterwards what was delivered is a front part of it.  Errors are never delivered as events.
   */
  ghost predicate Merged(cfg: Config, s: State)
    requires Shaped(cfg, s)
  {
    && |s.buffer| <= CAPACITY
    && (forall k | 0 <= k < |s.delivered| :: s.delivered[k].item.Ev? && s.delivered[k].child < |cfg.streams|)
    && (forall k | 0 <= k < |s.buffer| :: s.buffer[k].child < |cfg.streams|)
    && (forall i | 0 <= i < |cfg.streams| :: ChildMerged(cfg, s, i))
  }

  ghost predicate ChildMerged(cfg: Config, s: State, i: nat)
    requires Shaped(cfg, s) && i < |cfg.streams|
  {
    && (s.end == Running ==>
          && Of(i, s.delivered) + Of(i, s.buffer) + Stamped(cfg, i, s.next[i]) == Stamped(cfg, i, 0)
          && (s.exited[i] ==> s.next[i] == |cfg.streams[i]|))
    && (s.end == Completed ==> Of(i, s.delivered) == Stamped(cfg, i, 0))
    && Of(i, s.delivered) <= Stamped(cfg, i, 0)
  }

  lemma InitMerged(cfg: Config)
    ensures Shaped(cfg, Init(cfg)) && Merged(cfg, Init(cfg))
  {
  }

  lemma StepKeepsMerged(cfg: Config, s: State, step: Step)
    requires Shaped(cfg, s) && Merged(cfg, s) && Enabled(cfg, s, step)
    ensures Shaped(cfg, Apply(cfg, s, step)) && Merged(cfg, Apply(cfg, s, step))
  {
    var t := Apply(cfg, s, step);
    forall i | 0 <= i < |cfg.streams| ensures ChildMerged(cfg, t, i) {
      ChildKeepsMerged(cfg, s, step, i);
    }
  }

  lemma ChildKeepsMerged(cfg: Config, s: State, step: Step, i: nat)
    requires Shaped(cfg, s) && Merged(cfg, s) && Enabled(cfg, s, step) && i < |cfg.streams|
    ensures Shaped(cfg, Apply(cfg, s, step)) && ChildMerged(cfg, Apply(cfg, s, step), i)
  {
    assert ChildMerged(cfg, s, i);
    match step
    case Send(c) => if s.end == Running { SendKeepsChild(cfg, s, c, i); }
    case Receive => if !s.cancelled && s.buffer[0].item.Ev? { ReceiveKeepsChild(cfg, s, i); }
    case Close => CloseKeepsChild(cfg, s, i);
    case _ =>
  }

  lemma SendKeepsChild(cfg: Config, s: State, c: nat, i: nat)
    requires Shaped(cfg, s) && i < |cfg.streams| && ChildMerged(cfg, s, i)
    requires s.end == Running && Enabled(cfg, s, Send(c))
    ensures ChildMerged(cfg, Apply(cfg, s, Send(c)), i)
  {
    var t := Apply(cfg, s, Send(c));
    var sent := Tagged(c, Stamp(cfg, c, cfg.streams[c][s.next[c]]));
    OfConcat(i, s.buffer, [sent]);
    hide Stamp;
    assert [sent][1..] == [] && Of(i, [sent]) == if c == i then [sent.item] else [];
    var d, b, u := Of(i, s.delivered), Of(i, s.buffer), Stamped(cfg, i, s.next[i]);
    if c == i {
      assert u == [sent.item] + Stamped(cfg, i, t.next[i]);
      assert d + (b + [sent.item]) + Stamped(cfg, i, t.next[i]) == d + b + u;
    } else {
      assert b + [] == b && t.next[i] == s.next[i];
    }
  }

  lemma ReceiveKeepsChild(cfg: Config, s: State, i: nat)
    requires Shaped(cfg, s) && i < |cfg.streams| && ChildMerged(cfg, s, i)
    requires Enabled(cfg, s, Receive) && !s.cancelled && s.buffer[0].item.Ev?
    ensures ChildMerged(cfg, Apply(cfg, s, Receive), i)
  {
    var t, head, rest := Apply(cfg, s, Receive), s.buffer[0], s.buffer[1..];
    OfConcat(i, s.delivered, [head]);
    OfConcat(i, [head], rest);
    assert s.buffer == [head] + rest;
    var d, h, b, u := Of(i, s.delivered), Of(i, [head]), Of(i, rest), Stamped(cfg, i, s.next[i]);
    hide Of;
    hide Stamped;
    assert Of(i, t.delivered) == d + h && Of(i, t.buffer) == b;
    Regroup(d, h, b, u);
  }

  lemma CloseKeepsChild(cfg: Config, s: State, i: nat)
    requires Shaped(cfg, s) && i < |cfg.streams| && ChildMerged(cfg, s, i) && Enabled(cfg, s, Close)
    ensures ChildMerged(cfg, Apply(cfg, s, Close), i)
  {
    assert s.exited[i];
    assert Of(i, s.buffer) == [] && Stamped(cfg, i, s.next[i]) == [];
    assert Of(i, s.delivered) + [] + [] == Of(i, s.delivered);
  }

  lemma Regroup<T>(d: seq<T>, h: seq<T>, b: seq<T>, u: seq<T>)
    ensures (d + h) + b + u == d + (h + b) + u
    ensures d + h <= d + (h + b) + u
  {
  }

  /**
   * Under every schedule each child's order is kept and nothing is lost, duplicated or invented: the items of a child
   * that the consumer has yielded, then those in the channel, then those not yet sent, are the child's stream.
   */
  lemma {:induction false} EveryScheduleMerges(cfg: Config, s: State, steps: seq<Step>, t: State)
    requires Shaped(cfg, s) && Merged(cfg, s) && Leads(cfg, s, steps, t)
    ensures Shaped(cfg, t) && Merged(cfg, t)
    decreases steps
  {
    if steps != [] {
      StepKeepsMerged(cfg, s, steps[0]);
      EveryScheduleMerges(cfg, Apply(cfg, s, steps[0]), steps[1..], t);
    }
  }

  // ---- Progress and termination ------------------------------------------------------------------------

  /** As long as the consumer runs, some step is enabled: no schedule can get stuck before the end. */
  lemma NeverStuck(cfg: Config, s: State)
    requires Shaped(cfg, s) && s.end == Running
    ensures !Terminal(cfg, s)
  {
    if s.buffer != [] {
      assert Enabled(cfg, s, Receive);
    } else if i :| 0 <= i < |s.exited| && !s.exited[i] {
      if s.next[i] < |cfg.streams[i]| {
        assert Enabled(cfg, s, Send(i));
      } else {
        assert Enabled(cfg, s, Exit(i));
      }
    } else {
      assert Enabled(cfg, s, Close);
    }
  }

  /** Work left for the tasks from child `i` on: two units an unsent item, one for a task that has not exited. */
  function TasksLeft(cfg: Config, s: State, i: nat): nat
    requires Shaped(cfg, s) && i <= |s.next|
    decreases |s.next| - i
  {
    if i == |s.next| then 0
    else 2 * (|cfg.streams[i]| - s.next[i]) + (if s.exited[i] then 0 else 1) + TasksLeft(cfg, s, i + 1)
  }

  function WorkLeft(cfg: Config, s: State): nat
    requires Shaped(cfg, s)
  {
    TasksLeft(cfg, s, 0) + |s.buffer| + (if s.end == Running then 1 else 0) + (if s.cancelled then 0 else 1)
  }

  /** Changing one task's progress changes the total by that task's share. */
  lemma {:induction false} TasksLeftChanges(cfg: Config, s: State, t: State, c: nat, i: nat, d: nat)
    requires Shaped(cfg, s) && Shaped(cfg, t) && i <= |s.next| && c < |s.next|
    requires forall k | 0 <= k < |s.next| && k != c :: s.next[k] == t.next[k] && s.exited[k] == t.exited[k]
    requires 2 * (|cfg.streams[c]| - s.next[c]) + (if s.exited[c] then 0 else 1) ==
             2 * (|cfg.streams[c]| - t.next[c]) + (if t.exited[c] then 0 else 1) + d
    ensures TasksLeft(cfg, s, i) == TasksLeft(cfg, t, i) + (if i <= c then d else 0)
    decreases |s.next| - i
  {
    if i < |s.next| {
      TasksLeftChanges(cfg, s, t, c, i + 1, d);
    }
  }

  lemma {:induction false} TasksLeftSame(cfg: Config, s: State, t: State, i: nat)
    requires Shaped(cfg, s) && Shaped(cfg, t) && i <= |s.next| && s.next == t.next && s.exited == t.exited
    ensures TasksLeft(cfg, s, i) == TasksLeft(cfg, t, i)
    decreases |s.next| - i
  {
    if i < |s.next| {
      TasksLeftSame(cfg, s, t, i + 1);
    }
  }

  lemma StepUsesWork(cfg: Config, s: State, step: Step)
    requires Shaped(cfg, s) && Enabled(cfg, s, step)
    ensures Shaped(cfg, Apply(cfg, s, step)) && WorkLeft(cfg, Apply(cfg, s, step)) < WorkLeft(cfg, s)
  {
    var t := Apply(cfg, s, step);
    match step
    case Send(c) =>
      if s.end == Running || cfg.streams[c][s.next[c]].Failure? {
        TasksLeftChanges(cfg, s, t, c, 0, 2);
      } else {
        TasksLeftChanges(cfg, s, t, c, 0, 1);
      }
    case Exit(c) => TasksLeftChanges(cfg, s, t, c, 0, 1);
    case _ => TasksLeftSame(cfg, s, t, 0);
  }

  /** Every schedule ends: its length is bounded by the work there is. */
  lemma {:induction false} EveryScheduleEnds(cfg: Config, s: State, steps: seq<Step>, t: State)
    requires Shaped(cfg, s) && Leads(cfg, s, steps, t)
    ensures |steps| <= WorkLeft(cfg, s)
    decreases steps
  {
    if steps != [] {
      StepUsesWork(cfg, s, steps[0]);
      EveryScheduleEnds(cfg, Apply(cfg, s, steps[0]), steps[1..], t);
    }
  }

  // ---- When everything is delivered --------------------------------------------------------------------

  predicate HasFailure(stream: seq<Item>) { exists k :: 0 <= k < |stream| && stream[k].Failure? }

  lemma {:induction false} StampedAt(cfg: Config, i: nat, n: nat)
    requires i < |cfg.streams| && n <= |cfg.streams[i]|
    ensures |Stamped(cfg, i, n)| == |cfg.streams[i]| - n
    ensures forall k | n <= k < |cfg.streams[i]| :: Stamped(cfg, i, n)[k - n] == Stamp(cfg, i, cfg.streams[i][k])
    decreases |cfg.streams[i]| - n
  {
    if n < |cfg.streams[i]| {
      StampedAt(cfg, i, n + 1);
    }
  }

  lemma {:induction false} OfMembers(i: nat, ts: seq<Tagged>)
    ensures forall x | x in Of(i, ts) :: Tagged(i, x) in ts
    decreases ts
  {
    if ts != [] {
      OfMembers(i, ts[1..]);
    }
  }

  /**
   * A schedule that has nothing left to do and was not cancelled has delivered every child's whole stream if and only
   * if no child produced an error.
   */
  lemma AllDeliveredIffNoFailure(cfg: Config, steps: seq<Step>, t: State)
    requires Shaped(cfg, Init(cfg)) && Leads(cfg, Init(cfg), steps, t)
    requires Shaped(cfg, t) && Terminal(cfg, t) && !t.cancelled
    ensures (forall i | 0 <= i < |cfg.streams| :: Of(i, t.delivered) == Stamped(cfg, i, 0)) <==>
            (forall i | 0 <= i < |cfg.streams| :: !HasFailure(cfg.streams[i]))
  {
    InitMerged(cfg);
    EveryScheduleMerges(cfg, Init(cfg), steps, t);
    NeverStuckContra(cfg, t);
    EndsTruthfully(cfg, Init(cfg), steps, t);
    if i :| 0 <= i < |cfg.streams| && HasFailure(cfg.streams[i]) {
      var k :| 0 <= k < |cfg.streams[i]| && cfg.streams[i][k].Failure?;
      StampedAt(cfg, i, 0);
      OfMembers(i, t.delivered);
      assert Stamped(cfg, i, 0)[k].Failure?;
      assert Stamped(cfg, i, 0)[k] in Stamped(cfg, i, 0);
    } else {
      assert t.end == Completed;
      forall i | 0 <= i < |cfg.streams| ensures Of(i, t.delivered) == Stamped(cfg, i, 0) {
        assert ChildMerged(cfg, t, i);
      }
    }
  }

  lemma NeverStuckContra(cfg: Config, t: State)
    requires Shaped(cfg, t) && Terminal(cfg, t)
    ensures t.end != Running
  {
    if t.end == Running {
      NeverStuck(cfg, t);
    }
  }

  /** Errors in the channel come from some child. */
  ghost predicate FromStreams(cfg: Config, s: State) {
    && (forall k | 0 <= k < |s.buffer| && s.buffer[k].item.Failure? ::
          exists i :: 0 <= i < |cfg.streams| && HasFailure(cfg.streams[i]))
    && (s.end.FailedWith? ==> exists i :: 0 <= i < |cfg.streams| && HasFailure(cfg.streams[i]))
    && (s.end == Cancelled ==> s.cancelled)
  }

  lemma {:induction false} EndsTruthfully(cfg: Config, s: State, steps: seq<Step>, t: State)
    requires Shaped(cfg, s) && FromStreams(cfg, s) && Leads(cfg, s, steps, t)
    ensures FromStreams(cfg, t)
    decreases steps
  {
    if steps != [] {
      StepUsesWork(cfg, s, steps[0]);
      EndsTruthfullyStep(cfg, s, steps[0]);
      EndsTruthfully(cfg, Apply(cfg, s, steps[0]), steps[1..], t);
    }
  }

  lemma EndsTruthfullyStep(cfg: Config, s: State, step: Step)
    requires Shaped(cfg, s) && FromStreams(cfg, s) && Enabled(cfg, s, step)
    ensures FromStreams(cfg, Apply(cfg, s, step))
  {
    var t := Apply(cfg, s, step);
    if step.Send? && s.end == Running {
      var item := cfg.streams[step.child][s.next[step.child]];
      assert item.Failure? ==> HasFailure(cfg.streams[step.child]);
      assert forall k | 0 <= k < |t.buffer| - 1 :: t.buffer[k] == s.buffer[k];
    }
  }

  // ---- One error can silence the siblings --------------------------------------------------------------

  /** Child `c` has been served alone up to item `n`. */
  ghost predicate ServedAlone(cfg: Config, s: State, c: nat, n: nat)
    requires Shaped(cfg, s)
  {
    && c < |cfg.streams| && s.next[c] == n && !s.exited[c]
    && s.buffer == [] && s.end == Running && !s.cancelled
    && forall k | 0 <= k < |s.delivered| :: s.delivered[k].child == c
  }

  /** Serve `c` alone until its first error: the merged stream ends with nothing from the others. */
  lemma {:induction false} ServeUntilFailure(cfg: Config, s: State, c: nat, n: nat, k: nat)
    returns (steps: seq<Step>, t: State)
    requires Shaped(cfg, s) && ServedAlone(cfg, s, c, n)
    requires n <= k < |cfg.streams[c]| && cfg.streams[c][k].Failure?
    requires forall j | n <= j < k :: cfg.streams[c][j].Ev?
    ensures Leads(cfg, s, steps, t) && Shaped(cfg, t) && t.end.FailedWith?
    ensures !t.cancelled && forall j | 0 <= j < |t.delivered| :: t.delivered[j].child == c
    decreases k - n
  {
    var s1 := Apply(cfg, s, Send(c));
    var s2 := Apply(cfg, s1, Receive);
    assert Leads(cfg, s2, [], s2);
    if n == k {
      t := s2;
      steps := [Send(c)] + [Receive];
      assert steps[1..] == [Receive] && [Receive][1..] == [];
      assert Leads(cfg, s1, [Receive], t);
    } else {
      var rest;
      rest, t := ServeUntilFailure(cfg, s2, c, n + 1, k);
      steps := [Send(c)] + ([Receive] + rest);
      assert ([Receive] + rest)[1..] == rest && steps[1..] == [Receive] + rest;
      assert Leads(cfg, s1, [Receive] + rest, t);
    }
  }

  lemma {:induction false} OfOthers(i: nat, c: nat, ts: seq<Tagged>)
    requires i != c && forall j | 0 <= j < |ts| :: ts[j].child == c
    ensures Of(i, ts) == []
    decreases ts
  {
    if ts != [] {
      OfOthers(i, c, ts[1..]);
    }
  }

  function FirstFailure(stream: seq<Item>, n: nat): (k: nat)
    requires exists k :: n <= k < |stream| && stream[k].Failure?
    ensures n <= k < |stream| && stream[k].Failure? && forall j | n <= j < k :: stream[j].Ev?
    decreases |stream| - n
  {
    if stream[n].Failure? then n else FirstFailure(stream, n + 1)
  }

  lemma {:induction false} LeadsThrough(cfg: Config, s: State, steps: seq<Step>, t: State, more: seq<Step>, u: State)
    requires Shaped(cfg, s) && Leads(cfg, s, steps, t) && Shaped(cfg, t) && Leads(cfg, t, more, u)
    ensures Leads(cfg, s, steps + more, u)
    decreases steps
  {
    if steps == [] {
      assert steps + more == more;
    } else {
      assert (steps + more)[0] == steps[0] && (steps + more)[1..] == steps[1..] + more;
      StepUsesWork(cfg, s, steps[0]);
      LeadsThrough(cfg, Apply(cfg, s, steps[0]), steps[1..], t, more, u);
    }
  }

  /** Any schedule can go on, without a cancellation, until nothing is left to do; an ended stream stays as it is. */
  lemma {:induction false} GoOn(cfg: Config, s: State) returns (steps: seq<Step>, t: State)
    requires Shaped(cfg, s) && !s.cancelled
    ensures Leads(cfg, s, steps, t) && Shaped(cfg, t) && Terminal(cfg, t) && !t.cancelled
    ensures s.end != Running ==> t.delivered == s.delivered && t.end == s.end
    decreases WorkLeft(cfg, s)
  {
    if Terminal(cfg, s) {
      return [], s;
    }
    var step :| step != Cancel && Enabled(cfg, s, step);
    StepUsesWork(cfg, s, step);
    var rest;
    rest, t := GoOn(cfg, Apply(cfg, s, step));
    steps := [step] + rest;
    assert steps[1..] == rest;
  }

  /** A schedule from the start that is over and was not cancelled. */
  ghost predicate Over(cfg: Config, steps: seq<Step>, t: State) {
    Shaped(cfg, t) && Leads(cfg, Init(cfg), steps, t) && Terminal(cfg, t) && !t.cancelled
  }

  predicate Failing(cfg: Config, c: nat) {
    c < |cfg.streams| && HasFailure(cfg.streams[c])
  }

  /**
   * Whatever the siblings would produce, if one child fails there is a schedule in which none of it arrives, also when
   * nothing is left to do.
   */
  lemma FailureCanSilenceSiblings(cfg: Config, c: nat) returns (steps: seq<Step>, t: State)
    requires Failing(cfg, c)
    ensures Over(cfg, steps, t) && t.end.FailedWith?
    ensures forall i | 0 <= i < |cfg.streams| && i != c :: Of(i, t.delivered) == []
  {
    var k := FirstFailure(cfg.streams[c], 0);
    var first, s := ServeUntilFailure(cfg, Init(cfg), c, 0, k);
    var rest;
    rest, t := GoOn(cfg, s);
    steps := first + rest;
    LeadsThrough(cfg, Init(cfg), first, s, rest, t);
    forall i | 0 <= i < |cfg.streams| && i != c ensures Of(i, t.delivered) == [] {
      OfOthers(i, c, t.delivered);
    }
  }

  /** All that a child produces has been delivered, with its branch filled in. */
  ghost predicate Delivered(cfg: Config, t: State, i: nat)
    requires i < |cfg.streams|
  {
    Of(i, t.delivered) == Stamped(cfg, i, 0)
  }

  /** However the tasks are scheduled, a healthy child's stream arrives whole. */
  ghost predicate HealthyKeepStreaming(cfg: Config) {
    forall steps, t, i | Over(cfg, steps, t) && 0 <= i < |cfg.streams| && !Failing(cfg, i) :: Delivered(cfg, t, i)
  }

  /**
   * The documentation promises that healthy siblings keep streaming when a child fails.  They are sure to, under every
   * schedule, if and only if no child fails or no healthy child has anything to say.
   */
  lemma HealthySiblingsKeepStreamingIff(cfg: Config)
    ensures HealthyKeepStreaming(cfg) <==>
            || (forall c | 0 <= c < |cfg.streams| :: !Failing(cfg, c))
            || (forall i | 0 <= i < |cfg.streams| && !Failing(cfg, i) :: cfg.streams[i] == [])
  {
    if forall c | 0 <= c < |cfg.streams| :: !Failing(cfg, c) {
      forall steps, t, i | Over(cfg, steps, t) && 0 <= i < |cfg.streams| && !Failing(cfg, i)
        ensures Delivered(cfg, t, i)
      {
        AllDeliveredIffNoFailure(cfg, steps, t);
        forall j | 0 <= j < |cfg.streams| ensures !HasFailure(cfg.streams[j]) {
          assert !Failing(cfg, j);
        }
        assert Of(i, t.delivered) == Stamped(cfg, i, 0);
      }
    } else if forall i | 0 <= i < |cfg.streams| && !Failing(cfg, i) :: cfg.streams[i] == [] {
      forall steps, t, i | Over(cfg, steps, t) && 0 <= i < |cfg.streams| && !Failing(cfg, i)
        ensures Delivered(cfg, t, i)
      {
        SilentChild(cfg, steps, t, i);
      }
    } else {
      var c :| 0 <= c < |cfg.streams| && Failing(cfg, c);
      var i :| 0 <= i < |cfg.streams| && !Failing(cfg, i) && cfg.streams[i] != [];
      var steps, t := FailureCanSilenceSiblings(cfg, c);
      StampedAt(cfg, i, 0);
      assert !Delivered(cfg, t, i);
    }
  }

  /** A child with an empty stream has delivered it, under every schedule. */
  lemma SilentChild(cfg: Config, steps: seq<Step>, t: State, i: nat)
    requires Over(cfg, steps, t) && i < |cfg.streams| && cfg.streams[i] == []
    ensures Delivered(cfg, t, i)
  {
    InitMerged(cfg);
    EveryScheduleMerges(cfg, Init(cfg), steps, t);
    assert ChildMerged(cfg, t, i);
    StampedAt(cfg, i, 0);
  }

  // ---- What is delivered -------------------------------------------------------------------------------

  /** An item as it leaves the merge: as the child sent it, but for a branch where it had none. */
  predicate Forwarded(cfg: Config, child: nat, sent: Item, got: Item) {
    if sent.Ev? && sent.event.branch.None?
    then got.Ev? && got.event == sent.event.(branch := Some(cfg.name + "." + Decimal(child))) else got == sent
  }

  /** Under every schedule what is delivered of a child are its own first items, in order, each as the child sent it. */
  lemma DeliveredAsSent(cfg: Config, steps: seq<Step>, t: State, i: nat, k: nat)
    requires Shaped(cfg, Init(cfg)) && Leads(cfg, Init(cfg), steps, t) && Shaped(cfg, t)
    requires i < |cfg.streams| && k < |Of(i, t.delivered)|
    ensures k < |cfg.streams[i]| && Forwarded(cfg, i, cfg.streams[i][k], Of(i, t.delivered)[k])
  {
    InitMerged(cfg);
    EveryScheduleMerges(cfg, Init(cfg), steps, t);
    hide Stamped, Of, Leads;
    assert ChildMerged(cfg, t, i);
    StampedAt(cfg, i, 0);
    assert Of(i, t.delivered)[k] == Stamped(cfg, i, 0)[k - 0];
  }

  // ---- How far a child runs ahead ----------------------------------------------------------------------

  /** The first child has sent `k` items, and nobody has done anything else. */
  ghost predicate Ahead(cfg: Config, s: State, k: nat) {
    && Shaped(cfg, s) && |cfg.streams| > 0 && s.next[0] == k == |s.buffer| && !s.exited[0] && s.end == Running
    && s.delivered == []
  }

  /** A child may run 64 items ahead of a consumer that takes none, and no child ever runs further. */
  lemma {:induction false} RunsAhead(cfg: Config, s: State, k: nat, n: nat) returns (steps: seq<Step>, t: State)
    requires Ahead(cfg, s, k) && k <= n <= 64 && n <= |cfg.streams[0]|
    ensures Leads(cfg, s, steps, t) && Ahead(cfg, t, n)
    ensures n == 64 ==> forall i :: !Enabled(cfg, t, Send(i))
    decreases n - k
  {
    if k == n {
      return [], s;
    }
    var rest: seq<Step>;
    rest, t := RunsAhead(cfg, Apply(cfg, s, Send(0)), k + 1, n);
    steps := [Send(0)] + rest;
    assert steps[1..] == rest;
  }

  // ---- What a cancellation stops -----------------------------------------------------------------------

  /** After a cancellation nothing more is delivered, and it is never taken back. */
  lemma {:induction false} CancelStopsDelivery(cfg: Config, s: State, steps: seq<Step>, t: State)
    requires Shaped(cfg, s) && s.cancelled && Leads(cfg, s, steps, t)
    ensures t.cancelled && t.delivered == s.delivered
    decreases steps
  {
    if steps != [] {
      CancelStopsDelivery(cfg, Apply(cfg, s, steps[0]), steps[1..], t);
    }
  }

  /** The item that a merge has failed with is an error of a child's, or the merge was cancelled or has run out. */
  ghost predicate EndsFor(cfg: Config, s: State)
    requires Shaped(cfg, s)
  {
    && (forall k | 0 <= k < |s.buffer| :: s.buffer[k].child < |cfg.streams|
         && (s.buffer[k].item.Failure? ==> s.buffer[k].item in cfg.streams[s.buffer[k].child]))
    && (s.end.FailedWith? ==> exists i :: FailsIn(cfg, i, s.end.error))
    && (s.end == Cancelled ==> s.cancelled)
    && (s.end == Completed ==> forall i | 0 <= i < |s.exited| :: s.exited[i])
  }

  ghost predicate FailsIn(cfg: Config, i: int, error: string) {
    0 <= i < |cfg.streams| && Failure(error) in cfg.streams[i]
  }

  lemma StepEndsFor(cfg: Config, s: State, step: Step)
    requires Shaped(cfg, s) && EndsFor(cfg, s) && Enabled(cfg, s, step)
    ensures Shaped(cfg, Apply(cfg, s, step)) && EndsFor(cfg, Apply(cfg, s, step))
  {
    var t := Apply(cfg, s, step);
    match step
    case Send(c) =>
      if s.end == Running {
        var item := cfg.streams[c][s.next[c]];
        assert Stamp(cfg, c, item).Failure? ==> Stamp(cfg, c, item) == item;
      }
    case Receive =>
      var head := s.buffer[0];
      if !s.cancelled && head.item.Failure? {
        assert FailsIn(cfg, head.child, head.item.error);
      }
    case _ =>
  }

  /** Under every schedule the merged stream fails only with an error of a child's and stops early only if cancelled. */
  lemma {:induction false} EndsForAReason(cfg: Config, s: State, steps: seq<Step>, t: State)
    requires Shaped(cfg, s) && EndsFor(cfg, s) && Leads(cfg, s, steps, t)
    ensures Shaped(cfg, t) && EndsFor(cfg, t)
    decreases steps
  {
    if steps != [] {
      StepEndsFor(cfg, s, steps[0]);
      EndsForAReason(cfg, Apply(cfg, s, steps[0]), steps[1..], t);
    }
  }

  // ---- Branches identify children ----------------------------------------------------------------------

  lemma {:induction false} DecimalInjective(m: nat, n: nat)
    requires Decimal(m) == Decimal(n)
    ensures m == n
    decreases m
  {
    DigitsDiffer();
    if m < 10 || n < 10 {
      DecimalLength(m);
      DecimalLength(n);
    } else {
      var x, y := Decimal(m / 10), Decimal(n / 10);
      assert (x + [DIGITS[m % 10]])[|x|] == DIGITS[m % 10] && |x| == |y|;
      assert (y + [DIGITS[n % 10]])[|x|] == DIGITS[n % 10];
      assert x == (x + [DIGITS[m % 10]])[..|x|] == (y + [DIGITS[n % 10]])[..|x|] == y;
      DecimalInjective(m / 10, n / 10);
    }
  }

  lemma DecimalLength(n: nat)
    ensures |Decimal(n)| >= 1 && (|Decimal(n)| == 1 <==> n < 10)
  {
    if n >= 10 {
      DecimalLength(n / 10);
    }
  }

  lemma DigitsDiffer()
    ensures |DIGITS| == 10 && forall i, j | 0 <= i < j < 10 :: DIGITS[i] != DIGITS[j]
  {
  }

  /** An event that had no branch of its own carries one that names its child and no other. */
  lemma BranchIdentifiesChild(cfg: Config, i: nat, j: nat, e: Event, f: Event)
    requires e.branch.None? && f.branch.None?
    requires Stamp(cfg, i, Ev(e)).event.branch == Stamp(cfg, j, Ev(f)).event.branch
    ensures i == j
  {
    var prefix := cfg.name + ".";
    assert Decimal(i) == (prefix + Decimal(i))[|prefix|..];
    assert Decimal(j) == (prefix + Decimal(j))[|prefix|..];
    DecimalInjective(i, j);
  }
}
