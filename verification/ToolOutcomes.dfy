/**
 * What a tool call is answered with (src/agents/llm_agent.rs:1118-1223), and what a turn and a replay make of the
 * answers (468-620, 949-1020): told from the tools, their callbacks and their credentials alone.
 */
module ToolOutcomes {
  import opened Wrappers
  import opened Genai
  import opened Attributes
  import opened Dispatch
  import opened LlmAgent

  // ---- One call ----------------------------------------------------------------------------------------

  predicate Decided(bag: Bag, fc: FunctionCall, confirmed: bool) {
    DecisionFor(bag, fc.id).Some? && (DecisionFor(bag, fc.id).value.confirmed <==> confirmed)
  }

  /** The decision for a call is the one that is recorded under its id; a call without an id has none. */
  lemma DecisionIsRecorded(bag: Bag, id: Option<string>, c: ToolConfirmation)
    requires Valid(bag)
    ensures DecisionFor(bag, id) == Some(c) <==>
            id.Some? && bag.confirmations.Some? && Entry(id.value, Some(c)) in bag.confirmations.value
  {
    if id.Some? && bag.confirmations.Some? && Entry(id.value, Some(c)) in bag.confirmations.value {
      var entries := bag.confirmations.value;
      var i :| 0 <= i < |entries| && entries[i] == Entry(id.value, Some(c));
      var k := IndexOf(entries, id.value);
      assert Keys(entries)[i] == Keys(entries)[k];
    }
  }

  predicate PassesUser(bag: Bag, tool: Tool, fc: FunctionCall) {
    tool.requiresConfirmation(fc.args) ==> Decided(bag, fc, true)
  }

  predicate PassesGates(w: ToolWorld, slot: Slot, tool: Tool, fc: FunctionCall, bag: Bag) {
    PassesUser(bag, tool, fc) && (tool.authenticates ==> w.auth(slot) == Ready)
  }

  predicate Fails(d: Dispatched, error: string) {
    d.outcome == Err(error)
  }

  predicate AnswersWith(d: Dispatched, value: Json) {
    d.outcome == Ok(Completed(value))
  }

  /** The model is told of a problem in place of a result. */
  predicate Complains(value: Json, problem: string) {
    value == Object(map["error" := String(problem)])
  }

  /** The call is held back by the user, or until the user decides. */
  predicate HeldByUser(w: ToolWorld, tool: Tool, fc: FunctionCall, bag: Bag, d: Dispatched) {
    if Decided(bag, fc, false) then
      && d.outcome.Ok? && d.outcome.value.Completed?
      && Complains(d.outcome.value.value, "tool call was rejected by the user")
    else
      var asked := ToolConfirmation(tool.hint(fc.args), false, None);
      d.outcome == Ok(ConfirmationPending(w.encodeRequest(fc, asked), asked))
  }

  predicate HeldByAuth(w: ToolWorld, slot: Slot, d: Dispatched) {
    && (w.auth(slot).NeedsUserConsent? ==> d.outcome == Ok(AuthPending(w.auth(slot).pending)))
    && (w.auth(slot).Misconfigured? ==>
          d.outcome.Ok? && d.outcome.value.Completed? && Complains(d.outcome.value.value, w.auth(slot).message))
    && (w.auth(slot).AuthFails? ==> Fails(d, w.auth(slot).error))
  }

  /** The tool was not run: `before_tool` answers in its stead, or fails. */
  predicate HeldByCallback(w: ToolWorld, slot: Slot, fc: FunctionCall, d: Dispatched) {
    && (w.beforeTool(slot, fc).ShortCircuit? ==> AnswersWith(d, w.beforeTool(slot, fc).value))
    && (w.beforeTool(slot, fc).BeforeFails? ==> Fails(d, w.beforeTool(slot, fc).error))
  }

  /** The tool was run: its result as `after_tool` leaves it, or its error as `on_tool_error` recovers it. */
  predicate Answered(w: ToolWorld, slot: Slot, args: Json, d: Dispatched) {
    match w.run(slot, args)
    case Ok(result) =>
      (match w.afterTool(slot, result)
       case Ok(rewritten) => AnswersWith(d, rewritten)
       case Err(e) => Fails(d, e))
    case Err(problem) =>
      (match w.onToolError(slot, problem)
       case Ok(Some(recovered)) => AnswersWith(d, recovered)
       case Ok(None) => d.outcome.Ok? && d.outcome.value.Completed? && Complains(d.outcome.value.value, problem)
       case Err(e) => Fails(d, e))
  }

  /** What dispatching a call comes to: the tool runs exactly if nothing holds it, with the arguments it is given. */
  predicate DispatchedAs(w: ToolWorld, slot: Slot, tool: Tool, fc: FunctionCall, bag: Bag, d: Dispatched) {
    && (d.ran.Some? <==> PassesGates(w, slot, tool, fc, bag) && w.beforeTool(slot, fc).Proceed?)
    && (d.ran.Some? ==>
          && d.ran.value.call == fc && d.ran.value.args == w.beforeTool(slot, fc).args
          && (d.ran.value.gated <==> tool.requiresConfirmation(fc.args))
          && Answered(w, slot, d.ran.value.args, d))
    && (!PassesUser(bag, tool, fc) ==> HeldByUser(w, tool, fc, bag, d))
    && (PassesUser(bag, tool, fc) && tool.authenticates ==> HeldByAuth(w, slot, d))
    && (PassesGates(w, slot, tool, fc, bag) ==> HeldByCallback(w, slot, fc, d) && d.effects == w.effects(slot))
    && (!PassesGates(w, slot, tool, fc, bag) ==> d.effects == NO_EFFECTS)
  }

  /** Every outcome of a call, from what the tool, its callbacks, its credentials and the user say. */
  lemma CallIsAnswered(w: ToolWorld, slot: Slot, tool: Tool, fc: FunctionCall, bag: Bag)
    ensures DispatchedAs(w, slot, tool, fc, bag, DispatchCall(w, slot, tool, fc, bag))
  {
    NoIdNoDecision(bag, fc);
    hide DecisionFor;
  }

  lemma NoIdNoDecision(bag: Bag, fc: FunctionCall)
    ensures fc.id.None? ==> DecisionFor(bag, fc.id).None?
  {
  }

  // ---- Several calls -----------------------------------------------------------------------------------

  /** Every key of the parts, each with the value that the last part to have it gives it. */
  ghost predicate LastWriterWins<T>(parts: seq<map<string, T>>, total: map<string, T>) {
    && (forall key, i | 0 <= i < |parts| && key in parts[i] :: key in total)
    && (forall key | key in total :: exists i :: Writes(parts, i, key) && parts[i][key] == total[key])
  }

  /** The last part that has the key. */
  ghost predicate Writes<T>(parts: seq<map<string, T>>, i: int, key: string) {
    0 <= i < |parts| && key in parts[i] && forall j | i < j < |parts| :: key !in parts[j]
  }

  lemma WriterAdded<T>(parts: seq<map<string, T>>, total: map<string, T>, more: map<string, T>)
    requires LastWriterWins(parts, total)
    ensures LastWriterWins(parts + [more], total + more)
  {
    forall key | key in total + more
      ensures exists i :: Writes(parts + [more], i, key) && (parts + [more])[i][key] == (total + more)[key]
    {
      if key in more {
        assert Writes(parts + [more], |parts|, key);
      } else {
        var i :| Writes(parts, i, key) && parts[i][key] == total[key];
        assert Writes(parts + [more], i, key);
      }
    }
  }

  /** The executions among the dispatches, in order. */
  function RanIn(ds: seq<Dispatched>): seq<Execution> {
    if ds == [] then []
    else
      var d := ds[|ds| - 1];
      RanIn(ds[..|ds| - 1]) + (if d.ran.Some? then [d.ran.value] else [])
  }

  lemma RanSnoc(ds: seq<Dispatched>, d: Dispatched)
    ensures RanIn(ds + [d]) == RanIn(ds) + (if d.ran.Some? then [d.ran.value] else [])
  {
    assert (ds + [d])[..|ds|] == ds;
  }

  // ---- The calls of a turn -----------------------------------------------------------------------------

  /** A turn's calls, with what it takes to dispatch them. */
  datatype Calls = Calls(a: LlmConfig, w: World, turn: nat, tools: map<string, Tool>, bag: Bag,
                         list: seq<FunctionCall>)

  /** The first calls were dispatched to the tools they name, and none of the dispatches failed. */
  ghost predicate AllAnswered(c: Calls, ds: seq<Dispatched>) {
    && |ds| <= |c.list|
    && forall k | 0 <= k < |ds| :: AnsweredAt(c, ds, k)
  }

  ghost predicate AnsweredAt(c: Calls, ds: seq<Dispatched>, k: nat)
    requires k < |ds| <= |c.list|
  {
    && c.list[k].name in c.tools && ds[k].outcome.Ok?
    && DispatchedAs(c.w.tools, Called(c.turn, k), c.tools[c.list[k].name], c.list[k], c.bag, ds[k])
  }

  /** The call waits for the user: its tool says so, or one of the gates. */
  predicate Waits(c: Calls, d: Dispatched, k: nat)
    requires k < |c.list| && c.list[k].name in c.tools && d.outcome.Ok?
  {
    c.tools[c.list[k].name].isLongRunning || d.effects.longRunning || !d.outcome.value.Completed?
  }

  /** The transfer that the call asks for, if this agent takes part in transfers. */
  function Wish(c: Calls, d: Dispatched): Option<string> {
    if c.a.disableTransfer then None else d.effects.transferTo
  }

  /** The k-th response: the value of the call's outcome, or that there is no such agent to transfer to. */
  ghost predicate Replies(c: Calls, d: Dispatched, k: nat, r: FunctionResponse)
    requires k < |c.list| && c.list[k].name in c.tools && d.outcome.Ok?
  {
    var wish := Wish(c, d);
    && r.id == c.list[k].id
    && (d.outcome.value.Completed? ==> r.name == c.list[k].name)
    && (d.outcome.value.ConfirmationPending? ==> r.name == "adk_request_confirmation")
    && (d.outcome.value.AuthPending? ==> r.name == "adk_request_credential")
    && r.willContinue == (if Waits(c, d, k) then Some(true) else None) && r.scheduling.None?
    && (if wish.Some? && !c.w.resolves(wish.value)
        then Complains(r.response, "unknown agent `" + wish.value + "`; transfer not performed")
        else r.response == d.outcome.value.value)
  }

  /** The last wish that resolves. */
  ghost predicate LastWish(c: Calls, ds: seq<Dispatched>, transfer: Option<string>) {
    if transfer.Some? then exists i :: IsLastWish(c, ds, i) && Wish(c, ds[i]) == transfer
    else forall i | 0 <= i < |ds| :: !Granted(c, ds[i])
  }

  predicate Granted(c: Calls, d: Dispatched) {
    Wish(c, d).Some? && c.w.resolves(Wish(c, d).value)
  }

  ghost predicate IsLastWish(c: Calls, ds: seq<Dispatched>, i: int) {
    0 <= i < |ds| && Granted(c, ds[i]) && forall j | i < j < |ds| :: !Granted(c, ds[j])
  }

  function KeyOf(fc: FunctionCall): string {
    if fc.id.Some? then fc.id.value else fc.name
  }

  /** The confirmations that the calls ask for, call by call. */
  function Requests(c: Calls, ds: seq<Dispatched>): seq<map<string, ToolConfirmation>>
    requires |ds| <= |c.list|
  {
    seq(|ds|, k requires 0 <= k < |ds| => RequestOf(c.list[k], ds[k]))
  }

  function RequestOf(fc: FunctionCall, d: Dispatched): map<string, ToolConfirmation> {
    if d.outcome.Ok? && d.outcome.value.ConfirmationPending? then map[KeyOf(fc) := d.outcome.value.confirmation]
    else map[]
  }

  function StateDeltas(ds: seq<Dispatched>): seq<map<string, Json>> {
    seq(|ds|, k requires 0 <= k < |ds| => ds[k].effects.stateDelta)
  }

  function ArtifactDeltas(ds: seq<Dispatched>): seq<map<string, nat>> {
    seq(|ds|, k requires 0 <= k < |ds| => ds[k].effects.artifactDelta)
  }

  /** One response per call; the calls that wait are listed. */
  ghost predicate RepliesToAll(c: Calls, ds: seq<Dispatched>, rs: seq<FunctionResponse>, waiting: seq<string>) {
    && AllAnswered(c, ds) && |rs| == |ds|
    && (forall k | 0 <= k < |ds| :: Replied(c, ds, k, rs[k]))
    && (forall id | id in waiting :: exists k :: WaitsAt(c, ds, k) && id == KeyOf(c.list[k]))
    && (forall k | WaitsAt(c, ds, k) :: KeyOf(c.list[k]) in waiting)
  }

  ghost predicate Replied(c: Calls, ds: seq<Dispatched>, k: nat, r: FunctionResponse)
    requires k < |ds| <= |c.list|
  {
    AnsweredAt(c, ds, k) && Replies(c, ds[k], k, r)
  }

  ghost predicate WaitsAt(c: Calls, ds: seq<Dispatched>, k: int) {
    0 <= k < |ds| <= |c.list| && AnsweredAt(c, ds, k) && Waits(c, ds[k], k)
  }

  /** The flags that tools set and the deltas that they write; of two calls that write a key the later one counts. */
  ghost predicate Collected(c: Calls, ds: seq<Dispatched>, g: Gathered) {
    && |ds| <= |c.list|
    && (g.escalate <==> exists d | d in ds :: d.effects.escalate)
    && (g.skipSummarization <==> exists d | d in ds :: d.effects.skipSummarization)
    && LastWriterWins(Requests(c, ds), g.confirmations)
    && LastWriterWins(StateDeltas(ds), g.stateDelta) && LastWriterWins(ArtifactDeltas(ds), g.artifactDelta)
    && g.ran == RanIn(ds)
  }

  /** What is gathered from the dispatches. */
  ghost predicate GatheredFrom(c: Calls, ds: seq<Dispatched>, g: Gathered) {
    && RepliesToAll(c, ds, g.responses, g.longRunningIds)
    && Collected(c, ds, g)
    && LastWish(c, ds, g.transfer)
  }

  /** Some call names no tool, or its dispatch fails; all calls before it were answered, and none after it is made. */
  ghost predicate BrokenOff(c: Calls, ds: seq<Dispatched>, g: Gathered) {
    var k := |ds|;
    && k < |c.list| && AllAnswered(c, ds)
    && if c.list[k].name !in c.tools then g.error == Some("unknown tool: " + c.list[k].name) && g.ran == RanIn(ds)
       else exists d :: FailedAt(c, d, k, g.error) && g.ran == RanIn(ds + [d])
  }

  ghost predicate FailedAt(c: Calls, d: Dispatched, k: nat, error: Option<string>)
    requires k < |c.list| && c.list[k].name in c.tools
  {
    && DispatchedAs(c.w.tools, Called(c.turn, k), c.tools[c.list[k].name], c.list[k], c.bag, d)
    && error.Some? && Fails(d, error.value)
  }

  lemma AnsweredSnoc(c: Calls, ds: seq<Dispatched>, d: Dispatched)
    requires AllAnswered(c, ds) && |ds| < |c.list| && AnsweredAt(c, ds + [d], |ds|)
    ensures AllAnswered(c, ds + [d])
  {
    hide DispatchedAs;
    forall k | 0 <= k < |ds + [d]| ensures AnsweredAt(c, ds + [d], k) {
      if k < |ds| {
        assert AnsweredAt(c, ds, k);
      }
    }
  }

  lemma RepliesSnoc(c: Calls, ds: seq<Dispatched>, rs: seq<FunctionResponse>, waiting: seq<string>, d: Dispatched,
                    r: FunctionResponse)
    requires RepliesToAll(c, ds, rs, waiting) && |ds| < |c.list| && AnsweredAt(c, ds + [d], |ds|)
    requires Replies(c, d, |ds|, r)
    ensures RepliesToAll(c, ds + [d], rs + [r], waiting + (if Waits(c, d, |ds|) then [KeyOf(c.list[|ds|])] else []))
  {
    AnsweredSnoc(c, ds, d);
    hide DispatchedAs, Replies, Waits, KeyOf;
    var all := ds + [d];
    forall k | 0 <= k < |all| ensures Replied(c, all, k, (rs + [r])[k]) {
      if k < |ds| {
        assert Replied(c, ds, k, rs[k]);
      }
    }
    var now := waiting + (if Waits(c, d, |ds|) then [KeyOf(c.list[|ds|])] else []);
    forall id | id in now ensures exists k :: WaitsAt(c, all, k) && id == KeyOf(c.list[k]) {
      if id in waiting {
        var k :| WaitsAt(c, ds, k) && id == KeyOf(c.list[k]);
        assert WaitsAt(c, all, k);
      } else {
        assert WaitsAt(c, all, |ds|);
      }
    }
    forall k | WaitsAt(c, all, k) ensures KeyOf(c.list[k]) in now {
      if k < |ds| {
        assert WaitsAt(c, ds, k);
      }
    }
  }

  lemma WishSnoc(c: Calls, ds: seq<Dispatched>, transfer: Option<string>, d: Dispatched)
    requires LastWish(c, ds, transfer)
    ensures LastWish(c, ds + [d], if Granted(c, d) then Wish(c, d) else transfer)
  {
    hide Wish;
    var all := ds + [d];
    if Granted(c, d) {
      assert IsLastWish(c, all, |ds|);
    } else if transfer.Some? {
      var i :| IsLastWish(c, ds, i) && Wish(c, ds[i]) == transfer;
      assert IsLastWish(c, all, i);
    }
  }

  lemma CollectedSnoc(c: Calls, ds: seq<Dispatched>, d: Dispatched, g: Gathered, h: Gathered)
    requires Collected(c, ds, g) && |ds| < |c.list|
    requires h.escalate == (g.escalate || d.effects.escalate)
    requires h.skipSummarization == (g.skipSummarization || d.effects.skipSummarization)
    requires h.confirmations == g.confirmations + RequestOf(c.list[|ds|], d)
    requires h.stateDelta == g.stateDelta + d.effects.stateDelta
    requires h.artifactDelta == g.artifactDelta + d.effects.artifactDelta
    requires h.ran == g.ran + (if d.ran.Some? then [d.ran.value] else [])
    ensures Collected(c, ds + [d], h)
  {
    var all := ds + [d];
    WriterAdded(Requests(c, ds), g.confirmations, RequestOf(c.list[|ds|], d));
    WriterAdded(StateDeltas(ds), g.stateDelta, d.effects.stateDelta);
    WriterAdded(ArtifactDeltas(ds), g.artifactDelta, d.effects.artifactDelta);
    assert Requests(c, all) == Requests(c, ds) + [RequestOf(c.list[|ds|], d)];
    assert StateDeltas(all) == StateDeltas(ds) + [d.effects.stateDelta];
    assert ArtifactDeltas(all) == ArtifactDeltas(ds) + [d.effects.artifactDelta];
    RanSnoc(ds, d);
    hide LastWriterWins, RequestOf, RanIn;
    assert d in all && forall x | x in ds :: x in all;
    assert forall x | x in all :: x in ds || x == d;
  }

  /** What one call that is answered adds: the response and, if it waits, its id. */
  lemma OneReply(c: Calls, k: nat, g: Gathered, d: Dispatched)
    requires k < |c.list| && c.list[k].name in c.tools && d.outcome.Ok?
    requires d == DispatchCall(c.w.tools, Called(c.turn, k), c.tools[c.list[k].name], c.list[k], c.bag)
    ensures var h := GatherOne(c.a, c.w, c.turn, c.tools, c.bag, k, c.list[k], g);
            && |h.responses| > 0 && Replies(c, d, k, h.responses[|h.responses| - 1])
            && h.responses == g.responses + [h.responses[|h.responses| - 1]]
            && h.longRunningIds == g.longRunningIds + (if Waits(c, d, k) then [KeyOf(c.list[k])] else [])
            && h.transfer == (if Granted(c, d) then Wish(c, d) else g.transfer)
  {
    hide DispatchCall;
  }

  lemma OneCollected(c: Calls, ds: seq<Dispatched>, g: Gathered, d: Dispatched)
    requires |ds| < |c.list| && c.list[|ds|].name in c.tools && d.outcome.Ok? && Collected(c, ds, g)
    requires d == DispatchCall(c.w.tools, Called(c.turn, |ds|), c.tools[c.list[|ds|].name], c.list[|ds|], c.bag)
    ensures Collected(c, ds + [d], GatherOne(c.a, c.w, c.turn, c.tools, c.bag, |ds|, c.list[|ds|], g))
  {
    hide DispatchCall, Collected, ResponseTo, AfterTransfer, PendingName;
    CollectedSnoc(c, ds, d, g, GatherOne(c.a, c.w, c.turn, c.tools, c.bag, |ds|, c.list[|ds|], g));
  }

  lemma OneFailure(c: Calls, ds: seq<Dispatched>, g: Gathered)
    requires GatheredFrom(c, ds, g) && |ds| < |c.list|
    ensures var h := GatherOne(c.a, c.w, c.turn, c.tools, c.bag, |ds|, c.list[|ds|], g);
            h.error.Some? ==> BrokenOff(c, ds, h)
  {
    hide DispatchCall, DispatchedAs, RanIn, LastWriterWins, LastWish, ResponseTo, AfterTransfer, PendingName, Requests;
    var k, fc := |ds|, c.list[|ds|];
    if fc.name in c.tools {
      var d := DispatchCall(c.w.tools, Called(c.turn, k), c.tools[fc.name], fc, c.bag);
      CallIsAnswered(c.w.tools, Called(c.turn, k), c.tools[fc.name], fc, c.bag);
      RanSnoc(ds, d);
      if d.outcome.Err? {
        assert FailedAt(c, d, k, Some(d.outcome.error));
      }
    }
  }

  /** One more call. */
  lemma GatherOneIs(c: Calls, ds: seq<Dispatched>, g: Gathered) returns (next: seq<Dispatched>)
    requires GatheredFrom(c, ds, g) && |ds| < |c.list|
    ensures var h := GatherOne(c.a, c.w, c.turn, c.tools, c.bag, |ds|, c.list[|ds|], g);
            if h.error.Some? then BrokenOff(c, ds, h) else |next| == |ds| + 1 && GatheredFrom(c, next, h)
  {
    var k, fc := |ds|, c.list[|ds|];
    var h := GatherOne(c.a, c.w, c.turn, c.tools, c.bag, k, fc, g);
    next := ds;
    OneFailure(c, ds, g);
    if h.error.None? {
      var d := OneAnswered(c, ds, g);
      next := ds + [d];
      hide GatherOne, DispatchCall, Collected, Replies, Waits, LastWish, RepliesToAll, Granted, Wish;
      OneReply(c, k, g, d);
      RepliesSnoc(c, ds, g.responses, g.longRunningIds, d, h.responses[|h.responses| - 1]);
      WishSnoc(c, ds, g.transfer, d);
      OneCollected(c, ds, g, d);
    }
  }

  lemma OneAnswered(c: Calls, ds: seq<Dispatched>, g: Gathered) returns (d: Dispatched)
    requires |ds| < |c.list| && GatherOne(c.a, c.w, c.turn, c.tools, c.bag, |ds|, c.list[|ds|], g).error.None?
    ensures var fc := c.list[|ds|];
            && fc.name in c.tools && d.outcome.Ok? && AnsweredAt(c, ds + [d], |ds|)
            && d == DispatchCall(c.w.tools, Called(c.turn, |ds|), c.tools[fc.name], fc, c.bag)
  {
    hide DispatchCall, DispatchedAs, ResponseTo, AfterTransfer, PendingName;
    var k, fc := |ds|, c.list[|ds|];
    d := DispatchCall(c.w.tools, Called(c.turn, k), c.tools[fc.name], fc, c.bag);
    CallIsAnswered(c.w.tools, Called(c.turn, k), c.tools[fc.name], fc, c.bag);
  }

  /** All calls of a turn: either all are answered, or a failure breaks off the run. */
  lemma {:induction false} CallsAreGathered(c: Calls, ds: seq<Dispatched>, g: Gathered) returns (all: seq<Dispatched>)
    requires |ds| <= |c.list| && GatheredFrom(c, ds, g) && g.error.None?
    ensures var h := GatherFrom(c.a, c.w, c.turn, c.tools, c.bag, c.list, |ds|, g);
            if h.error.Some? then BrokenOff(c, all, h) else |all| == |c.list| && GatheredFrom(c, all, h)
    decreases |c.list| - |ds|
  {
    hide GatherOne, GatheredFrom, BrokenOff;
    all := ds;
    if |ds| < |c.list| {
      var more := GatherOneIs(c, ds, g);
      var next := GatherOne(c.a, c.w, c.turn, c.tools, c.bag, |ds|, c.list[|ds|], g);
      if next.error.None? {
        all := CallsAreGathered(c, more, next);
      } else {
        assert GatherFrom(c.a, c.w, c.turn, c.tools, c.bag, c.list, |ds| + 1, next) == next;
      }
    }
  }

  // ---- A turn with calls -------------------------------------------------------------------------------

  /** The message with these responses, one part each. */
  predicate Answering(content: Option<Content>, rs: seq<FunctionResponse>) {
    && content.Some? && content.value.role == Role.Tool && |content.value.parts| == |rs|
    && forall k | 0 <= k < |rs| :: content.value.parts[k] == Response(rs[k])
  }

  /** The event that answers the calls carries the responses and everything that the tools have asked for. */
  ghost predicate Reports(c: Calls, g: Gathered, te: Event) {
    && te.id == c.w.eventId(ToolEvent(c.turn)) && te.invocationId == c.w.invocationId && te.author == c.a.name
    && te.response == EMPTY_RESPONSE.(content := te.response.content) && Answering(te.response.content, g.responses)
    && te.branch.None? && te.partial.None? && te.turnComplete.None?
    && te.longRunningToolIds == (if g.longRunningIds == [] then None else Some(g.longRunningIds))
    && te.actions.stateDelta == g.stateDelta && te.actions.artifactDelta == g.artifactDelta
    && te.actions.requestedConfirmations == g.confirmations && te.actions.transferToAgent == g.transfer
    && te.actions.skipSummarization == (if g.skipSummarization then Some(true) else None)
    && te.actions.escalate.None? && te.actions.agentState.None?
  }

  /** How a turn goes on whose calls are all answered: transfer, escalation, pause and final response, in that order. */
  ghost predicate GoesOn(c: Calls, g: Gathered, event: Event, te: Event, tail: seq<Op>, step: Step) {
    && (g.transfer.Some? ==> step.end == TransferTo(g.transfer.value) && tail == [])
    && (g.transfer.None? && g.escalate ==>
          step.end == Returned && |tail| == 1 && tail[0].Yield? && tail[0].event.actions.escalate == Some(true)
          && tail[0].event.author == c.a.name)
    && (g.transfer.None? && !g.escalate && g.longRunningIds != [] ==> step.end == Returned && tail == [Pause])
    && (g.transfer.None? && !g.escalate && g.longRunningIds == [] ==>
          tail == [] && step.end == (if g.skipSummarization then Returned else Continue))
    && step.appended == (if step.end == Continue && event.response.content.Some? && te.response.content.Some?
                         then [event.response.content.value, te.response.content.value] else [])
  }

  /** A turn with calls, told from its tools. */
  ghost predicate TurnOf(c: Calls, event: Event, ds: seq<Dispatched>, g: Gathered, te: Event, tail: seq<Op>,
                         step: Step)
  {
    if g.error.Some? then
      && BrokenOff(c, ds, g) && step.end == Errored(g.error.value) && step.appended == []
      && step.ops == [Yield(event)] + Executions(g.ran)
    else
      && |ds| == |c.list| && GatheredFrom(c, ds, g) && Reports(c, g, te) && GoesOn(c, g, event, te, tail, step)
      && step.ops == [Yield(event)] + Executions(g.ran) + [Push(te), Yield(te)] + tail
  }

  lemma NothingIsGathered(c: Calls)
    ensures GatheredFrom(c, [], NOTHING_GATHERED)
  {
  }

  lemma ToolTurnIs(c: Calls, event: Event)
    returns (ds: seq<Dispatched>, g: Gathered, te: Event, tail: seq<Op>)
    requires event.response.content.Some? && c.list == FunctionCalls(event)
    ensures TurnOf(c, event, ds, g, te, tail, ToolTurn(c.a, c.w, c.turn, c.tools, event, c.bag))
  {
    hide FunctionCalls, GatherFrom, GatheredFrom, BrokenOff, Executions;
    NothingIsGathered(c);
    ds := CallsAreGathered(c, [], NOTHING_GATHERED);
    g := GatherFrom(c.a, c.w, c.turn, c.tools, c.bag, c.list, 0, NOTHING_GATHERED);
    te := ToolResponseEvent(c.a, c.w, c.turn, g);
    tail := if g.transfer.Some? then []
            else if g.escalate then [Yield(EscalationEvent(c.a, c.w, c.turn))]
            else if g.longRunningIds != [] then [Pause] else [];
    var before := [Yield(event)] + Executions(g.ran) + [Push(te), Yield(te)];
    assert before + [] == before;
  }

  /**
   * Every turn whose answer has calls: the tools are run as their gates allow, each call is answered with what its tool
   * returned, and the turn ends as the tools have asked.
   */
  lemma TurnAnswersItsCalls(a: LlmConfig, w: World, mode: StreamingMode, turn: nat, tools: map<string, Tool>, s: State)
    returns (ds: seq<Dispatched>, g: Gathered, te: Event, tail: seq<Op>)
    requires !w.cancelled(turn) && (w.maxLlmCalls.Some? ==> s.calls < w.maxLlmCalls.value)
    requires var asked := ModelTurn(a, w, mode, turn, s.contents);
             asked.answer.Ok? && FunctionCalls(ModelEventOf(a, w, turn, asked.answer.value)) != []
    ensures var asked := ModelTurn(a, w, mode, turn, s.contents);
            var event := ModelEventOf(a, w, turn, asked.answer.value);
            var c := Calls(a, w, turn, tools, s.bag, FunctionCalls(event));
            var (s1, end) := Turn(a, w, mode, turn, tools, s);
            exists step :: TurnOf(c, event, ds, g, te, tail, step) && step.end == end
              && s1.trace == s.trace + (asked.ops + ([Push(event)] + step.ops))
              && s1.contents == asked.contents + step.appended && s1.calls == s.calls + 1
  {
    var asked := ModelTurn(a, w, mode, turn, s.contents);
    var event := ModelEventOf(a, w, turn, asked.answer.value);
    hide ModelTurn, ModelEventOf, ToolTurn, CallsIn, TurnOf;
    var c := Calls(a, w, turn, tools, s.bag, FunctionCalls(event));
    ds, g, te, tail := ToolTurnIs(c, event);
    assert TurnOf(c, event, ds, g, te, tail, ToolTurn(a, w, turn, tools, event, s.bag));
  }

  // ---- Replay ------------------------------------------------------------------------------------------

  /** A replayed call: where its id stands among the unblocked ones, and what dispatching it came to. */
  datatype Reply = Reply(at: nat, call: FunctionCall, tool: Tool, d: Dispatched)

  function Dispatches(replies: seq<Reply>): seq<Dispatched> {
    seq(|replies|, j requires 0 <= j < |replies| => replies[j].d)
  }

  /** The call was this agent's own, and was dispatched in its turn. */
  ghost predicate DispatchedAt(r: Replayer, ids: seq<string>, x: Reply) {
    && x.at < |ids| && Owned(r, ids[x.at]) == Some((x.call, x.tool))
    && DispatchedAs(r.w, Replayed(x.at), x.tool, x.call, r.bag, x.d)
  }

  /** Exactly the agent's own calls among the first `k` ids, in order; none of the dispatches failed. */
  ghost predicate Replays(r: Replayer, ids: seq<string>, k: nat, replies: seq<Reply>) {
    && k <= |ids|
    && (forall j | 0 <= j < |replies| :: replies[j].at < k && DispatchedAt(r, ids, replies[j])
         && replies[j].d.outcome.Ok?)
    && (forall i, j | 0 <= i < j < |replies| :: replies[i].at < replies[j].at)
    && (forall p | 0 <= p < k && Owned(r, ids[p]).Some? :: exists j :: 0 <= j < |replies| && replies[j].at == p)
  }

  /** The response to a replayed call: the value of its outcome, under the call's id. */
  predicate RepliesWith(x: Reply, fr: FunctionResponse) {
    && x.d.outcome.Ok?
    && fr.id == x.call.id && fr.response == x.d.outcome.value.value && fr.scheduling.None?
    && fr.willContinue == (if x.d.outcome.value.Completed? then None else Some(true))
    && (x.d.outcome.value.Completed? ==> fr.name == x.call.name)
    && (x.d.outcome.value.ConfirmationPending? ==> fr.name == "adk_request_confirmation")
    && (x.d.outcome.value.AuthPending? ==> fr.name == "adk_request_credential")
  }

  /** What a replay has to show for the calls it has dispatched. */
  ghost predicate ReplayedAs(ids: seq<string>, replies: seq<Reply>, out: Replay) {
    && |out.responses| == |replies| == |out.consumed|
    && (forall j | 0 <= j < |replies| :: RepliesWith(replies[j], out.responses[j]))
    && (forall j | 0 <= j < |replies| :: replies[j].at < |ids| && out.consumed[j] == ids[replies[j].at])
    && (out.skipSummarization <==> exists x | x in replies :: x.d.effects.skipSummarization)
    && LastWriterWins(StateDeltas(Dispatches(replies)), out.stateDelta)
    && LastWriterWins(ArtifactDeltas(Dispatches(replies)), out.artifactDelta)
    && out.ran == RanIn(Dispatches(replies))
  }

  /** The dispatch of some call fails; all owned calls before it were dispatched, and none after it is. */
  ghost predicate ReplayBroken(r: Replayer, ids: seq<string>, replies: seq<Reply>, out: Replay) {
    exists x: Reply :: DispatchedAt(r, ids, x) && Replays(r, ids, x.at, replies)
      && out.error.Some? && Fails(x.d, out.error.value) && out.ran == RanIn(Dispatches(replies + [x]))
  }

  lemma ReplaysSnoc(r: Replayer, ids: seq<string>, replies: seq<Reply>, x: Reply)
    requires Replays(r, ids, x.at, replies) && DispatchedAt(r, ids, x) && x.d.outcome.Ok?
    ensures Replays(r, ids, x.at + 1, replies + [x])
  {
    assert x.at < |ids|;
    hide DispatchedAt;
    var all := replies + [x];
    forall p | 0 <= p < x.at + 1 && Owned(r, ids[p]).Some? ensures exists j :: 0 <= j < |all| && all[j].at == p {
      if p < x.at {
        var j :| 0 <= j < |replies| && replies[j].at == p;
        assert all[j].at == p;
      } else {
        assert all[|replies|].at == p;
      }
    }
  }

  lemma DispatchesSnoc(replies: seq<Reply>, x: Reply)
    ensures Dispatches(replies + [x]) == Dispatches(replies) + [x.d]
    ensures StateDeltas(Dispatches(replies + [x])) == StateDeltas(Dispatches(replies)) + [x.d.effects.stateDelta]
    ensures ArtifactDeltas(Dispatches(replies + [x])) ==
            ArtifactDeltas(Dispatches(replies)) + [x.d.effects.artifactDelta]
    ensures RanIn(Dispatches(replies + [x])) ==
            RanIn(Dispatches(replies)) + (if x.d.ran.Some? then [x.d.ran.value] else [])
  {
    assert Dispatches(replies + [x]) == Dispatches(replies) + [x.d];
    RanSnoc(Dispatches(replies), x.d);
  }

  lemma ReplayedSnoc(ids: seq<string>, replies: seq<Reply>, out: Replay, x: Reply, more: Replay)
    requires ReplayedAs(ids, replies, out) && x.at < |ids|
    requires |more.responses| > 0 && RepliesWith(x, more.responses[|more.responses| - 1])
    requires more.responses == out.responses + [more.responses[|more.responses| - 1]]
    requires more.consumed == out.consumed + [ids[x.at]]
    requires more.skipSummarization == (out.skipSummarization || x.d.effects.skipSummarization)
    requires more.stateDelta == out.stateDelta + x.d.effects.stateDelta
    requires more.artifactDelta == out.artifactDelta + x.d.effects.artifactDelta
    requires more.ran == out.ran + (if x.d.ran.Some? then [x.d.ran.value] else [])
    ensures ReplayedAs(ids, replies + [x], more)
  {
    DispatchesSnoc(replies, x);
    WriterAdded(StateDeltas(Dispatches(replies)), out.stateDelta, x.d.effects.stateDelta);
    WriterAdded(ArtifactDeltas(Dispatches(replies)), out.artifactDelta, x.d.effects.artifactDelta);
    hide LastWriterWins, RanIn, Dispatches, StateDeltas, ArtifactDeltas, RepliesWith;
    assert x in replies + [x] && forall y | y in replies :: y in replies + [x];
  }

  /** One unblocked id whose call is this agent's own. */
  lemma OwnedIsReplayed(r: Replayer, ids: seq<string>, replies: seq<Reply>, acc: Replay, x: Reply)
    requires x.at < |ids| && Replays(r, ids, x.at, replies) && ReplayedAs(ids, replies, acc) && acc.error.None?
    requires Owned(r, ids[x.at]) == Some((x.call, x.tool))
    requires x.d == DispatchCall(r.w, Replayed(x.at), x.tool, x.call, r.bag)
    ensures var h := ReplayOne(r, x.at, ids[x.at], acc);
            if h.error.Some? then ReplayBroken(r, ids, replies, h)
            else Replays(r, ids, x.at + 1, replies + [x]) && ReplayedAs(ids, replies + [x], h)
  {
    CallIsAnswered(r.w, Replayed(x.at), x.tool, x.call, r.bag);
    assert DispatchedAt(r, ids, x);
    hide DispatchCall, DispatchedAs, DispatchedAt, Owned, LastWriterWins, RanIn, Dispatches, Replays, ReplayedAs;
    var h := ReplayOne(r, x.at, ids[x.at], acc);
    if h.error.Some? {
      DispatchesSnoc(replies, x);
      ReplayedRan(ids, replies, acc);
      assert Fails(x.d, h.error.value);
    } else {
      ReplaysSnoc(r, ids, replies, x);
      hide Fails;
      ReplayedSnoc(ids, replies, acc, x, h);
    }
  }

  lemma OthersAreLeft(r: Replayer, ids: seq<string>, k: nat, replies: seq<Reply>)
    requires k < |ids| && Replays(r, ids, k, replies) && Owned(r, ids[k]).None?
    ensures Replays(r, ids, k + 1, replies)
  {
    hide DispatchedAs, Owned;
  }

  /** One unblocked id. */
  lemma ReplayOneIs(r: Replayer, ids: seq<string>, k: nat, replies: seq<Reply>, acc: Replay)
    returns (next: seq<Reply>)
    requires k < |ids| && Replays(r, ids, k, replies) && ReplayedAs(ids, replies, acc) && acc.error.None?
    ensures var h := ReplayOne(r, k, ids[k], acc);
            if h.error.Some? then ReplayBroken(r, ids, replies, h)
            else Replays(r, ids, k + 1, next) && ReplayedAs(ids, next, h)
  {
    hide DispatchCall, Owned, Replays, ReplayedAs, ReplayBroken;
    next := replies;
    if Owned(r, ids[k]).Some? {
      var (fc, tool) := Owned(r, ids[k]).value;
      var x := Reply(k, fc, tool, DispatchCall(r.w, Replayed(k), tool, fc, r.bag));
      next := replies + [x];
      hide ReplayOne;
      OwnedIsReplayed(r, ids, replies, acc, x);
    } else {
      OthersAreLeft(r, ids, k, replies);
    }
  }

  lemma ReplayedRan(ids: seq<string>, replies: seq<Reply>, out: Replay)
    requires ReplayedAs(ids, replies, out)
    ensures out.ran == RanIn(Dispatches(replies))
  {
  }

  lemma {:induction false} IdsAreReplayed(r: Replayer, ids: seq<string>, k: nat, replies: seq<Reply>, acc: Replay)
    returns (all: seq<Reply>)
    requires k <= |ids| && Replays(r, ids, k, replies) && ReplayedAs(ids, replies, acc) && acc.error.None?
    ensures var out := ReplayFrom(r, ids, k, acc);
            if out.error.Some? then ReplayBroken(r, ids, all, out)
            else Replays(r, ids, |ids|, all) && ReplayedAs(ids, all, out)
    decreases |ids| - k
  {
    hide ReplayOne, Replays, ReplayedAs, ReplayBroken;
    all := replies;
    if k < |ids| {
      var more := ReplayOneIs(r, ids, k, replies, acc);
      var next := ReplayOne(r, k, ids[k], acc);
      if next.error.None? {
        all := IdsAreReplayed(r, ids, k + 1, more, next);
      } else {
        assert ReplayFrom(r, ids, k + 1, next) == next;
      }
    }
  }

  lemma NothingIsReplayed(r: Replayer, ids: seq<string>)
    ensures Replays(r, ids, 0, []) && ReplayedAs(ids, [], NOTHING_REPLAYED)
  {
  }

  /**
   * Every replay: of the unblocked ids exactly the agent's own are dispatched, in order, and each is answered with what
   * its tool returned; a dispatch that fails ends the replay with its error.
   */
  lemma ReplayAnswersItsCalls(r: Replayer) returns (replies: seq<Reply>)
    ensures var out := ReplayAll(r);
            var ids := ResumedIds(r.bag);
            if out.error.Some? then ReplayBroken(r, ids, replies, out)
            else Replays(r, ids, |ids|, replies) && ReplayedAs(ids, replies, out)
  {
    hide ReplayFrom, Replays, ReplayedAs, ReplayBroken, ResumedIds;
    NothingIsReplayed(r, ResumedIds(r.bag));
    replies := IdsAreReplayed(r, ResumedIds(r.bag), 0, [], NOTHING_REPLAYED);
  }
}
