/**
 * Dispatching tool calls (src/agents/llm_agent.rs): the gates a call passes before its tool runs (1118-1223), and
 * the replay of calls that the user has unblocked (939-1020).
 */
module Dispatch {
  import opened Wrappers
  import opened Genai
  import opened Attributes

  datatype Tool = Tool(name: string, requiresConfirmation: Json -> bool, hint: Json -> string,
                       isLongRunning: bool, authenticates: bool)

  /** A place in a run at which a tool may be called: the k-th replayed id, or a call of a model turn. */
  datatype Slot = Replayed(index: nat) | Called(turn: nat, index: nat)

  /** What callbacks and tool have written to the tool context by the end of the call. */
  datatype Effects = Effects(escalate: bool, skipSummarization: bool, longRunning: bool, transferTo: Option<string>,
                             stateDelta: map<string, Json>, artifactDelta: map<string, nat>)

  const NO_EFFECTS: Effects := Effects(false, false, false, None, map[], map[])

  datatype AuthOutcome =
    | Ready | NeedsUserConsent(pending: Json) | Misconfigured(message: string) | AuthFails(error: string)

  datatype BeforeTool = Proceed(args: Json) | ShortCircuit(value: Json) | BeforeFails(error: string)

  /** Tools, credentials and tool callbacks: arbitrary functions of the place in the run. */
  datatype ToolWorld = ToolWorld(
    auth: Slot -> AuthOutcome,
    beforeTool: (Slot, FunctionCall) -> BeforeTool,
    run: (Slot, Json) -> Result<Json, string>,
    afterTool: (Slot, Json) -> Result<Json, string>,
    onToolError: (Slot, string) -> Result<Option<Json>, string>,
    effects: Slot -> Effects,
    encodeRequest: (FunctionCall, ToolConfirmation) -> Json)

  datatype ToolDispatch =
    | Completed(value: Json)
    | ConfirmationPending(value: Json, confirmation: ToolConfirmation)
    | AuthPending(value: Json)

  /** A run of a tool: the call it answers and the arguments it was given. */
  datatype Execution = Execution(call: FunctionCall, args: Json, gated: bool)

  datatype Dispatched = Dispatched(
    outcome: Result<ToolDispatch, string>, ran: Option<Execution>, effects: Effects)

  const CONFIRMATION_NAME := "adk_request_confirmation"
  const CREDENTIAL_NAME := "adk_request_credential"

  function ErrorValue(message: string): Json {
    Object(map["error" := String(message)])
  }

  function PendingName(d: ToolDispatch): Option<string> {
    match d
    case Completed(_) => None
    case ConfirmationPending(_, _) => Some(CONFIRMATION_NAME)
    case AuthPending(_) => Some(CREDENTIAL_NAME)
  }

  /** Gate 1, confirmation: pass only an approved call. */
  function DispatchCall(w: ToolWorld, slot: Slot, tool: Tool, fc: FunctionCall, bag: Bag): Dispatched {
    if !tool.requiresConfirmation(fc.args) then DispatchAuth(w, slot, tool, fc)
    else
      match DecisionFor(bag, fc.id)
      case Some(c) =>
        if c.confirmed then DispatchAuth(w, slot, tool, fc)
        else Dispatched(Ok(Completed(ErrorValue("tool call was rejected by the user"))), None, NO_EFFECTS)
      case None =>
        var confirmation := ToolConfirmation(tool.hint(fc.args), false, None);
        Dispatched(Ok(ConfirmationPending(w.encodeRequest(fc, confirmation), confirmation)), None, NO_EFFECTS)
  }

  /** Gate 2, credentials. */
  function DispatchAuth(w: ToolWorld, slot: Slot, tool: Tool, fc: FunctionCall): Dispatched {
    if !tool.authenticates then DispatchRun(w, slot, tool, fc)
    else
      match w.auth(slot)
      case Ready => DispatchRun(w, slot, tool, fc)
      case NeedsUserConsent(pending) => Dispatched(Ok(AuthPending(pending)), None, NO_EFFECTS)
      case Misconfigured(message) => Dispatched(Ok(Completed(ErrorValue(message))), None, NO_EFFECTS)
      case AuthFails(e) => Dispatched(Err(e), None, NO_EFFECTS)
  }

  /** Gate 3, the callbacks around the tool. */
  function DispatchRun(w: ToolWorld, slot: Slot, tool: Tool, fc: FunctionCall): Dispatched {
    match w.beforeTool(slot, fc)
    case BeforeFails(e) => Dispatched(Err(e), None, w.effects(slot))
    case ShortCircuit(v) => Dispatched(Ok(Completed(v)), None, w.effects(slot))
    case Proceed(args) =>
      var ran := Some(Execution(fc, args, tool.requiresConfirmation(fc.args)));
      match w.run(slot, args)
      case Ok(v) =>
        (match w.afterTool(slot, v)
         case Ok(v') => Dispatched(Ok(Completed(v')), ran, w.effects(slot))
         case Err(e) => Dispatched(Err(e), ran, w.effects(slot)))
      case Err(e) =>
        (match w.onToolError(slot, e)
         case Ok(Some(v)) => Dispatched(Ok(Completed(v)), ran, w.effects(slot))
         case Ok(None) => Dispatched(Ok(Completed(ErrorValue(e))), ran, w.effects(slot))
         case Err(e') => Dispatched(Err(e'), ran, w.effects(slot)))
  }

  /** A gated tool runs only for a call with an id whose recorded decision is an approval. */
  lemma GateHolds(w: ToolWorld, slot: Slot, tool: Tool, fc: FunctionCall, bag: Bag)
    ensures var d := DispatchCall(w, slot, tool, fc, bag);
            && (d.ran.Some? ==> d.ran.value.call == fc && (d.ran.value.gated <==> tool.requiresConfirmation(fc.args)))
            && (d.ran.Some? && d.ran.value.gated ==> fc.id.Some? && Approved(bag, fc.id.value))
            && (d.outcome.Ok? && d.outcome.value.ConfirmationPending? <==>
                  tool.requiresConfirmation(fc.args) && DecisionFor(bag, fc.id) == None)
            && (d.outcome.Ok? && !d.outcome.value.Completed? ==> d.ran.None? && d.effects == NO_EFFECTS)
  {
  }

  // ---- What an approval covers -------------------------------------------------------------------------

  /** Every gated execution is of an approved call. */
  predicate AllApproved(bag: Bag, ran: seq<Execution>) {
    forall x | x in ran && x.gated :: x.call.id.Some? && Approved(bag, x.call.id.value)
  }

  /** No two gated executions are of the same call id. */
  predicate SpentOnce(ran: seq<Execution>) {
    forall i, j | 0 <= i < j < |ran| && ran[i].gated && ran[j].gated :: ran[i].call.id != ran[j].call.id
  }

  lemma SpentOnceSnoc(ran: seq<Execution>, x: Execution)
    requires SpentOnce(ran) && forall y | y in ran && y.gated :: y.call.id != x.call.id
    ensures SpentOnce(ran + [x])
  {
  }

  lemma SpentOnceConcat(ran: seq<Execution>, more: seq<Execution>)
    requires SpentOnce(ran) && SpentOnce(more)
    requires forall x, y | x in ran && x.gated && y in more && y.gated :: x.call.id != y.call.id
    ensures SpentOnce(ran + more)
  {
  }

  /** A call that passes the second gate and whose arguments become, by `before_tool`, ones that need confirmation. */
  predicate RunsRewritten(w: ToolWorld, slot: Slot, tool: Tool, fc: FunctionCall) {
    && (!tool.authenticates || w.auth(slot) == Ready)
    && w.beforeTool(slot, fc).Proceed? && tool.requiresConfirmation(w.beforeTool(slot, fc).args)
  }

  /** If the tool runs with arguments that need confirmation, the call was approved. */
  predicate CoversArguments(w: ToolWorld, slot: Slot, tool: Tool, fc: FunctionCall, bag: Bag) {
    var d := DispatchCall(w, slot, tool, fc, bag);
    d.ran.Some? && tool.requiresConfirmation(d.ran.value.args) ==> fc.id.Some? && Approved(bag, fc.id.value)
  }

  /**
   * The gate looks at the arguments that the model gave, the tool gets those that `before_tool` returns.  An approval
   * covers the latter, in every bag, if and only if the former needed one too or nothing that does is run.
   */
  lemma ApprovalCoversArgumentsIff(w: ToolWorld, slot: Slot, tool: Tool, fc: FunctionCall)
    ensures (forall bag :: CoversArguments(w, slot, tool, fc, bag)) <==>
            tool.requiresConfirmation(fc.args) || !RunsRewritten(w, slot, tool, fc)
  {
    if !tool.requiresConfirmation(fc.args) && RunsRewritten(w, slot, tool, fc) {
      assert !CoversArguments(w, slot, tool, fc, Bag(None, None, false));
    }
  }

  // ---- Replay ------------------------------------------------------------------------------------------

  function FirstWithId(calls: seq<FunctionCall>, id: string): Option<FunctionCall> {
    if calls == [] then None
    else if calls[0].id == Some(id) then Some(calls[0])
    else FirstWithId(calls[1..], id)
  }

  /** The call with this id in the first event by this author that carries it. */
  function FindCall(log: seq<Event>, author: string, id: string): Option<FunctionCall> {
    if log == [] then None
    else
      var here := if log[0].author == author then FirstWithId(FunctionCalls(log[0]), id) else None;
      if here.Some? then here else FindCall(log[1..], author, id)
  }

  lemma {:induction false} FirstWithIdHasId(calls: seq<FunctionCall>, id: string)
    ensures FirstWithId(calls, id).Some? ==>
              FirstWithId(calls, id).value.id == Some(id) && FirstWithId(calls, id).value in calls
    decreases calls
  {
    if calls != [] {
      FirstWithIdHasId(calls[1..], id);
    }
  }

  /** The first of the calls with the id. */
  lemma {:induction false} FirstWithIdIsFirst(calls: seq<FunctionCall>, id: string)
    ensures if FirstWithId(calls, id).Some? then
              exists k :: IsFirstWithId(calls, id, k) && FirstWithId(calls, id) == Some(calls[k])
            else forall c | c in calls :: c.id != Some(id)
    decreases calls
  {
    if calls != [] {
      FirstWithIdIsFirst(calls[1..], id);
      if calls[0].id == Some(id) {
        assert IsFirstWithId(calls, id, 0);
      } else if FirstWithId(calls, id).Some? {
        var k :| IsFirstWithId(calls[1..], id, k) && FirstWithId(calls, id) == Some(calls[1..][k]);
        assert forall j | 0 < j < k + 1 :: calls[j] == calls[1..][j - 1];
        assert IsFirstWithId(calls, id, k + 1);
      }
    }
  }

  ghost predicate IsFirstWithId(calls: seq<FunctionCall>, id: string, k: int) {
    0 <= k < |calls| && calls[k].id == Some(id) && forall j | 0 <= j < k :: calls[j].id != Some(id)
  }

  lemma {:induction false} FindCallHasId(log: seq<Event>, author: string, id: string)
    ensures FindCall(log, author, id).Some? ==>
              && FindCall(log, author, id).value.id == Some(id)
              && exists e :: e in log && e.author == author && FindCall(log, author, id).value in FunctionCalls(e)
    decreases log
  {
    if log != [] {
      FirstWithIdHasId(FunctionCalls(log[0]), id);
      FindCallHasId(log[1..], author, id);
    }
  }

  function ResponseTo(fc: FunctionCall, d: ToolDispatch, value: Json, continues: bool): FunctionResponse {
    var pending := PendingName(d);
    FunctionResponse(fc.id, if pending.Some? then pending.value else fc.name, value,
                     if continues then Some(true) else None, None)
  }

  /** What a replay has done so far; `error` ends it. */
  datatype Replay = Replay(
    responses: seq<FunctionResponse>, stateDelta: map<string, Json>, artifactDelta: map<string, nat>,
    skipSummarization: bool, consumed: seq<string>, ran: seq<Execution>, error: Option<string>)

  const NOTHING_REPLAYED: Replay := Replay([], map[], map[], false, [], [], None)

  /** An agent as far as replay is concerned, and the log it looks its calls up in. */
  datatype Replayer = Replayer(w: ToolWorld, name: string, tools: map<string, Tool>, log: seq<Event>, bag: Bag)

  /** The call and the tool to dispatch for an id: the call must be this agent's own and the tool still registered. */
  function Owned(r: Replayer, id: string): Option<(FunctionCall, Tool)> {
    var fc := FindCall(r.log, r.name, id);
    if fc.Some? && fc.value.name in r.tools then Some((fc.value, r.tools[fc.value.name])) else None
  }

  function ReplayOne(r: Replayer, k: nat, id: string, acc: Replay): Replay {
    var owned := Owned(r, id);
    if owned.None? then acc
    else
      var (fc, tool) := owned.value;
      var d := DispatchCall(r.w, Replayed(k), tool, fc, r.bag);
      var ran := acc.ran + (if d.ran.Some? then [d.ran.value] else []);
      match d.outcome
      case Err(e) => acc.(ran := ran, error := Some(e))
      case Ok(outcome) =>
        Replay(acc.responses + [ResponseTo(fc, outcome, outcome.value, PendingName(outcome).Some?)],
               acc.stateDelta + d.effects.stateDelta, acc.artifactDelta + d.effects.artifactDelta,
               acc.skipSummarization || d.effects.skipSummarization, acc.consumed + [id], ran, None)
  }

  function ReplayFrom(r: Replayer, ids: seq<string>, k: nat, acc: Replay): Replay
    requires k <= |ids|
    decreases |ids| - k
  {
    if k == |ids| || acc.error.Some? then acc else ReplayFrom(r, ids, k + 1, ReplayOne(r, k, ids[k], acc))
  }

  function ReplayAll(r: Replayer): Replay {
    ReplayFrom(r, ResumedIds(r.bag), 0, NOTHING_REPLAYED)
  }

  /** The code: dispatch each unblocked id that is this agent's own, then consume the ids that were dispatched. */
  method ReplayResumedToolCalls(w: ToolWorld, name: string, tools: map<string, Tool>, log: seq<Event>,
                                shared: SharedBag)
    returns (out: Replay)
    modifies shared
    ensures out == ReplayAll(Replayer(w, name, tools, log, old(shared.bag)))
    ensures shared.bag == if out.error.Some? then old(shared.bag) else Consume(old(shared.bag), out.consumed)
  {
    hide DispatchCall;
    var ids := shared.ResumedToolCallIds();
    out := NOTHING_REPLAYED;
    if ids == [] {
      return;
    }
    ghost var r := Replayer(w, name, tools, log, shared.bag);
    var k := 0;
    while k < |ids|
      invariant 0 <= k <= |ids| && shared.bag == old(shared.bag) && out.error.None?
      invariant ReplayFrom(r, ids, k, out) == ReplayAll(r)
    {
      var id := ids[k];
      var fc := FindCall(log, name, id);
      if fc.None? {
        k := k + 1;
        continue;
      }
      if fc.value.name !in tools {
        k := k + 1;
        continue;
      }
      var d := DispatchCall(w, Replayed(k), tools[fc.value.name], fc.value, shared.bag);
      if d.ran.Some? {
        out := out.(ran := out.ran + [d.ran.value]);
      } else {
        assert out.ran + [] == out.ran;
      }
      match d.outcome {
        case Err(e) =>
          out := out.(error := Some(e));
          return;
        case Ok(outcome) =>
          out := out.(stateDelta := out.stateDelta + d.effects.stateDelta);
          out := out.(artifactDelta := out.artifactDelta + d.effects.artifactDelta);
          if d.effects.skipSummarization {
            out := out.(skipSummarization := true);
          }
          out := out.(consumed := out.consumed + [id]);
          var pending := PendingName(outcome);
          out := out.(responses := out.responses + [ResponseTo(fc.value, outcome, outcome.value, pending.Some?)]);
      }
      k := k + 1;
    }
    shared.ConsumeResumedIds(out.consumed);
  }

  // ---- Exactly once, for one run -----------------------------------------------------------------------

  /** The ids from position `k` on that this agent can dispatch, in order. */
  function OwnedFrom(r: Replayer, ids: seq<string>, k: nat): seq<string>
    requires k <= |ids|
    decreases |ids| - k
  {
    if k == |ids| then []
    else (if Owned(r, ids[k]).Some? then [ids[k]] else []) + OwnedFrom(r, ids, k + 1)
  }

  /**
   * A replay without a dispatch error consumes, in order and each occurrence once, exactly the unblocked ids that
   * this agent authored and still has the tool for; each gets one response.
   */
  lemma {:induction false} ReplayConsumesOwned(r: Replayer, ids: seq<string>, k: nat, acc: Replay)
    requires k <= |ids| && ReplayFrom(r, ids, k, acc).error.None?
    ensures ReplayFrom(r, ids, k, acc).consumed == acc.consumed + OwnedFrom(r, ids, k)
    ensures |ReplayFrom(r, ids, k, acc).responses| == |acc.responses| + |OwnedFrom(r, ids, k)|
    decreases |ids| - k
  {
    if k < |ids| && acc.error.None? {
      var next := ReplayOne(r, k, ids[k], acc);
      assert next.error.None?;
      ReplayConsumesOwned(r, ids, k + 1, next);
      hide DispatchCall;
      if Owned(r, ids[k]).Some? {
        assert next.consumed == acc.consumed + [ids[k]] && |next.responses| == |acc.responses| + 1;
        assert acc.consumed + [ids[k]] + OwnedFrom(r, ids, k + 1) == acc.consumed + OwnedFrom(r, ids, k);
      } else {
        assert [] + OwnedFrom(r, ids, k + 1) == OwnedFrom(r, ids, k);
      }
    }
  }

  function Count(ids: seq<string>, id: string): nat {
    if ids == [] then 0 else (if ids[0] == id then 1 else 0) + Count(ids[1..], id)
  }

  lemma {:induction false} OwnedCount(r: Replayer, ids: seq<string>, k: nat, id: string)
    requires k <= |ids|
    ensures Count(OwnedFrom(r, ids, k), id) == if Owned(r, id).Some? then Count(ids[k..], id) else 0
    decreases |ids| - k
  {
    if k < |ids| {
      OwnedCount(r, ids, k + 1, id);
      hide Owned;
      assert ids[k..][1..] == ids[k + 1..] && ids[k..][0] == ids[k];
      var rest := OwnedFrom(r, ids, k + 1);
      if Owned(r, ids[k]).Some? {
        assert ([ids[k]] + rest)[1..] == rest;
      } else {
        assert [] + rest == rest;
      }
    }
  }

  ghost predicate NoneTwice(ids: seq<string>) {
    forall id :: Count(ids, id) <= 1
  }

  ghost predicate NoneOwnedTwice(r: Replayer, ids: seq<string>) {
    forall id | Owned(r, id).Some? :: Count(ids, id) <= 1
  }

  /** The ids that a replay dispatches, the one whose dispatch fails included. */
  function DispatchedFrom(r: Replayer, ids: seq<string>, k: nat, acc: Replay): seq<string>
    requires k <= |ids|
    decreases |ids| - k
  {
    if k == |ids| || acc.error.Some? then []
    else
      (if Owned(r, ids[k]).Some? then [ids[k]] else [])
      + DispatchedFrom(r, ids, k + 1, ReplayOne(r, k, ids[k], acc))
  }

  function DispatchedIds(r: Replayer): seq<string> {
    DispatchedFrom(r, ResumedIds(r.bag), 0, NOTHING_REPLAYED)
  }

  /** How many ids a replay comes to. */
  function ReachFrom(r: Replayer, ids: seq<string>, k: nat, acc: Replay): (n: nat)
    requires k <= |ids|
    ensures k <= n <= |ids|
    decreases |ids| - k
  {
    if k == |ids| || acc.error.Some? then k else ReachFrom(r, ids, k + 1, ReplayOne(r, k, ids[k], acc))
  }

  function Reach(r: Replayer): (n: nat)
    ensures n <= |ResumedIds(r.bag)|
  {
    ReachFrom(r, ResumedIds(r.bag), 0, NOTHING_REPLAYED)
  }

  lemma {:induction false} DispatchedAreOwned(r: Replayer, ids: seq<string>, k: nat, acc: Replay)
    requires k <= |ids|
    ensures DispatchedFrom(r, ids, k, acc) == OwnedFrom(r, ids[..ReachFrom(r, ids, k, acc)], k)
    ensures ReplayFrom(r, ids, k, acc).error.None? ==> ReachFrom(r, ids, k, acc) == |ids|
    decreases |ids| - k
  {
    hide ReplayOne, Owned;
    if k < |ids| && acc.error.None? {
      DispatchedAreOwned(r, ids, k + 1, ReplayOne(r, k, ids[k], acc));
      var reached := ids[..ReachFrom(r, ids, k, acc)];
      assert reached[k] == ids[k];
    }
  }

  lemma TwiceIffCounted(r: Replayer, ids: seq<string>)
    ensures NoneTwice(OwnedFrom(r, ids, 0)) <==> NoneOwnedTwice(r, ids)
  {
    var owned := OwnedFrom(r, ids, 0);
    assert ids[0..] == ids;
    hide OwnedFrom, Owned;
    forall id ensures Count(owned, id) == if Owned(r, id).Some? then Count(ids, id) else 0 {
      OwnedCount(r, ids, 0, id);
    }
    if NoneTwice(owned) {
      forall id | Owned(r, id).Some? ensures Count(ids, id) <= 1 {
        assert Count(owned, id) <= 1;
      }
    }
  }

  /**
   * Each id is dispatched at most once in a replay, also in one that ends with a failed dispatch, if and only if no id
   * of this agent's occurs twice among the unblocked ids that the replay comes to; without an error these are all.
   * (Only auth ids can occur twice: nothing removes duplicates from them.)
   */
  lemma AtMostOnceIffNoDuplicates(r: Replayer)
    ensures NoneTwice(DispatchedIds(r)) <==> NoneOwnedTwice(r, ResumedIds(r.bag)[..Reach(r)])
    ensures ReplayAll(r).error.None? ==>
              Reach(r) == |ResumedIds(r.bag)| && ReplayAll(r).consumed == DispatchedIds(r)
  {
    var ids := ResumedIds(r.bag);
    DispatchedAreOwned(r, ids, 0, NOTHING_REPLAYED);
    TwiceIffCounted(r, ids[..Reach(r)]);
    if ReplayAll(r).error.None? {
      ConsumedIs(r, ids);
      assert ids[..|ids|] == ids;
    }
  }

  /** Tools that never fail. */
  const HARMLESS: ToolWorld := ToolWorld(
    _ => Ready, (_, _) => Proceed(Null), (_, _) => Ok(Null), (_, _) => Ok(Null), (_, _) => Ok(None), _ => NO_EFFECTS,
    (_, _) => Null)

  lemma {:induction false} HarmlessReplay(r: Replayer, ids: seq<string>, k: nat, acc: Replay)
    requires r.w == HARMLESS && k <= |ids| && acc.error.None?
    ensures ReplayFrom(r, ids, k, acc).error.None?
    decreases |ids| - k
  {
    if k < |ids| {
      HarmlessReplay(r, ids, k + 1, ReplayOne(r, k, ids[k], acc));
    }
  }

  lemma {:induction false} CountPrefix(ids: seq<string>, n: nat, id: string)
    requires n <= |ids|
    ensures Count(ids[..n], id) <= Count(ids, id)
    decreases ids
  {
    if n > 0 {
      assert ids[..n][1..] == ids[1..][..n - 1];
      CountPrefix(ids[1..], n - 1, id);
    }
  }

  /** Whatever tools do, no id is dispatched twice in a replay, if and only if no owned id is listed twice. */
  lemma NeverTwiceIffNoDuplicates(r: Replayer)
    ensures (forall w: ToolWorld :: NoneTwice(DispatchedIds(r.(w := w)))) <==> NoneOwnedTwice(r, ResumedIds(r.bag))
  {
    var ids := ResumedIds(r.bag);
    hide ResumedIds, Count, ReplayFrom;
    if NoneOwnedTwice(r, ids) {
      forall w: ToolWorld ensures NoneTwice(DispatchedIds(r.(w := w))) {
        var r' := r.(w := w);
        AtMostOnceIffNoDuplicates(r');
        forall id | Owned(r', id).Some? ensures Count(ids[..Reach(r')], id) <= 1 {
          CountPrefix(ids, Reach(r'), id);
          assert Owned(r, id).Some?;
        }
      }
    } else {
      var r' := r.(w := HARMLESS);
      AtMostOnceIffNoDuplicates(r');
      HarmlessReplay(r', ids, 0, NOTHING_REPLAYED);
      assert ids[..|ids|] == ids;
      var id :| Owned(r, id).Some? && Count(ids, id) > 1;
      assert Owned(r', id).Some?;
    }
  }

  lemma ConsumedIs(r: Replayer, ids: seq<string>)
    requires ids == ResumedIds(r.bag) && ReplayAll(r).error.None?
    ensures ReplayAll(r).consumed == OwnedFrom(r, ids, 0)
  {
    ReplayConsumesOwned(r, ids, 0, NOTHING_REPLAYED);
    assert [] + OwnedFrom(r, ids, 0) == OwnedFrom(r, ids, 0);
  }

  lemma {:induction false} OwnedOnce(r: Replayer, ids: seq<string>, k: nat)
    requires k <= |ids|
    ensures Distinct(ids) ==> Distinct(OwnedFrom(r, ids, k))
    ensures forall x :: x in OwnedFrom(r, ids, k) <==> exists j :: k <= j < |ids| && ids[j] == x && Owned(r, x).Some?
    decreases |ids| - k
  {
    if k < |ids| {
      OwnedOnce(r, ids, k + 1);
    }
  }

  /** Every gated tool that a replay runs was approved. */
  lemma {:induction false} ReplayRunsApproved(r: Replayer, ids: seq<string>, k: nat, acc: Replay)
    requires k <= |ids|
    requires forall x | x in acc.ran && x.gated :: x.call.id.Some? && Approved(r.bag, x.call.id.value)
    ensures forall x | x in ReplayFrom(r, ids, k, acc).ran && x.gated ::
              x.call.id.Some? && Approved(r.bag, x.call.id.value)
    decreases |ids| - k
  {
    if k < |ids| && acc.error.None? {
      if Owned(r, ids[k]).Some? {
        var (fc, tool) := Owned(r, ids[k]).value;
        GateHolds(r.w, Replayed(k), tool, fc, r.bag);
      }
      ReplayRunsApproved(r, ids, k + 1, ReplayOne(r, k, ids[k], acc));
    }
  }

  /**
   * The smallest instance: an auth id that is listed twice is dispatched twice by one replay, unless its first dispatch
   * fails; whether the second fails makes no difference.
   */
  lemma DuplicatedAuthIdIsDispatchedTwice(r: Replayer, id: string)
    requires Owned(r, id).Some? && r.bag.authIds == Some([id, id]) && r.bag.confirmations.None?
    requires ReplayOne(r, 0, id, NOTHING_REPLAYED).error.None?
    ensures DispatchedIds(r) == [id, id]
    ensures ReplayAll(r).error.None? ==> ReplayAll(r).consumed == [id, id]
  {
    var ids := [id, id];
    assert ResumedIds(r.bag) == ids;
    AtMostOnceIffNoDuplicates(r);
    hide Owned, ReplayOne, ReplayFrom, ResumedIds, Reach;
    var first := ReplayOne(r, 0, id, NOTHING_REPLAYED);
    assert DispatchedFrom(r, ids, 2, ReplayOne(r, 1, id, first)) == [];
    assert DispatchedFrom(r, ids, 1, first) == [id] + [] == [id];
    assert DispatchedFrom(r, ids, 0, NOTHING_REPLAYED) == [id] + [id];
  }
}
