/**
 * One run of an LLM agent (src/agents/llm_agent.rs:154-647): a loop that builds a request, calls the model, dispatches
 * the calls of its answer and goes on until the model is done or something stops it.
 *
 * `Run` is the meaning of a run; it records what the run does to the outside as a trace of operations.
 */
module LlmAgent {
  import opened Wrappers
  import opened Genai
  import opened Attributes
  import opened Dispatch
  import opened CodeExec
  import opened StreamFold

  // ---- The agent and its world -------------------------------------------------------------------------

  /** `executor` is the retry count of the code executor, if there is one. */
  datatype LlmConfig = LlmConfig(
    name: string, maxIterations: nat, disableTransfer: bool, outputKey: Option<string>, structured: bool,
    includeHistory: bool, executor: Option<nat>)

  /** The tools a request offers, and the instructions deferred to its contents. */
  datatype Request = Request(tools: map<string, Tool>, deferred: Option<string>)

  /** `before_model` may rewrite the contents, and answer in the model's stead. */
  datatype BeforeModel = Ask(contents: seq<Content>) | Answer(contents: seq<Content>, response: LlmResponse)

  /** `on_model_error` may rewrite the contents, and recover the turn. */
  datatype Recovery = Recovery(contents: seq<Content>, response: Option<LlmResponse>)

  datatype StreamingMode = Whole | Sse

  datatype EventSlot =
    | BeforeAgentEvent | ReplayEvent | CancelEvent(turn: nat) | ModelEvent(turn: nat)
    | PartialEvent(turn: nat, chunk: nat)
    | CodeEvent(turn: nat) | ToolEvent(turn: nat) | EscalateEvent(turn: nat) | ExhaustedEvent | AfterAgentEvent

  /** Everything outside the agent: arbitrary functions of the place in the run, so also models with a memory. */
  datatype World = World(
    invocationId: string,
    beforeAgent: Result<Option<Content>, string>,
    request: Result<Request, string>,
    history: seq<Event> -> seq<Content>,
    userContent: Option<Content>,
    cancelled: nat -> bool,
    maxLlmCalls: Option<nat>,
    beforeModel: (nat, seq<Content>) -> Result<BeforeModel, string>,
    generate: (nat, seq<Content>) -> Result<LlmResponse, string>,
    stream: (nat, seq<Content>) -> Result<(seq<LlmResponse>, Option<string>), string>,
    onModelError: (nat, seq<Content>, string) -> Result<Recovery, string>,
    afterModel: (nat, LlmResponse) -> Result<LlmResponse, string>,
    afterAgent: Result<Option<Content>, string>,
    tools: ToolWorld,
    execute: nat -> Executor,
    lower: string -> string,
    parseJson: string -> Option<Json>,
    resolves: string -> bool,
    eventId: EventSlot -> string,
    callId: (nat, nat) -> string)

  /** What a run does to the outside, in order. */
  datatype Op =
    | Push(event: Event)       // appended to the session's events
    | Stamp(event: Event)      // written over the last session event with the same id
    | Yield(event: Event)      // handed to the consumer of the stream
    | Ran(execution: Execution)
    | Pause                    // the invocation is marked as paused

  datatype State = State(contents: seq<Content>, bag: Bag, calls: nat, trace: seq<Op>)

  datatype End = Continue | Returned | Errored(error: string) | TransferTo(name: string)

  /** What a step of the run adds to its state. */
  datatype Step = Step(ops: seq<Op>, appended: seq<Content>, end: End)

  function Advance(s: State, step: Step): State {
    State(s.contents + step.appended, if Pause in step.ops then s.bag.(paused := true) else s.bag, s.calls,
          s.trace + step.ops)
  }

  function PushYield(e: Event): seq<Op> {
    [Push(e), Yield(e)]
  }

  // ---- Events ------------------------------------------------------------------------------------------

  function AgentEvent(a: LlmConfig, w: World, slot: EventSlot, response: LlmResponse): Event {
    Event(w.eventId(slot), w.invocationId, a.name, None, response, NO_ACTIONS, None, None, None)
  }

  function ModelResponseEvent(a: LlmConfig, w: World, slot: EventSlot, response: LlmResponse): Event {
    AgentEvent(a, w, slot, response).(turnComplete := Some(true))
  }

  function PartialChunkEvent(a: LlmConfig, w: World, slot: EventSlot, chunk: LlmResponse): Event {
    AgentEvent(a, w, slot, chunk).(partial := Some(true))
  }

  function ResponseParts(rs: seq<FunctionResponse>): seq<Part> {
    seq(|rs|, i requires 0 <= i < |rs| => Response(rs[i]))
  }

  function ToolContent(rs: seq<FunctionResponse>): Content {
    Content(Role.Tool, ResponseParts(rs))
  }

  function CancellationEvent(a: LlmConfig, w: World, turn: nat): Event {
    AgentEvent(a, w, CancelEvent(turn),
               EMPTY_RESPONSE.(errorCode := Some("CANCELLED"), errorMessage := Some("invocation was cancelled")))
  }

  function ExhaustedBudgetEvent(a: LlmConfig, w: World): Event {
    AgentEvent(a, w, ExhaustedEvent, EMPTY_RESPONSE.(
      errorCode := Some("MAX_ITERATIONS"), errorMessage := Some("agent exhausted its iteration budget")))
  }

  function EscalationEvent(a: LlmConfig, w: World, turn: nat): Event {
    AgentEvent(a, w, EscalateEvent(turn), EMPTY_RESPONSE).(actions := NO_ACTIONS.(escalate := Some(true)))
  }

  function PartWithId(w: World, turn: nat, i: nat, p: Part): Part {
    if p.Call? && p.call.id.None? then Part.Call(p.call.(id := Some(w.callId(turn, i)))) else p
  }

  /** Give every call without an id one of its own. */
  function WithIds(w: World, turn: nat, parts: seq<Part>): seq<Part> {
    seq(|parts|, i requires 0 <= i < |parts| => PartWithId(w, turn, i, parts[i]))
  }

  function EnsureCallIds(w: World, turn: nat, e: Event): Event {
    if e.response.content.None? then e
    else
      var c := e.response.content.value;
      e.(response := e.response.(content := Some(Content(c.role, WithIds(w, turn, c.parts)))))
  }

  // ---- One model call ----------------------------------------------------------------------------------

  predicate HasParts(r: LlmResponse) { r.content.Some? && r.content.value.parts != [] }

  /** The partial events of a stream, from chunk `k` on. */
  function PartialOps(a: LlmConfig, w: World, turn: nat, chunks: seq<LlmResponse>, k: nat): seq<Op>
    requires k <= |chunks|
    decreases |chunks| - k
  {
    if k == |chunks| then []
    else (if HasParts(chunks[k]) then [Yield(PartialChunkEvent(a, w, PartialEvent(turn, k), chunks[k]))] else [])
         + PartialOps(a, w, turn, chunks, k + 1)
  }

  /** The answer of a turn, with the events it has yielded and the contents it was asked for. */
  datatype Asked = Asked(ops: seq<Op>, contents: seq<Content>, answer: Result<LlmResponse, string>)

  /** Ask the model, whole or streamed. */
  function AskModel(a: LlmConfig, w: World, mode: StreamingMode, turn: nat, contents: seq<Content>): Asked {
    if mode.Whole? then Asked([], contents, w.generate(turn, contents))
    else
      match w.stream(turn, contents)
      case Err(e) => Asked([], contents, Err(e))
      case Ok((chunks, error)) =>
        Asked(PartialOps(a, w, turn, chunks, 0), contents,
              if error.Some? then Err(error.value) else Ok(Aggregate(chunks)))
  }

  /** The model call with the callbacks around it. */
  function ModelTurn(a: LlmConfig, w: World, mode: StreamingMode, turn: nat, contents: seq<Content>): Asked {
    match w.beforeModel(turn, contents)
    case Err(e) => Asked([], contents, Err(e))
    case Ok(Answer(rewritten, r)) => Asked([], rewritten, w.afterModel(turn, r))
    case Ok(Ask(rewritten)) =>
      var asked := AskModel(a, w, mode, turn, rewritten);
      match asked.answer
      case Ok(r) => asked.(answer := w.afterModel(turn, r))
      case Err(e) =>
        (match w.onModelError(turn, asked.contents, e)
         case Err(e') => asked.(answer := Err(e'))
         case Ok(Recovery(recovered, None)) => asked.(contents := recovered)
         case Ok(Recovery(recovered, Some(r))) => asked.(contents := recovered, answer := w.afterModel(turn, r)))
  }

  // ---- Dispatching the calls of a turn -----------------------------------------------------------------

  datatype Gathered = Gathered(
    responses: seq<FunctionResponse>, longRunningIds: seq<string>, stateDelta: map<string, Json>,
    artifactDelta: map<string, nat>, skipSummarization: bool, escalate: bool, transfer: Option<string>,
    confirmations: map<string, ToolConfirmation>, ran: seq<Execution>, error: Option<string>)

  const NOTHING_GATHERED: Gathered := Gathered([], [], map[], map[], false, false, None, map[], [], None)

  function CallKey(fc: FunctionCall): string {
    if fc.id.Some? then fc.id.value else fc.name
  }

  /** A transfer request is honoured if it resolves, and answered with an error the model can react to if not. */
  function AfterTransfer(a: LlmConfig, w: World, requested: Option<string>, value: Json, transfer: Option<string>)
    : (Json, Option<string>)
  {
    if requested.None? || a.disableTransfer then (value, transfer)
    else if w.resolves(requested.value) then (value, requested)
    else (ErrorValue("unknown agent `" + requested.value + "`; transfer not performed"), transfer)
  }

  function GatherOne(a: LlmConfig, w: World, turn: nat, tools: map<string, Tool>, bag: Bag, i: nat, fc: FunctionCall,
                     g: Gathered): Gathered
  {
    if fc.name !in tools then g.(error := Some("unknown tool: " + fc.name))
    else
      var tool := tools[fc.name];
      var d := DispatchCall(w.tools, Called(turn, i), tool, fc, bag);
      var ran := g.ran + (if d.ran.Some? then [d.ran.value] else []);
      match d.outcome
      case Err(e) => g.(ran := ran, error := Some(e))
      case Ok(outcome) =>
        var fx := d.effects;
        var (value, transfer) := AfterTransfer(a, w, fx.transferTo, outcome.value, g.transfer);
        var waits := tool.isLongRunning || fx.longRunning || PendingName(outcome).Some?;
        Gathered(
          g.responses + [ResponseTo(fc, outcome, value, waits)],
          g.longRunningIds + (if waits then [CallKey(fc)] else []),
          g.stateDelta + fx.stateDelta, g.artifactDelta + fx.artifactDelta,
          g.skipSummarization || fx.skipSummarization, g.escalate || fx.escalate, transfer,
          if outcome.ConfirmationPending? then g.confirmations[CallKey(fc) := outcome.confirmation]
          else g.confirmations,
          ran, None)
  }

  function GatherFrom(a: LlmConfig, w: World, turn: nat, tools: map<string, Tool>, bag: Bag, calls: seq<FunctionCall>,
                      i: nat, g: Gathered): Gathered
    requires i <= |calls|
    decreases |calls| - i
  {
    if i == |calls| || g.error.Some? then g
    else GatherFrom(a, w, turn, tools, bag, calls, i + 1, GatherOne(a, w, turn, tools, bag, i, calls[i], g))
  }

  function ToolResponseEvent(a: LlmConfig, w: World, turn: nat, g: Gathered): Event {
    AgentEvent(a, w, ToolEvent(turn), WithContent(ToolContent(g.responses))).(
      longRunningToolIds := if g.longRunningIds != [] then Some(g.longRunningIds) else None,
      actions := NO_ACTIONS.(
        requestedConfirmations := g.confirmations, stateDelta := g.stateDelta, artifactDelta := g.artifactDelta,
        skipSummarization := if g.skipSummarization then Some(true) else None,
        transferToAgent := g.transfer))
  }

  function Executions(ran: seq<Execution>): seq<Op> {
    seq(|ran|, i requires 0 <= i < |ran| => Ran(ran[i]))
  }

  // ---- One turn ----------------------------------------------------------------------------------------

  /** Dispatch the calls, record the responses, and decide how to go on. */
  function ToolTurn(a: LlmConfig, w: World, turn: nat, tools: map<string, Tool>, event: Event, bag: Bag): Step
    requires event.response.content.Some?
  {
    var g := GatherFrom(a, w, turn, tools, bag, FunctionCalls(event), 0, NOTHING_GATHERED);
    var dispatched := [Yield(event)] + Executions(g.ran);
    if g.error.Some? then Step(dispatched, [], Errored(g.error.value))
    else
      var ops := dispatched + PushYield(ToolResponseEvent(a, w, turn, g));
      if g.transfer.Some? then Step(ops, [], TransferTo(g.transfer.value))
      else if g.escalate then Step(ops + [Yield(EscalationEvent(a, w, turn))], [], Returned)
      else if g.longRunningIds != [] then Step(ops + [Pause], [], Returned)
      else if g.skipSummarization then Step(ops, [], Returned)
      else Step(ops, [event.response.content.value, ToolContent(g.responses)], Continue)
  }

  /** The event with the results of code; unlike the others it does not name its invocation. */
  function CodeResultEvent(a: LlmConfig, w: World, turn: nat, results: Content): Event {
    AgentEvent(a, w, CodeEvent(turn), WithContent(results)).(invocationId := "")
  }

  /** Run the code parts and record their results. */
  function CodeTurn(a: LlmConfig, w: World, turn: nat, codes: seq<Code>, event: Event): Step
    requires a.executor.Some? && event.response.content.Some?
  {
    var results := Content(Role.Tool, ResultsOf(w.execute(turn), codes, a.executor.value));
    Step([Yield(event)] + PushYield(CodeResultEvent(a, w, turn, results)),
         [event.response.content.value, results], Continue)
  }

  /** The value stored under the output key: the text, parsed if a schema is set and it parses. */
  function OutputValue(w: World, e: Event, structured: bool): Option<Json> {
    if e.response.content.None? then None
    else
      var text := JoinedText(e.response.content.value.parts);
      if text == "" then None
      else if structured && w.parseJson(text).Some? then w.parseJson(text)
      else Some(String(text))
  }

  function WithOutput(e: Event, key: string, v: Json): Event {
    e.(actions := e.actions.(stateDelta := e.actions.stateDelta[key := v]))
  }

  /** The end of a run that no tool stops: `after_agent` may add one more event. */
  function Finish(a: LlmConfig, w: World): Step {
    match w.afterAgent
    case Err(e) => Step([], [], Errored(e))
    case Ok(None) => Step([], [], Returned)
    case Ok(Some(content)) => Step(PushYield(AgentEvent(a, w, AfterAgentEvent, WithContent(content))), [], Returned)
  }

  /** The final response, with the output key stamped in stream and session alike. */
  function FinalOps(a: LlmConfig, w: World, event: Event): seq<Op> {
    var value := if a.outputKey.Some? then OutputValue(w, event, a.structured) else None;
    if value.None? then [Yield(event)]
    else
      var e := WithOutput(event, a.outputKey.value, value.value);
      [Op.Stamp(e), Yield(e)]
  }

  /** What becomes of the model's event once it is in the session. */
  function AfterModel(a: LlmConfig, w: World, turn: nat, tools: map<string, Tool>, event: Event, bag: Bag): Step {
    var codes := if event.response.content.Some? then CodeIn(event.response.content.value.parts, w.lower) else [];
    if FunctionCalls(event) != [] then ToolTurn(a, w, turn, tools, event, bag)
    else if a.executor.Some? && codes != [] then CodeTurn(a, w, turn, codes, event)
    else Finish(a, w).(ops := FinalOps(a, w, event) + Finish(a, w).ops)
  }

  /** The model's answer as it enters the session: every call has an id. */
  function ModelEventOf(a: LlmConfig, w: World, turn: nat, response: LlmResponse): Event {
    EnsureCallIds(w, turn, ModelResponseEvent(a, w, ModelEvent(turn), response))
  }

  /** What a turn adds after asking the model. */
  function AnswerStep(a: LlmConfig, w: World, turn: nat, tools: map<string, Tool>, asked: Asked, bag: Bag): Step {
    match asked.answer
    case Err(e) => Step(asked.ops, [], Errored(e))
    case Ok(response) =>
      var event := ModelEventOf(a, w, turn, response);
      var step := AfterModel(a, w, turn, tools, event, bag);
      step.(ops := asked.ops + ([Push(event)] + step.ops))
  }

  function Turn(a: LlmConfig, w: World, mode: StreamingMode, turn: nat, tools: map<string, Tool>, s: State): (State,
                End) {
    if w.cancelled(turn) then (Advance(s, Step(PushYield(CancellationEvent(a, w, turn)), [], Returned)), Returned)
    else if w.maxLlmCalls.Some? && s.calls >= w.maxLlmCalls.value then (s, Errored("max_llm_calls reached"))
    else
      var asked := ModelTurn(a, w, mode, turn, s.contents);
      var step := AnswerStep(a, w, turn, tools, asked, s.bag);
      (Advance(s.(calls := s.calls + 1, contents := asked.contents), step), step.end)
  }

  // ---- The run -----------------------------------------------------------------------------------------

  function Turns(a: LlmConfig, w: World, mode: StreamingMode, turn: nat, tools: map<string, Tool>, s: State): (State,
                 End)
    requires turn <= a.maxIterations
    decreases a.maxIterations - turn
  {
    if turn == a.maxIterations then
      var step := Finish(a, w);
      (Advance(s, step.(ops := [Yield(ExhaustedBudgetEvent(a, w))] + step.ops)), step.end)
    else
      var (s1, end) := Turn(a, w, mode, turn, tools, s);
      if end == Continue then Turns(a, w, mode, turn + 1, tools, s1) else (s1, end)
  }

  /** History, the user's content unless it is already last, then deferred instructions. */
  function InitialContents(a: LlmConfig, w: World, log: seq<Event>, deferred: Option<string>): seq<Content> {
    var history := if a.includeHistory then w.history(log) else [];
    var user := if w.userContent.Some? && (history == [] || history[|history| - 1] != w.userContent.value)
                then [w.userContent.value] else [];
    history + user + (if deferred.Some? then [Content(User, [Text(deferred.value)])] else [])
  }

  function ReplayResponseEvent(a: LlmConfig, w: World, r: Replay): Event {
    AgentEvent(a, w, ReplayEvent, WithContent(ToolContent(r.responses))).(
      actions := NO_ACTIONS.(stateDelta := r.stateDelta, artifactDelta := r.artifactDelta,
                             skipSummarization := if r.skipSummarization then Some(true) else None))
  }

  function ReplayOf(a: LlmConfig, w: World, log: seq<Event>, tools: map<string, Tool>, bag: Bag): Replay {
    ReplayAll(Replayer(w.tools, a.name, tools, log, bag))
  }

  /** What the replay adds; it is over before the first turn, and `Continue` goes on to it. */
  function ReplayStep(a: LlmConfig, w: World, r: Replay): Step {
    if r.error.Some? then Step(Executions(r.ran), [], Errored(r.error.value))
    else if r.responses == [] then Step(Executions(r.ran), [], Continue)
    else
      var ops := Executions(r.ran) + PushYield(ReplayResponseEvent(a, w, r));
      if r.skipSummarization then Step(ops, [], Returned)
      else Step(ops, [ToolContent(r.responses)], Continue)
  }

  /** The ids that were dispatched are consumed, unless a dispatch failed. */
  function BagAfterReplay(bag: Bag, r: Replay): Bag {
    if r.error.Some? then bag else Consume(bag, r.consumed)
  }

  function Run(a: LlmConfig, w: World, mode: StreamingMode, log: seq<Event>, bag: Bag, calls: nat): (State, End) {
    var s := State([], bag, calls, []);
    match w.beforeAgent
    case Err(e) => (s, Errored(e))
    case Ok(Some(content)) =>
      (Advance(s, Step(PushYield(AgentEvent(a, w, BeforeAgentEvent, WithContent(content))), [], Returned)), Returned)
    case Ok(None) =>
      match w.request
      case Err(e) => (s, Errored(e))
      case Ok(request) =>
        var r := ReplayOf(a, w, log, request.tools, bag);
        var step := ReplayStep(a, w, r);
        var s1 := Advance(State(InitialContents(a, w, log, request.deferred), BagAfterReplay(bag, r), calls, []), step);
        if step.end == Continue then Turns(a, w, mode, 0, request.tools, s1) else (s1, step.end)
  }

  // ---- The session and the stream after a run ----------------------------------------------------------

  /** The position of the last event with this id, if any. */
  function LastWithId(log: seq<Event>, id: string): (k: int)
    ensures -1 <= k < |log|
    ensures k >= 0 ==> log[k].id == id
    ensures forall i | k < i < |log| :: log[i].id != id
  {
    if log == [] then -1 else if log[|log| - 1].id == id then |log| - 1 else LastWithId(log[..|log| - 1], id)
  }

  function StampOver(log: seq<Event>, e: Event): seq<Event> {
    var k := LastWithId(log, e.id);
    if k < 0 then log else log[k := e]
  }

  function ApplyOp(log: seq<Event>, op: Op): seq<Event> {
    match op
    case Push(e) => log + [e]
    case Stamp(e) => StampOver(log, e)
    case _ => log
  }

  /** The session's events after a trace. */
  function Applied(log: seq<Event>, trace: seq<Op>): seq<Event> {
    if trace == [] then log else ApplyOp(Applied(log, trace[..|trace| - 1]), trace[|trace| - 1])
  }

  /** The events that a trace has handed to the consumer. */
  function Yields(trace: seq<Op>): seq<Event> {
    if trace == [] then []
    else
      Yields(trace[..|trace| - 1]) + (if trace[|trace| - 1].Yield? then [trace[|trace| - 1].event] else [])
  }

  lemma AppliedSnoc(log: seq<Event>, trace: seq<Op>, op: Op)
    ensures Applied(log, trace + [op]) == ApplyOp(Applied(log, trace), op)
    ensures Yields(trace + [op]) == if op.Yield? then Yields(trace) + [op.event] else Yields(trace)
  {
    assert (trace + [op])[..|trace|] == trace;
  }

  lemma {:induction false} ExecutionsLeaveNoMark(log: seq<Event>, trace: seq<Op>, ran: seq<Execution>)
    ensures Applied(log, trace + Executions(ran)) == Applied(log, trace)
    ensures Yields(trace + Executions(ran)) == Yields(trace)
    decreases ran
  {
    if ran == [] {
      assert trace + Executions(ran) == trace;
    } else {
      var n := |ran| - 1;
      ExecutionsLeaveNoMark(log, trace, ran[..n]);
      AppliedSnoc(log, trace + Executions(ran[..n]), Ran(ran[n]));
      assert trace + Executions(ran[..n]) + [Ran(ran[n])] == trace + Executions(ran);
    }
  }
}
