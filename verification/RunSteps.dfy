/**
 * What the steps of a run say and record (src/agents/llm_agent.rs:170-463, 620-647), each told from the model, the
 * callbacks and the tools: the model's answer, its code, the final answer, the first request, and the four early ends.
 */
module RunSteps {
  import opened Wrappers
  import opened Genai
  import opened Attributes
  import opened Dispatch
  import opened CodeExec
  import opened StreamFold
  import opened LlmAgent
  import opened ToolOutcomes

  // ---- Asking the model --------------------------------------------------------------------------------

  /** What the model says: its whole answer, or its chunks folded into one unless the stream breaks off. */
  ghost predicate Says(w: World, mode: StreamingMode, turn: nat, contents: seq<Content>,
                       said: Result<LlmResponse, string>)
  {
    match mode
    case Whole => said == w.generate(turn, contents)
    case Sse =>
      match w.stream(turn, contents)
      case Err(e) => said == Err(e)
      case Ok((_, Some(e))) => said == Err(e)
      case Ok((chunks, None)) => said == Ok(Aggregate(chunks))
  }

  /** An error of the model's, as `on_model_error` leaves it: an error still, the same error, or an answer. */
  ghost predicate Recovers(w: World, turn: nat, contents: seq<Content>, error: string, asked: Asked) {
    match w.onModelError(turn, contents, error)
    case Err(e) => asked.answer == Err(e) && asked.contents == contents
    case Ok(Recovery(rewritten, None)) => asked.answer == Err(error) && asked.contents == rewritten
    case Ok(Recovery(rewritten, Some(r))) => asked.answer == w.afterModel(turn, r) && asked.contents == rewritten
  }

  /** The turn's answer: every answer goes through `after_model`, also one that a callback gave. */
  ghost predicate AnswerOf(w: World, mode: StreamingMode, turn: nat, contents: seq<Content>, asked: Asked) {
    match w.beforeModel(turn, contents)
    case Err(e) => asked.answer == Err(e) && asked.contents == contents && asked.ops == []
    case Ok(Answer(rewritten, r)) =>
      asked.answer == w.afterModel(turn, r) && asked.contents == rewritten && asked.ops == []
    case Ok(Ask(rewritten)) =>
      exists said :: Says(w, mode, turn, rewritten, said)
        && (said.Ok? ==> asked.answer == w.afterModel(turn, said.value) && asked.contents == rewritten)
        && (said.Err? ==> Recovers(w, turn, rewritten, said.error, asked))
  }

  lemma TurnsAnswer(a: LlmConfig, w: World, mode: StreamingMode, turn: nat, contents: seq<Content>)
    ensures AnswerOf(w, mode, turn, contents, ModelTurn(a, w, mode, turn, contents))
  {
    hide Aggregate;
    var asked := ModelTurn(a, w, mode, turn, contents);
    if w.beforeModel(turn, contents).Ok? && w.beforeModel(turn, contents).value.Ask? {
      var rewritten := w.beforeModel(turn, contents).value.contents;
      assert Says(w, mode, turn, rewritten, AskModel(a, w, mode, turn, rewritten).answer);
    }
  }

  predicate Carries(chunk: LlmResponse) {
    chunk.content.Some? && chunk.content.value.parts != []
  }

  /** Exactly the chunks that have parts, in order, by position from `k` on. */
  ghost predicate WithParts(chunks: seq<LlmResponse>, k: nat, at: seq<nat>) {
    && (forall i | k <= i < |chunks| && Carries(chunks[i]) :: i in at)
    && (forall j | 0 <= j < |at| :: k <= at[j])
    && (forall i, j | 0 <= i < j < |at| :: at[i] < at[j])
  }

  /** Each of them is handed out as it came, marked as partial. */
  ghost predicate Surfaced(a: LlmConfig, chunks: seq<LlmResponse>, at: seq<nat>, ops: seq<Op>) {
    |ops| == |at| && forall j | 0 <= j < |at| :: SurfacedAt(a, chunks, at[j], ops[j])
  }

  predicate SurfacedAt(a: LlmConfig, chunks: seq<LlmResponse>, i: nat, op: Op) {
    i < |chunks| && Carries(chunks[i]) && op.Yield? && SurfacedAs(a, chunks[i], op.event)
  }

  predicate SurfacedAs(a: LlmConfig, chunk: LlmResponse, e: Event) {
    e.response == chunk && e.partial == Some(true) && e.author == a.name && e.actions == NO_ACTIONS
  }

  lemma {:induction false} ChunksAreSurfaced(a: LlmConfig, w: World, turn: nat, chunks: seq<LlmResponse>, k: nat)
    returns (at: seq<nat>)
    requires k <= |chunks|
    ensures WithParts(chunks, k, at) && Surfaced(a, chunks, at, PartialOps(a, w, turn, chunks, k))
    decreases |chunks| - k
  {
    hide Surfaced, WithParts, Carries, SurfacedAs;
    at := [];
    if k == |chunks| {
      NoChunks(a, chunks);
    } else {
      at := ChunksAreSurfaced(a, w, turn, chunks, k + 1);
      var ops := PartialOps(a, w, turn, chunks, k + 1);
      NextChunk(chunks, k, at);
      assert Carries(chunks[k]) <==> HasParts(chunks[k]) by { CarriesParts(chunks[k]); }
      hide HasParts;
      if Carries(chunks[k]) {
        var e := PartialChunkEvent(a, w, PartialEvent(turn, k), chunks[k]);
        assert SurfacedAs(a, chunks[k], e) by { PartialIsSurfaced(a, w, turn, chunks, k); }
        ChunkIsSurfaced(a, chunks, k, at, ops, Yield(e));
        at := [k] + at;
      } else {
        assert [] + ops == ops;
      }
    }
  }

  lemma CarriesParts(chunk: LlmResponse)
    ensures Carries(chunk) <==> HasParts(chunk)
  {
  }

  lemma NoChunks(a: LlmConfig, chunks: seq<LlmResponse>)
    ensures WithParts(chunks, |chunks|, []) && Surfaced(a, chunks, [], [])
  {
  }

  lemma PartialIsSurfaced(a: LlmConfig, w: World, turn: nat, chunks: seq<LlmResponse>, k: nat)
    requires k < |chunks|
    ensures SurfacedAs(a, chunks[k], PartialChunkEvent(a, w, PartialEvent(turn, k), chunks[k]))
  {
  }

  lemma NextChunk(chunks: seq<LlmResponse>, k: nat, at: seq<nat>)
    requires k < |chunks| && WithParts(chunks, k + 1, at)
    ensures WithParts(chunks, k, if Carries(chunks[k]) then [k] + at else at)
  {
    hide Carries;
    var all := [k] + at;
    assert forall j | 0 < j < |all| :: all[j] == at[j - 1];
    assert all[0] == k;
    assert forall i | i in at :: i in all;
  }

  lemma ChunkIsSurfaced(a: LlmConfig, chunks: seq<LlmResponse>, k: nat, at: seq<nat>, ops: seq<Op>, op: Op)
    requires Surfaced(a, chunks, at, ops) && SurfacedAt(a, chunks, k, op)
    ensures Surfaced(a, chunks, [k] + at, [op] + ops)
  {
    hide SurfacedAt;
    assert forall j | 0 < j < |[k] + at| :: ([k] + at)[j] == at[j - 1] && ([op] + ops)[j] == ops[j - 1];
  }

  // ---- The model's event -------------------------------------------------------------------------------

  /** A call without an id has one now; nothing else is different. */
  predicate Identified(w: World, turn: nat, i: nat, p: Part, q: Part) {
    if p.Call? && p.call.id.None? then q == Part.Call(p.call.(id := Some(w.callId(turn, i)))) else q == p
  }

  /** The event that records the model's answer: complete, under the agent's name, asking for nothing. */
  ghost predicate Records(a: LlmConfig, w: World, turn: nat, response: LlmResponse, e: Event) {
    && e.author == a.name && e.invocationId == w.invocationId && e.id == w.eventId(ModelEvent(turn))
    && e.turnComplete == Some(true) && e.partial.None? && e.branch.None? && e.longRunningToolIds.None?
    && e.actions == NO_ACTIONS
    && e.response.(content := response.content) == response
    && e.response.content.Some? == response.content.Some?
    && (response.content.Some? ==>
          var c, d := response.content.value, e.response.content.value;
          && d.role == c.role && |d.parts| == |c.parts|
          && forall i | 0 <= i < |c.parts| :: Identified(w, turn, i, c.parts[i], d.parts[i]))
  }

  lemma AnswerIsRecorded(a: LlmConfig, w: World, turn: nat, response: LlmResponse)
    ensures Records(a, w, turn, response, ModelEventOf(a, w, turn, response))
  {
  }

  // ---- Turns without calls -----------------------------------------------------------------------------

  /** The turn is not cut off by the user or the budget, and the model answers it. */
  predicate Answered(a: LlmConfig, w: World, mode: StreamingMode, turn: nat, s: State) {
    && !w.cancelled(turn) && (w.maxLlmCalls.Some? ==> s.calls < w.maxLlmCalls.value)
    && ModelTurn(a, w, mode, turn, s.contents).answer.Ok?
  }

  /** The event of an answered turn. */
  function EventOf(a: LlmConfig, w: World, mode: StreamingMode, turn: nat, s: State): Event
    requires Answered(a, w, mode, turn, s)
  {
    ModelEventOf(a, w, turn, ModelTurn(a, w, mode, turn, s.contents).answer.value)
  }

  /** The pieces of code in an event. */
  function CodesOf(w: World, e: Event): seq<Code> {
    if e.response.content.Some? then CodeIn(e.response.content.value.parts, w.lower) else []
  }

  /** One result for each piece of code: that of the first attempt that gets through, or the last error. */
  ghost predicate ResultOf(exec: Executor, i: nat, code: Code, attempts: nat, p: Part) {
    exists n :: LastAttempt(exec, i, code, attempts, n)
      && match exec(i, n, code)
         case Ok(exit) =>
           p == CodeExecutionResult(CodeResult(if exit.success then Success else Failed, Some(exit.output)))
         case Err(e) => p == CodeExecutionResult(CodeResult(Failed, Some(e)))
  }

  /** Attempt `n` is made, and none after it. */
  ghost predicate LastAttempt(exec: Executor, i: nat, code: Code, attempts: nat, n: nat) {
    && n < attempts && (forall j | 0 <= j < n :: exec(i, j, code).Err?)
    && (exec(i, n, code).Ok? || n + 1 == attempts)
  }

  lemma CodeIsRun(exec: Executor, codes: seq<Code>, retryAttempts: nat, i: nat)
    requires i < |codes|
    ensures |ResultsOf(exec, codes, retryAttempts)| == |codes|
    ensures ResultOf(exec, i, codes[i], if retryAttempts == 0 then 1 else retryAttempts,
                     ResultsOf(exec, codes, retryAttempts)[i])
  {
    var n := MaxAttempts(retryAttempts);
    FirstSuccessWins(exec, i, codes[i], 0, n);
    var tries := Attempts(exec, i, codes[i], 0, n).1;
    hide Attempts;
    assert LastAttempt(exec, i, codes[i], n, tries - 1);
  }

  /** A turn with code: recorded, run, and sent back to the model with the results. */
  ghost predicate RanCode(a: LlmConfig, w: World, turn: nat, event: Event, results: seq<Part>, re: Event, s: State,
                          asked: Asked, s1: State)
    requires event.response.content.Some? && a.executor.Some?
  {
    var codes := CodesOf(w, event);
    && |results| == |codes|
    && (forall i | 0 <= i < |codes| ::
         ResultOf(w.execute(turn), i, codes[i], if a.executor.value == 0 then 1 else a.executor.value, results[i]))
    && re.author == a.name && re.response == EMPTY_RESPONSE.(content := Some(Content(Role.Tool, results)))
    && re.actions == NO_ACTIONS && re.longRunningToolIds.None? && re.partial.None?
    && s1.trace == s.trace + asked.ops + [Push(event), Yield(event), Push(re), Yield(re)]
    && s1.contents == asked.contents + [event.response.content.value, Content(Role.Tool, results)]
  }

  lemma TurnRunsItsCode(a: LlmConfig, w: World, mode: StreamingMode, turn: nat, tools: map<string, Tool>, s: State)
    returns (results: seq<Part>, re: Event)
    requires Answered(a, w, mode, turn, s) && FunctionCalls(EventOf(a, w, mode, turn, s)) == []
    requires a.executor.Some? && CodesOf(w, EventOf(a, w, mode, turn, s)) != []
    ensures var (s1, end) := Turn(a, w, mode, turn, tools, s);
            && end == Continue && s1.calls == s.calls + 1
            && RanCode(a, w, turn, EventOf(a, w, mode, turn, s), results, re, s,
                       ModelTurn(a, w, mode, turn, s.contents), s1)
  {
    var event := EventOf(a, w, mode, turn, s);
    var asked := ModelTurn(a, w, mode, turn, s.contents);
    hide ModelTurn, ModelEventOf, CallsIn, CodeIn, ResultsOf;
    var codes := CodesOf(w, event);
    var exec := w.execute(turn);
    results := ResultsOf(exec, codes, a.executor.value);
    re := CodeResultEvent(a, w, turn, Content(Role.Tool, results));
    CodeIsRun(exec, codes, a.executor.value, 0);
    forall i | 0 <= i < |codes|
      ensures ResultOf(exec, i, codes[i], if a.executor.value == 0 then 1 else a.executor.value, results[i])
    {
      CodeIsRun(exec, codes, a.executor.value, i);
    }
    hide ResultOf;
    assert s.trace + asked.ops + [Push(event), Yield(event), Push(re), Yield(re)] ==
           s.trace + (asked.ops + ([Push(event)] + ([Yield(event)] + PushYield(re))));
  }

  /** What follows the end of a run that no tool stops: one more event, if `after_agent` has something to say. */
  ghost predicate Closes(a: LlmConfig, w: World, ops: seq<Op>, end: End) {
    match w.afterAgent
    case Err(e) => ops == [] && end == Errored(e)
    case Ok(None) => ops == [] && end == Returned
    case Ok(Some(content)) =>
      && end == Returned && |ops| == 2 && ops[0].Push? && ops[1] == Yield(ops[0].event)
      && ops[0].event.author == a.name && ops[0].event.response == EMPTY_RESPONSE.(content := Some(content))
      && ops[0].event.actions == NO_ACTIONS && ops[0].event.partial.None?
  }

  /** The value for the output key: the text, parsed if that is asked for and possible. */
  ghost predicate Stores(a: LlmConfig, w: World, event: Event, key: string, value: Json) {
    && a.outputKey == Some(key) && event.response.content.Some?
    && var text := JoinedText(event.response.content.value.parts);
       && text != ""
       && (a.structured && w.parseJson(text).Some? ==> w.parseJson(text) == Some(value))
       && (!a.structured || w.parseJson(text).None? ==> value == String(text))
  }

  /** The final event, as it is or with the value under the output key, which the session then has too. */
  ghost predicate Concludes(a: LlmConfig, w: World, event: Event, ops: seq<Op>) {
    if a.outputKey.Some? && event.response.content.Some? && JoinedText(event.response.content.value.parts) != "" then
      exists value :: Stores(a, w, event, a.outputKey.value, value)
        && var delta := event.actions.stateDelta[a.outputKey.value := value];
           var e := event.(actions := event.actions.(stateDelta := delta));
           ops == [Push(event), Op.Stamp(e), Yield(e)]
    else ops == [Push(event), Yield(event)]
  }

  lemma Concluded(a: LlmConfig, w: World, event: Event)
    ensures Concludes(a, w, event, [Push(event)] + FinalOps(a, w, event))
  {
    var value := if a.outputKey.Some? then OutputValue(w, event, a.structured) else None;
    if value.Some? {
      assert Stores(a, w, event, a.outputKey.value, value.value);
    }
  }

  lemma Closed(a: LlmConfig, w: World)
    ensures Closes(a, w, Finish(a, w).ops, Finish(a, w).end) && Finish(a, w).appended == []
  {
  }

  /** A turn with neither calls nor code to run ends the run. */
  lemma FinalTurn(a: LlmConfig, w: World, mode: StreamingMode, turn: nat, tools: map<string, Tool>, s: State)
    returns (final: seq<Op>, close: seq<Op>)
    requires Answered(a, w, mode, turn, s) && FunctionCalls(EventOf(a, w, mode, turn, s)) == []
    requires a.executor.Some? ==> CodesOf(w, EventOf(a, w, mode, turn, s)) == []
    ensures var (s1, end) := Turn(a, w, mode, turn, tools, s);
            && s1.trace == s.trace + ModelTurn(a, w, mode, turn, s.contents).ops + final + close
            && Concludes(a, w, EventOf(a, w, mode, turn, s), final) && Closes(a, w, close, end)
            && s1.calls == s.calls + 1
  {
    var event := EventOf(a, w, mode, turn, s);
    var asked := ModelTurn(a, w, mode, turn, s.contents);
    Concluded(a, w, event);
    Closed(a, w);
    hide ModelTurn, ModelEventOf, CallsIn, CodeIn, FinalOps, Concludes, Finish, Closes;
    final := [Push(event)] + FinalOps(a, w, event);
    close := Finish(a, w).ops;
    assert s.trace + asked.ops + final + close ==
           s.trace + (asked.ops + ([Push(event)] + (FinalOps(a, w, event) + close)));
  }

  // ---- Turns that are cut off --------------------------------------------------------------------------

  /** A single event with an error code, and no content. */
  predicate Notice(a: LlmConfig, e: Event, code: string, message: string) {
    && e.author == a.name && e.actions == NO_ACTIONS && e.longRunningToolIds.None? && e.partial.None?
    && e.response == EMPTY_RESPONSE.(errorCode := Some(code), errorMessage := Some(message))
  }

  /** A turn does not begin once the user has cancelled or the budget is used up, and ends if the model has failed. */
  lemma CutOff(a: LlmConfig, w: World, mode: StreamingMode, turn: nat, tools: map<string, Tool>, s: State)
    requires !Answered(a, w, mode, turn, s)
    ensures var (s1, end) := Turn(a, w, mode, turn, tools, s);
            var asked := ModelTurn(a, w, mode, turn, s.contents);
            if w.cancelled(turn) then
              && end == Returned && s1.calls == s.calls && s1.contents == s.contents
              && exists e :: Notice(a, e, "CANCELLED", "invocation was cancelled")
                   && s1.trace == s.trace + [Push(e), Yield(e)]
            else if w.maxLlmCalls.Some? && s.calls >= w.maxLlmCalls.value then
              s1 == s && end == Errored("max_llm_calls reached")
            else
              && asked.answer.Err? && end == Errored(asked.answer.error)
              && s1.trace == s.trace + asked.ops && s1.calls == s.calls + 1
  {
    hide ModelTurn;
    if w.cancelled(turn) {
      var e := CancellationEvent(a, w, turn);
      assert Notice(a, e, "CANCELLED", "invocation was cancelled");
      assert Turn(a, w, mode, turn, tools, s).0.trace == s.trace + [Push(e), Yield(e)];
    }
  }

  /** When the iterations are used up the stream says so, the session does not, and `after_agent` has the last word. */
  lemma IterationsUsedUp(a: LlmConfig, w: World, mode: StreamingMode, tools: map<string, Tool>, s: State)
    returns (e: Event, close: seq<Op>)
    ensures var (s1, end) := Turns(a, w, mode, a.maxIterations, tools, s);
            && Notice(a, e, "MAX_ITERATIONS", "agent exhausted its iteration budget")
            && s1.trace == s.trace + [Yield(e)] + close && Closes(a, w, close, end)
            && s1.calls == s.calls
  {
    e := ExhaustedBudgetEvent(a, w);
    close := Finish(a, w).ops;
    assert s.trace + [Yield(e)] + close == s.trace + ([Yield(e)] + close);
  }

  // ---- The beginning of a run --------------------------------------------------------------------------

  /** The history, then the user's content unless the history ends in it, then the deferred instructions. */
  ghost predicate BeginsWith(a: LlmConfig, w: World, log: seq<Event>, deferred: Option<string>,
                             contents: seq<Content>, user: seq<Content>, tail: seq<Content>)
  {
    var history := if a.includeHistory then w.history(log) else [];
    && contents == history + user + tail
    && |user| == (if w.userContent.None? || EndsIn(history, w.userContent.value) then 0 else 1)
    && |tail| == (if deferred.None? then 0 else 1)
    && (forall c | c in user :: w.userContent == Some(c))
    && (forall c | c in tail :: deferred.Some? && c.role == User && c.parts == [Text(deferred.value)])
  }

  ghost predicate Begins(a: LlmConfig, w: World, log: seq<Event>, deferred: Option<string>, contents: seq<Content>) {
    exists user, tail :: BeginsWith(a, w, log, deferred, contents, user, tail)
  }

  predicate EndsIn(contents: seq<Content>, c: Content) {
    contents != [] && contents[|contents| - 1] == c
  }

  lemma RequestBegins(a: LlmConfig, w: World, log: seq<Event>, deferred: Option<string>)
    ensures Begins(a, w, log, deferred, InitialContents(a, w, log, deferred))
  {
    var history := if a.includeHistory then w.history(log) else [];
    var user := if w.userContent.None? || EndsIn(history, w.userContent.value) then [] else [w.userContent.value];
    var tail := if deferred.Some? then [Content(User, [Text(deferred.value)])] else [];
    assert BeginsWith(a, w, log, deferred, InitialContents(a, w, log, deferred), user, tail);
  }

  /** `before_agent` may fail the run or answer in its stead, before anything is replayed or asked. */
  lemma BeforeTheRun(a: LlmConfig, w: World, mode: StreamingMode, log: seq<Event>, bag: Bag, calls: nat)
    requires w.beforeAgent != Ok(None) || w.request.Err?
    ensures var (s, end) := Run(a, w, mode, log, bag, calls);
            && s.bag == bag && s.calls == calls
            && (w.beforeAgent.Err? ==> end == Errored(w.beforeAgent.error) && s.trace == [])
            && (w.beforeAgent.Ok? && w.beforeAgent.value.Some? ==>
                  end == Returned
                  && exists e: Event :: s.trace == [Push(e), Yield(e)] && e.author == a.name
                       && e.response == EMPTY_RESPONSE.(content := w.beforeAgent.value) && e.actions == NO_ACTIONS)
            && (w.beforeAgent == Ok(None) ==> end == Errored(w.request.error) && s.trace == [])
  {
    if w.beforeAgent.Ok? && w.beforeAgent.value.Some? {
      var e := AgentEvent(a, w, BeforeAgentEvent, WithContent(w.beforeAgent.value.value));
      assert Run(a, w, mode, log, bag, calls).0.trace == [Push(e), Yield(e)];
    }
  }

  // ---- The replay --------------------------------------------------------------------------------------

  /** The event that answers what was replayed. */
  ghost predicate ReportsReplay(a: LlmConfig, r: Replay, e: Event) {
    && e.author == a.name && e.partial.None? && e.longRunningToolIds.None?
    && e.response == EMPTY_RESPONSE.(content := e.response.content) && Answering(e.response.content, r.responses)
    && e.actions.stateDelta == r.stateDelta && e.actions.artifactDelta == r.artifactDelta
    && e.actions.skipSummarization == (if r.skipSummarization then Some(true) else None)
    && e.actions.transferToAgent.None? && e.actions.escalate.None? && e.actions.requestedConfirmations == map[]
  }

  /** The trace and the contents at the end of a replay. */
  ghost predicate AfterReplay(a: LlmConfig, r: Replay, e: Event, step: Step) {
    if r.error.Some? then
      step.ops == Executions(r.ran) && step.end == Errored(r.error.value)
    else if r.responses == [] then
      step.ops == Executions(r.ran) && step.end == Continue && step.appended == []
    else
      && ReportsReplay(a, r, e)
      && step.ops == Executions(r.ran) + [Push(e), Yield(e)]
      && step.end == (if r.skipSummarization then Returned else Continue)
      && (step.end == Continue ==> step.appended == [e.response.content.value])
  }

  /** The bag after a replay: as it was if a dispatch has failed, and else without what was dispatched. */
  ghost predicate Spent(bag: Bag, r: Replay, after: Bag) {
    && (r.error.Some? || r.consumed == [] ==> after == bag)
    && (r.error.None? && Valid(bag) ==>
          && Valid(after)
          && (forall id :: id in ResumedIds(after) <==> id in ResumedIds(bag) && id !in r.consumed)
          && (forall id | id !in r.consumed :: DecisionFor(after, Some(id)) == DecisionFor(bag, Some(id))))
  }

  lemma ReplaySpends(bag: Bag, r: Replay)
    ensures Spent(bag, r, BagAfterReplay(bag, r))
  {
    if r.error.None? && Valid(bag) {
      ConsumeConserves(bag, r.consumed);
      hide ResumedIds;
      forall id | id !in r.consumed
        ensures DecisionFor(Consume(bag, r.consumed), Some(id)) == DecisionFor(bag, Some(id))
      {
        OtherDecisionsStay(bag, r.consumed, id);
      }
    }
  }

  /**
   * Every run that `before_agent` lets begin: the calls that the user has unblocked are answered with what their tools
   * return, the session and the stream get the answers in one event, and the loop goes on with them in its request,
   * unless a dispatch has failed or a tool has had the last word.
   */
  lemma RunBeginsWithReplay(a: LlmConfig, w: World, mode: StreamingMode, log: seq<Event>, bag: Bag, calls: nat)
    returns (contents: seq<Content>, replies: seq<Reply>, r: Replay, e: Event, step: Step, after: Bag)
    requires w.beforeAgent == Ok(None) && w.request.Ok?
    ensures Begins(a, w, log, w.request.value.deferred, contents)
    ensures var by_ := Replayer(w.tools, a.name, w.request.value.tools, log, bag);
            var ids := ResumedIds(bag);
            if r.error.Some? then ReplayBroken(by_, ids, replies, r)
            else Replays(by_, ids, |ids|, replies) && ReplayedAs(ids, replies, r)
    ensures AfterReplay(a, r, e, step)
    ensures Spent(bag, r, after)
    ensures var s := State(contents + step.appended, after, calls, step.ops);
            Run(a, w, mode, log, bag, calls) ==
            if step.end == Continue then Turns(a, w, mode, 0, w.request.value.tools, s) else (s, step.end)
  {
    var request := w.request.value;
    contents := InitialContents(a, w, log, request.deferred);
    r := ReplayOf(a, w, log, request.tools, bag);
    step := ReplayStep(a, w, r);
    e := ReplayResponseEvent(a, w, r);
    RequestBegins(a, w, log, request.deferred);
    replies := ReplayAnswersItsCalls(Replayer(w.tools, a.name, request.tools, log, bag));
    after := BagAfterReplay(bag, r);
    ReplaySpends(bag, r);
    ReplayStepIs(a, w, r);
    hide *;
    RunFromReplay(a, w, mode, log, bag, calls);
  }

  lemma ReplayStepIs(a: LlmConfig, w: World, r: Replay)
    ensures AfterReplay(a, r, ReplayResponseEvent(a, w, r), ReplayStep(a, w, r))
  {
    ReplayIsReported(a, w, r);
    hide ReportsReplay, Executions;
  }

  lemma RunFromReplay(a: LlmConfig, w: World, mode: StreamingMode, log: seq<Event>, bag: Bag, calls: nat)
    requires w.beforeAgent == Ok(None) && w.request.Ok?
    ensures var r := ReplayOf(a, w, log, w.request.value.tools, bag);
            var step := ReplayStep(a, w, r);
            var contents := InitialContents(a, w, log, w.request.value.deferred);
            var s := State(contents + step.appended, BagAfterReplay(bag, r), calls, step.ops);
            Run(a, w, mode, log, bag, calls) ==
            if step.end == Continue then Turns(a, w, mode, 0, w.request.value.tools, s) else (s, step.end)
  {
    var r := ReplayOf(a, w, log, w.request.value.tools, bag);
    NoPauseInReplay(a, w, r);
    hide ReplayOf, ReplayStep, InitialContents, BagAfterReplay, Turns;
    assert [] + ReplayStep(a, w, r).ops == ReplayStep(a, w, r).ops;
  }

  lemma ReplayIsReported(a: LlmConfig, w: World, r: Replay)
    ensures ReportsReplay(a, r, ReplayResponseEvent(a, w, r))
  {
  }

  lemma NoPauseInReplay(a: LlmConfig, w: World, r: Replay)
    ensures Pause !in ReplayStep(a, w, r).ops
  {
  }
}
