# Verified model of the adk-rs agent runtime and its A2A task pipeline

The project models what happens between a user's message and the events that answer it. An LLM agent builds a request,
replays calls that the user has unblocked, asks its model (whole or streamed), passes each call through a confirmation,
a credential and a callback gate, and goes on until the model is done or something stops it. Workflow agents order such
agents in sequence, in a loop or in parallel. The A2A server turns the events of a run into a stored task and a stream
of updates, and the A2A client turns these into events again.

Models, tools, callbacks, credentials, the executor of code and the user who cancels are arbitrary functions of the
place in the run, so every result holds for all of them. Each loop of the source that updates state is a method with
that loop, proved to do what a specification function says; the laws are proved about that function.

| module | models |
|---|---|
| `Genai`, `Wrappers` | contents, parts, model responses, events |
| `TemplateScanner`, `Instructions` | `{name}` references in instructions; the regular expression is the reference |
| `StreamFold` | folding streamed chunks into one response |
| `AgentTree` | agent lookup and transfer targets |
| `Attributes`, `Dispatch`, `ReplayProtocol` | unblocked ids and decisions, the gates of a call, replay alone and interleaved |
| `CodeExec` | running emitted code with retries |
| `LlmAgent`, `LlmRun` | the run of an LLM agent as a function, and its loop |
| `ToolOutcomes`, `RunSteps`, `RunEndings` | what the calls, turns and ends of a run come to, told from model, tools and callbacks |
| `LlmLog`, `LlmStreaming`, `LlmGates` | laws of every run of an LLM agent |
| `Hosting`, `LlmInvocation` | the runner around an agent; the same laws over any sequence of such runs on one session, bag and budget |
| `Transfer` | runs of a whole tree whose agents hand over to each other |
| `Workflow`, `WorkflowLaws`, `LeafOutcomes`, `Resume`, `ResumeUnderLoops`, `Reruns` | sequences and loops, checkpoints and resume |
| `Parallel` | child tasks, a bounded channel, one consumer |
| `A2aTypes`, `Mapping`, `TaskService`, `Subscription`, `Server`, `Client` | the A2A pipeline (A2A Protocol Specification v0.2, sections 6.3, 6.5, 6.7 and 7.2.3) |

## Where the code does not do what one may expect

Each of these is proved, with the exact condition where there is one.

- A broadcast artifact update is documented to carry the chunk (src/a2a/types.rs:483). It carries it exactly if the chunk
  is not appended to an artifact that is already stored: `BroadcastCarriesChunk`, `SecondChunkBroadcastEmpty`. A streaming
  client therefore sees the first text of a run at most: `StreamedTextCompleteIff`.
- Even that text may be lost. A subscriber's channel has 32 slots, the final status takes one, and a run sends its updates
  at its own pace. The first text is sure to arrive if and only if the run has at most 31 texts:
  `StreamSurfacesFirstTextIff`, with the smallest failing run in `ThirtyTwoTextsMayAllBeLost`.
- Healthy siblings are documented to keep streaming after a child fails (docs/content/workflow-agents.ts:62). The merged
  stream ends at the first error. They are sure to deliver everything if and only if no child fails or they have nothing to
  deliver: `HealthySiblingsKeepStreamingIff`.
- A resumable sequence skips its children from the second iteration of an enclosing loop on, because it reads its own
  earlier checkpoint. Resumability leaves an uninterrupted run unchanged if and only if no loop of two or more iterations
  encloses a sequence of two or more children: `ResumabilityIsHarmlessIffLoopSafe`.
- Auth ids are not freed of duplicates, so a duplicated id is dispatched twice: `AtMostOnceIffNoDuplicates`,
  `DuplicatedAuthIdIsDispatchedTwice`.
- Replays that overlap can repeat a dispatch, for every agent that has an unblocked id: `OverlappingNamesakesRepeat`. None is
  repeated if and only if no replay starts that owns an unblocked id which another one in progress owns too, or which has
  been dispatched: `AtMostOnceIffCareful`.
- A tool may run with arguments that need confirmation and without an approval, if `before_tool` makes them so:
  `ApprovalCoversArgumentsIff`.
- Resuming is documented never to run finished steps again (docs/content/cancellation-and-resume.ts:99). A loop keeps no
  checkpoint and begins anew. The promise is kept if and only if every loop runs one child once: `NeverRunsAgainIffOnePass`,
  with the smallest failing tree in `LoopedStepRunsAgain`.
- The runner takes the events of an agent called "user", which a builder accepts, for the user's: it stores no marker of
  theirs and leaves their temporary state. All is stored if and only if the name is another: `StoredWholeIffNotCalledUser`.
- An escalating event ends every enclosing sequence and loop, not only the loop it is meant to leave:
  `EscalationEndsTheRun`.
- When a run fails, `message/send` drops what it had absorbed and `message/stream` stores it: the two contracts of
  `HandleMessageSend` and `HandleMessageStream`. A task that has been started is stored as submitted, not working:
  `StartTask`.

## Model

| member | source | states |
|---|---|---|
| TemplateScanner.Scan | src/agents/instructions.rs:19-57 | for every template the loop returns the substitution of the leftmost non-overlapping matches of `{+[^{}]*}+`; values are not scanned again |
| TemplateScanner.FirstMatchExists | src/agents/instructions.rs:27-39 | where the expression matches at all, a regex engine's first match (leftmost, greedy) exists |
| TemplateScanner.FirstMatchUnique | src/agents/instructions.rs:27-39 | that match is unique, so the substitution is well defined |
| TemplateScanner.ScannedMatchIsFirst | src/agents/instructions.rs:23-39 | the span that the index arithmetic finds is that very match |
| TemplateScanner.SubstitutedSkips | src/agents/instructions.rs:41-47 | text in which no match starts is copied, also after an unterminated brace |
| TemplateScanner.NoReferenceUnchanged | src/agents/instructions.rs:50-56 | a template none of whose matches is a reference is returned unchanged |
| TemplateScanner.FailureHasCause | src/agents/instructions.rs:50-53 | a failure is the failure of one of the matches |
| Instructions.InjectSessionState | src/agents/instructions.rs:19-97 | for every template the substitution in which every reference is resolved as `NamesAreReplaced` and `ArtifactsAreReplaced` say |
| Instructions.ValidStateNames | src/agents/instructions.rs:99-112 | accepted names are exactly identifiers and `app:`, `user:`, `temp:` identifiers |
| Instructions.IdentifierGrows | src/agents/instructions.rs:100-107 | identifiers letter by letter: a letter or `_` first, then letters, digits and `_` |
| Instructions.LeftAlone | src/agents/instructions.rs:61-97 | a body is left alone exactly if it is neither an artifact reference nor a valid name, whatever the state holds |
| Instructions.LiteralBracesSurvive | src/agents/instructions.rs:10-11 | JSON without such names in braces comes back unchanged, whatever the state holds |
| Instructions.NamesAreReplaced | src/agents/instructions.rs:61-97 | a valid name in braces, wherever it stands and with space around it, is replaced by its value in the state, strings bare; if absent, by nothing if it ends in `?`, and else the template fails with that name |
| Instructions.ArtifactsAreReplaced | src/agents/instructions.rs:65-85 | an artifact reference is replaced by the content; absent it fails unless it ends in `?`; a load error and a missing service fail either way |
| StreamFold.Accumulator.MergeStreamChunk | src/agents/llm_agent.rs:811-860 | the in-place merge of a chunk is `Merge` |
| StreamFold.Accumulator.AppendParts | src/agents/llm_agent.rs:817-831 | the loop over a chunk's parts extends the last part or appends |
| StreamFold.AggregateContent | src/agents/llm_agent.rs:811-860 | the aggregate has the first role and the run-merging normal form of all parts of all chunks |
| StreamFold.AggregateFields | src/agents/llm_agent.rs:833-859 | each metadata field is the last one present |
| StreamFold.NormalizeIsNormal | src/agents/llm_agent.rs:817-831 | no two adjacent texts and no two adjacent thoughts remain |
| StreamFold.NormalIsFixed | src/agents/llm_agent.rs:817-831 | parts without joinable neighbours are unchanged |
| StreamFold.NormalizeConserves | src/agents/llm_agent.rs:817-831 | the text, the thoughts and the other parts of a stream are kept, in order |
| StreamFold.ThoughtsBecomeOne | src/agents/llm_agent.rs:821-828 | thoughts that follow one another become one with all their text and the last signature present |
| StreamFold.SplitDelta | src/agents/llm_agent.rs:817-831 | cutting a text or thought delta in two changes nothing |
| StreamFold.CutChunk | src/agents/llm_agent.rs:811-860 | delivering a chunk in two pieces, cut anywhere, changes nothing |
| StreamFold.MergeAssociative | src/agents/llm_agent.rs:811-860 | merging is associative |
| StreamFold.AggregateConcat | src/agents/llm_agent.rs:811-860 | the aggregate of `a ++ b` is the aggregate of `a` merged with that of `b` |
| AgentTree.FindAgentIsFirst | src/agents/base.rs:30-40 | the search returns the first descendant with the name in preorder |
| AgentTree.FindAgentTotal | src/agents/base.rs:30-40 | it finds one exactly if there is one |
| AgentTree.TransferReachesWholeTree | src/agents/llm_agent.rs:742-760 | with unique names the target is the node at the one place of the tree that bears the name, and none exactly for oneself and absent names |
| AgentTree.OwnSubtreeFirst | src/agents/llm_agent.rs:742-760 | the own subtree wins over the rest, names unique or not |
| Attributes.SharedBag.ResumedToolCallIds | src/agents/llm_agent.rs:1046-1063 | auth ids, then the confirmation ids that are not among them |
| Attributes.ResumedInOrder | src/agents/llm_agent.rs:1046-1063 | the auth consents as listed, then the decisions that are not among them, in order |
| Attributes.SharedBag.ConsumeResumedIds | src/agents/llm_agent.rs:1025-1044 | the new bag after consuming, by removal from a list and by swap-removal from an object |
| Attributes.ConsumeConserves | src/agents/llm_agent.rs:1025-1044 | exactly the consumed ids are gone; no decision changes |
| Attributes.LastTakesItsPlace | src/agents/llm_agent.rs:1038-1042 | removing a decision moves the last one into its place and leaves the others where they are |
| Attributes.OthersKeepTheirPlace | src/agents/llm_agent.rs:1032-1036 | the auth ids that are not consumed keep their order |
| Dispatch.GateHolds | src/agents/llm_agent.rs:1131-1222 | a tool that needs confirmation runs only for a call whose recorded decision is an approval; a call without a decision becomes pending, and only such a call |
| Dispatch.ApprovalCoversArgumentsIff | src/agents/llm_agent.rs:1137-1203 | an approval also covers the arguments that `before_tool` returns, in every bag, if and only if the model's arguments needed one or nothing that needs one is run |
| Dispatch.ReplayResumedToolCalls | src/agents/llm_agent.rs:949-1020 | the replay loop does what `ReplayAll` says, of which `ReplayAnswersItsCalls` says the outcome; it consumes what it dispatched, and nothing after an error |
| Dispatch.ReplayConsumesOwned | src/agents/llm_agent.rs:963-1017 | an error-free replay dispatches, in order, exactly the ids of calls that the agent authored and still has the tool for |
| Dispatch.FindCallHasId | src/agents/llm_agent.rs:964-975 | the call that is replayed has the id and comes from an event of this agent |
| Dispatch.FirstWithIdIsFirst | src/agents/llm_agent.rs:967-972 | of an event's calls the first with the id is meant, and there is none exactly if no call has it |
| Dispatch.AtMostOnceIffNoDuplicates | src/agents/llm_agent.rs:1046-1063 | each id is dispatched at most once in a replay, also in one that ends with a failed dispatch, if and only if no owned id is listed twice among those it comes to, which without an error are all |
| Dispatch.NeverTwiceIffNoDuplicates | src/agents/llm_agent.rs:1046-1063 | whatever tools do no id is dispatched twice in a replay if and only if no owned id is listed twice |
| Dispatch.DuplicatedAuthIdIsDispatchedTwice | src/agents/llm_agent.rs:1046-1063 | an auth id that is listed twice is dispatched twice by one replay, whether or not the second dispatch fails |
| Dispatch.ReplayRunsApproved | src/agents/llm_agent.rs:949-1020 | every gated tool that a replay runs was approved |
| ToolOutcomes.DecisionIsRecorded | src/agents/llm_agent.rs:1106-1116 | the decision for a call is the one recorded under its id; a call without an id has none |
| ToolOutcomes.CallIsAnswered | src/agents/llm_agent.rs:1118-1223 | every outcome of a call: the result as `after_tool` leaves it, the recovery, the error value, the short circuit, the rejection, the request for confirmation, the consent request, the misconfiguration, and each error; the tool runs exactly if nothing holds the call, with the arguments of `before_tool` |
| ToolOutcomes.CallsAreGathered | src/agents/llm_agent.rs:468-554 | one response per call with that value, or that the agent to transfer to is unknown; the calls that wait are those whose tool or gate says so; flags are set if some call sets them, the last writer of a key counts, the last request that resolves is the transfer; the first failure ends the turn |
| ToolOutcomes.TurnAnswersItsCalls | src/agents/llm_agent.rs:464-620 | every turn whose answer has calls, told from its tools: the two events in session and stream, the next request, and the end as the tools ask |
| ToolOutcomes.ReplayAnswersItsCalls | src/agents/llm_agent.rs:949-1020 | of the unblocked ids exactly the agent's own are dispatched, in order, and each is answered with what its tool returned; a failed dispatch ends the replay with its error |
| ReplayProtocol.EveryInterleavingKeeps | src/agents/llm_agent.rs:949-1063 | the invariant of replays and model calls that share one bag, under every interleaving; ownership is the lookup in log and tools as each replay finds them |
| ReplayProtocol.AtMostOnce | src/agents/llm_agent.rs:949-1063 | if replays start carefully no id is dispatched twice; ids before are ids consumed plus ids left, and what was dispatched but not consumed belongs to replays that failed |
| ReplayProtocol.AuthorDispatchesAll | src/agents/llm_agent.rs:963-1018 | a replay that ends has dispatched and consumed all unblocked ids it owned at its start |
| ReplayProtocol.AtMostOnceIffCareful | src/agents/llm_agent.rs:959-1018 | in every interleaving that ends without a failed dispatch, no id is dispatched twice if and only if no replay starts that owns an unblocked id already dispatched or owned by a replay in progress |
| ReplayProtocol.DistinctNamesAreCareful | src/agents/llm_agent.rs:963-972 | replays start carefully if no two agents of one name replay at once, each call id has one author and no replay has failed |
| ReplayProtocol.SoloReplayIsTheCode | src/agents/llm_agent.rs:949-1020 | a replay that nothing interrupts dispatches, runs and consumes what `ReplayAll` says, and leaves the bag as it is after an error |
| ReplayProtocol.InterleavedGatesHold | src/agents/llm_agent.rs:1137-1160 | when agents run side by side on one bag, every gated execution was approved at the start, under every interleaving |
| ReplayProtocol.InterleavedApprovalsAreSpentOnce | src/agents/llm_agent.rs:997-1001 | if moreover replays start carefully and new call ids are fresh, no approval is spent twice |
| ReplayProtocol.OverlappingNamesakesRepeat | src/agents/llm_agent.rs:964-975 | for every agent and every bag with an unblocked id of its own, two overlapping replays under its name can dispatch an id twice |
| CodeExec.ExecuteAll | src/agents/llm_agent.rs:341-404 | the retry loop gives one result per code part, in order, and counts the attempts |
| CodeExec.FirstSuccessWins | src/agents/llm_agent.rs:346-403 | a result is that of the first successful attempt, else a failure with the last error, within `max(1, retries)` attempts |
| CodeExec.EachCodePartOnce | src/agents/llm_agent.rs:1065-1078 | every code part, and no other, gives one piece of code, in its place, its language in lower case |
| Genai.EachCallOnce | src/core/event.rs:147-158 | every call part of an event, and no other, is one of its calls, in its place |
| Genai.EachTextOnce | src/agents/llm_agent.rs:775-788 | every text part, and no other, is in the text of the final answer, in its place and without a separator |
| LlmRun.AgentRun.Run | src/agents/llm_agent.rs:154-647 | the run leaves the contents, bag, budget, session and stream that `LlmAgent.Run` says, for every world |
| LlmRun.AgentRun.RunTurns | src/agents/llm_agent.rs:226-645 | the loop, and what follows when its budget is used up |
| LlmRun.AgentRun.RunTurn | src/agents/llm_agent.rs:226-338 | one iteration: cancellation, budget, model, ids, session |
| LlmRun.AgentRun.ModelTurn | src/agents/llm_agent.rs:240-318 | the model call with its callbacks |
| LlmRun.AgentRun.Drain | src/agents/llm_agent.rs:260-291 | draining a stream yields one partial event per chunk with content and returns the aggregate |
| LlmRun.AgentRun.EnsureFunctionCallIds | src/agents/llm_agent.rs:867-878 | every call without an id gets one, in place, and nothing else changes |
| LlmRun.AgentRun.DispatchCalls | src/agents/llm_agent.rs:468-554 | the loop over a turn's calls gathers what `CallsAreGathered` says |
| LlmRun.AgentRun.RunToolTurn | src/agents/llm_agent.rs:464-620 | a tool turn does what `ToolTurn` says: transfer before escalation before pause before skipped summary, else the next request (`TurnAnswersItsCalls`); the bag is marked as paused with the trace |
| LlmRun.AgentRun.RunReplay | src/agents/llm_agent.rs:196-224 | the replay before the first turn |
| LlmRun.AgentRun.EmitFinal | src/agents/llm_agent.rs:428-443 | the final event, stamped under the output key in stream and session alike |
| LlmRun.Session.ReplaceById | src/agents/llm_agent.rs:434-440 | the last session event with the id is overwritten |
| RunSteps.TurnsAnswer | src/agents/llm_agent.rs:240-319 | the answer of a turn: whole or folded, an error as `on_model_error` recovers it, and every answer through `after_model` |
| RunSteps.ChunksAreSurfaced | src/agents/llm_agent.rs:271-284 | exactly the chunks with parts are handed out, in order, each as it came and marked as partial |
| RunSteps.AnswerIsRecorded | src/agents/llm_agent.rs:320-334 | the event of the answer is complete and the agent's, and differs from the answer only in the ids of calls that had none |
| RunSteps.TurnRunsItsCode | src/agents/llm_agent.rs:341-426 | a turn with code and no calls goes on with one result per piece of code, in the session, the stream and the request: that of the first attempt that gets through, or the last error |
| RunSteps.FinalTurn | src/agents/llm_agent.rs:428-463 | any other turn ends the run: the text is stored under the output key, parsed if asked for and possible, and `after_agent` has the last word |
| RunSteps.CutOff | src/agents/llm_agent.rs:227-237 | a turn that is cancelled, over the budget or fails in the model leaves nothing but the notice, or the error |
| RunSteps.BeforeTheRun | src/agents/llm_agent.rs:158-176 | `before_agent` may fail the run or answer in its stead, in session and stream, before anything is replayed or asked |
| RunSteps.IterationsUsedUp | src/agents/llm_agent.rs:623-645 | when the iterations are used up the stream gets a notice that the session does not |
| RunSteps.RunBeginsWithReplay | src/agents/llm_agent.rs:176-224 | every run that `before_agent` lets begin answers what the user has unblocked first, in one event for session, stream and request; its first request is the history, the user's content once and the deferred instructions; the bag loses exactly what was dispatched |
| RunEndings.RunEndsAsAsked | src/agents/llm_agent.rs:578-610 | for every run: the invocation is paused exactly if it was or the run returns after an event that lists waiting calls; it hands over exactly to whom its last event names; it goes on or fails only after an event that asks for nothing |
| LlmLog.LogAndStreamAgree | src/agents/llm_agent.rs:157-645 | at every yield point the session is the initial one plus the events yielded so far, but for partial events, the escalation marker and MAX_ITERATIONS |
| LlmLog.CallsAreAnswered | src/agents/llm_agent.rs:320-336 | in the session of every run each model event with calls is followed by one response per call, in order, with equal ids, none missing; only a failed run may lack the last |
| LlmLog.GatherAnswers | src/agents/llm_agent.rs:484-554 | names are equal too unless a call waits, and exactly the waiting calls are listed |
| LlmLog.ContinuingExtendsTheRequest | src/agents/llm_agent.rs:405-425 | the loop goes on only with the request extended by the two contents that the session was extended by; if the first has calls, the second is one final response per call, in order, with equal ids and names |
| LlmLog.PausedCallsCanResume | src/agents/llm_agent.rs:320-326 | every call that a run pauses on can be found in the session that the runner keeps by a later replay of the agent, whatever is appended meanwhile, and is the one that paused if its id was new |
| LlmLog.UnblockedCallIsReplayed | src/agents/llm_agent.rs:595-604 | once unblocked, a call with that id is dispatched and consumed by the replay of the agent's next run; it is the very call that paused if its id was new |
| LlmLog.RunStaysInBudget | src/core/context.rs:94-105 | at most one model call per iteration, and never past the shared cap |
| Hosting.RecordedMirrors | src/runner/runner.rs:342-358 | an event that the agent has put in the session keeps its place: the runner takes it out and appends it, or leaves it if its author is called "user" |
| Hosting.SilentMirrors | src/runner/runner.rs:340-358 | partial events are not stored; markers are appended unless their author is called "user" |
| Hosting.WithoutTempKeeps | src/core/state.rs:153-162 | only keys with the prefix `temp:` are left out, and nothing else of an event changes |
| Hosting.AllStoredIff | src/runner/runner.rs:340 | a session holds every event of a stream, without temporary state, if and only if no author called "user" has yielded a marker or temporary state |
| LlmStreaming.StreamedRunRefinesWholeRun | src/agents/llm_agent.rs:247-295 | if chunks add up to whole answers or both fail alike, a streamed run without its partial events is the whole run: same trace, session, bag, requests and end |
| LlmStreaming.SameAnswer | src/agents/llm_agent.rs:240-318 | asked either way, with the callbacks, a turn has the same answer |
| LlmGates.ApprovalsAreSpentOnce | src/agents/llm_agent.rs:484-498 | every gated execution of a run was approved when it started; if neither the auth ids nor the model repeat an id, gated executions map injectively into these approvals |
| LlmGates.RunAccounts | src/agents/llm_agent.rs:949-1044 | a run only takes ids and approvals away; a gated call it executed is one the model made in it or is unblocked no longer |
| LlmInvocation.InvocationSpendsApprovalsOnce | src/agents/llm_agent.rs:997-1001 | the same over a whole invocation, for any agents in any order on one bag and session: with fresh call ids no approval is spent twice |
| LlmInvocation.InvocationKeepsItsSession | src/runner/runner.rs:334-358 | over a whole invocation under a runner, with new marker ids, the session at every yield point is the initial one plus what the events yielded so far leave to be stored, in order and nothing twice; calls are answered |
| LlmInvocation.InvocationIsStoredWhole | src/runner/runner.rs:334-358 | if no agent is called "user" these are all events that are not partial, markers included, without temporary state |
| LlmInvocation.StoredWholeIffNotCalledUser | src/runner/runner.rs:340 | all that the runs of agents with a name yield is stored, whatever they meet, if and only if the name is not "user" |
| LlmGates.GatherRuns | src/agents/llm_agent.rs:484-498 | a turn executes only calls that the model made in it, each at most once |
| Transfer.Run | src/agents/llm_agent.rs:226-237 | with a cap every run over a tree of LLM, sequential and loop agents ends, within the cap, with no more transfers than model calls |
| Transfer.Invocation.RunAgent | src/agents/loop_agent.rs:58-87 | the loops of all three kinds of agent, calling each other, do what `Run` says |
| Transfer.Invocation.RunLlmAgent | src/agents/llm_agent.rs:579-606 | the same for the LLM loop with its transfers |
| Transfer.Invocation.CheckAndIncLlmCall | src/core/context.rs:94-105 | the budget check |
| Transfer.LastRequestWins | src/agents/llm_agent.rs:514-531 | a turn hands over exactly if some request resolves, and then to the agent that the last of those names |
| Transfer.RunExplained | src/agents/llm_agent.rs:579-606 | over the whole tree, what ends a run is what its last turn asked for: no model is called after an escalation, a pause or an error |
| Transfer.PingPongUsesBudget | src/agents/llm_agent.rs:579-586 | for every cap two agents that hand over to each other use all of it: only the cap ends the chain |
| Workflow.Invocation.RunSequential | src/agents/sequential_agent.rs:98-135 | the stepping loop with checkpoints and early returns does what `Run` says, of which `RunComesOutAsItsLeaves` says the outcome |
| Workflow.Invocation.RunLoop | src/agents/loop_agent.rs:58-87 | the nested loops with their exits do what `Run` says |
| WorkflowLaws.TreeIsItsLeaves | src/agents/sequential_agent.rs:109-132 | without resumability a tree behaves as the list of its leaves, under every pause, escalation, error and cancellation |
| WorkflowLaws.SameLeavesSameRun | src/agents/sequential_agent.rs:109-132 | trees with the same leaves cannot be told apart |
| WorkflowLaws.SequenceAssociative | src/agents/sequential_agent.rs:109-132 | nesting of sequences is associative |
| WorkflowLaws.LoopIsRepeatedSequence | src/agents/loop_agent.rs:61-84 | a loop is its children repeated in a sequence |
| WorkflowLaws.EscalationEndsTheRun | src/agents/loop_agent.rs:61-84 | a run ends as escalated with its first escalating event, and so does everything around it |
| WorkflowLaws.ForwardCuts | src/agents/sequential_agent.rs:115-125 | a stream is forwarded up to and including its first escalating event |
| LeafOutcomes.RunComesOutAsItsLeaves | src/agents/sequential_agent.rs:109-132 | for every tree, resumable or not, from the leaves' streams alone: all but the last leaf finish; the run fails, escalates or pauses exactly if the last one fails, escalates or waits; exactly those that finish count as finished; none starts after a cancellation |
| LeafOutcomes.NothingIsSkipped | src/agents/loop_agent.rs:61-84 | a run that is not cut short has started and finished every leaf, as often as the loops say |
| LeafOutcomes.ErrorEndsTheSequence | src/agents/sequential_agent.rs:113-115 | an error of the first step ends a sequence, with nothing finished and the second step not started |
| Resume.RunAdvances | src/agents/sequential_agent.rs:98-135 | a run works off exactly what the checkpoints left, up to the first pause, and leaves consistent checkpoints, for sequences and for loops that run one child once |
| Resume.ResumeDiscipline | src/agents/sequential_agent.rs:35-57 | over any number of pause and resume rounds, finished and remaining leaves together are the declared leaves in order |
| Resume.FreshInvocation | src/agents/sequential_agent.rs:98-135 | from a fresh invocation every leaf has finished exactly once, in order, when no pause is left |
| Resume.ResumeEntersPausedLeaf | src/agents/sequential_agent.rs:98-114 | a resume first starts the leaf that paused and starts no finished leaf again |
| Resume.CheckpointIsLatest | src/agents/sequential_agent.rs:35-57 | a sequence reads back the checkpoint it wrote last |
| Workflow.CheckpointSays | src/agents/sequential_agent.rs:51-57 | a checkpoint is an event of the sequence in its invocation with the count under its key, and says nothing |
| ResumeUnderLoops.ResumabilityIsHarmlessIffLoopSafe | src/agents/sequential_agent.rs:104-109 | a fresh uninterrupted run starts every leaf as declared if and only if no repeating loop encloses a sequence that writes checkpoints |
| ResumeUnderLoops.LoopedPipelineSkips | src/agents/sequential_agent.rs:104-109 | two iterations of a pipeline of two start fewer than four leaves |
| Reruns.NeverRunsAgainIffOnePass | docs/content/cancellation-and-resume.ts:99 | in every calm environment and over any rounds of pausing and resuming no finished leaf is run again, if and only if every loop of the tree runs one child once |
| Reruns.LoopedStepRunsAgain | src/agents/loop_agent.rs:61-84 | after a pause in the second step of a loop the first step runs again |
| Parallel.StepKeepsMerged | src/agents/parallel_agent.rs:64-98 | every step of tasks and consumer keeps each child's stream intact |
| Parallel.EveryScheduleMerges | src/agents/parallel_agent.rs:55-101 | under every schedule delivered, buffered and unsent items of a child are its stream |
| Parallel.DeliveredAsSent | src/agents/parallel_agent.rs:64-85 | under every schedule the k-th item delivered of a child is its k-th item, unchanged but for the branch of an event that had none |
| Parallel.NeverStuck | src/agents/parallel_agent.rs:64-98 | while the consumer runs some step is possible |
| Parallel.EveryScheduleEnds | src/agents/parallel_agent.rs:55-101 | every schedule is bounded by the work there is |
| Parallel.RunsAhead | src/agents/parallel_agent.rs:56 | a child can run 64 items ahead of the consumer, and none can run further |
| Parallel.CancelStopsDelivery | src/agents/parallel_agent.rs:92-96 | after a cancellation nothing more is delivered, under every schedule |
| Parallel.EndsForAReason | src/agents/parallel_agent.rs:89-98 | under every schedule the merged stream fails only with an error of a child's, and stops early only if cancelled |
| Parallel.AllDeliveredIffNoFailure | src/agents/parallel_agent.rs:89-98 | a schedule that is over and not cancelled has delivered everything, of every child, if and only if no child fails |
| Parallel.FailureCanSilenceSiblings | src/agents/parallel_agent.rs:97 | if a child fails there is a schedule, over and not cancelled, in which nothing of its siblings arrives |
| Parallel.HealthySiblingsKeepStreamingIff | docs/content/workflow-agents.ts:62 | healthy children are sure to deliver their whole streams, under every schedule, if and only if no child fails or no healthy child has anything to say |
| Parallel.BranchIdentifiesChild | src/agents/parallel_agent.rs:66-84 | a filled-in branch names one child |
| Mapping.RoundTripIdentity | src/a2a/mapping.rs:64-158 | a part comes back as it was exactly if it is neither a thought nor a redacted thought |
| Mapping.RoundTripIdempotent | src/a2a/mapping.rs:64-158 | a second round trip changes nothing |
| Mapping.ContentRoundTrip | src/a2a/mapping.rs:23-62 | contents keep their parts in order, and whether they are the user's |
| Mapping.WireForms | src/a2a/mapping.rs:64-104 | the wire form of each kind of part; what has no counterpart is data under a key of its own |
| Mapping.MessageCarriesIds | src/a2a/mapping.rs:23-43 | exactly the events with parts become messages, the user's exactly if their content is, with both ids |
| TaskService.InMemoryTaskService.CreateTask | src/a2a/task_service.rs:167-176 | the task is stored as given |
| TaskService.InMemoryTaskService.GetTask | src/a2a/task_service.rs:178-191 | the stored task, with the last `n` entries of its history if so many are asked for, and all if there are fewer |
| TaskService.InMemoryTaskService.UpdateStatus | src/a2a/task_service.rs:193-219 | the status is replaced and broadcast; unknown ids change nothing |
| TaskService.InMemoryTaskService.AppendHistory | src/a2a/task_service.rs:221-228 | one message more |
| TaskService.InMemoryTaskService.AppendArtifact | src/a2a/task_service.rs:230-274 | the artifact list after the chunk, and what is broadcast |
| TaskService.InMemoryTaskService.Subscribe | src/a2a/task_service.rs:276-293 | a subscription exists exactly for known tasks that have not ended, and starts with the next update |
| TaskService.InMemoryTaskService.CancelTask | src/a2a/task_service.rs:356-378 | cancelling is refused exactly for tasks that have ended; else the status is replaced and broadcast as final |
| TaskService.PutRepresents | src/a2a/task_service.rs:230-264 | one chunk keeps the list a representation of the chunks so far |
| TaskService.ChunkGoesTo | src/a2a/task_service.rs:241-264 | a chunk that appends changes the parts and the last-chunk mark of its artifact only; any other takes the artifact's place or a new one; other artifacts stay |
| TaskService.StoredRefinesOrderedMap | src/a2a/task_service.rs:230-264 | after any chunks: unique ids in first-seen order, and the parts since the last chunk that was not appended |
| TaskService.StoredRefinesFrom | src/a2a/task_service.rs:230-264 | the same from any list with unique ids |
| TaskService.BroadcastCarriesChunk | src/a2a/task_service.rs:244-272 | a broadcast carries the chunk exactly if it is not appended to a stored artifact |
| TaskService.SecondChunkBroadcastEmpty | src/a2a/task_service.rs:244-272 | of two chunks of one artifact the second is broadcast empty |
| Server.Aggregator.Absorb | src/a2a/server.rs:993-1038 | the operations that an event adds to the queue, and whether text has been seen |
| Server.Aggregator.DrainPending | src/a2a/server.rs:986-988 | the queue is handed over and emptied |
| Server.OpsAccumulate | src/a2a/server.rs:943-1038 | a run's operations add one message per event with content and at most one artifact, whose parts are the non-empty texts in order |
| Server.ArtifactTextIsMessageText | src/a2a/server.rs:993-1038 | the artifact's text is the text of the messages, joined |
| Server.LastTextDecides | src/a2a/server.rs:1017-1036 | the artifact is marked as complete exactly if the last event with text completed its turn |
| Server.ResponseArtifactIs | src/a2a/server.rs:1017-1036 | a run adds an artifact exactly if some event has text; its id, parts, marks and metadata |
| Server.Apply | src/a2a/server.rs:943-972 | an operation changes its own task as specified, and tasks that do not exist not at all |
| Server.ApplyAll | src/a2a/server.rs:407-409 | the operations of a run in order, and the updates they broadcast |
| Server.Drain | src/a2a/server.rs:370-405 | the drain loop queues all operations up to the first error and notes a pause |
| Server.StartTask | src/a2a/server.rs:853-934 | a started task is stored as submitted, with the invocation id; a failed start leaves it working; other tasks are untouched, and the working status is broadcast |
| Server.StartedIs | src/a2a/server.rs:853-900 | the new task is submitted and empty but for the user's message, in the message's context or a new one |
| Server.StatusEndsAs | src/a2a/server.rs:263-280 | the last status of a run: failed with the error's text, asking for input if some event lists a waiting call, else completed; only the second is not terminal |
| A2aTypes.TerminalStates | src/a2a/types.rs:398-407 | exactly four states admit no further transition |
| Server.HandleMessageSend | src/a2a/server.rs:347-428 | the stored and returned task after a run, and after an error, with what is broadcast; its state is the one of `StatusEndsAs` |
| Server.MessageSend | src/a2a/server.rs:347-428 | a whole request, from the user's message to the stored and returned task, which asks for input if some event waits and else is completed |
| Server.HandleMessageStream | src/a2a/server.rs:430-546 | the stored task, whose state is the one of `StatusEndsAs`, and all frames of the response at every pace of run and subscriber |
| Server.RunStreamed | src/a2a/server.rs:480-520 | what the spawned run stores and broadcasts; the stored state is the one of `StatusEndsAs` |
| Subscription.Forward | src/a2a/server.rs:522-538 | the receive loop, with its lagged branch, between the sends of the run |
| Subscription.EveryScheduleIsPlayed | src/a2a/server.rs:478-538 | quantifying over paces covers every schedule of sends and receives |
| Subscription.SchedulesEnd | src/a2a/server.rs:478-538 | every schedule of sends and receives ends, within the work there is |
| Subscription.PlayCloses | src/a2a/server.rs:522-538 | at every pace the response ends with the final status |
| Subscription.ReceivedInOrder | src/a2a/task_service.rs:171-174 | updates arrive in order, none twice, the final one last |
| Subscription.AllArriveIff | src/a2a/task_service.rs:171-174 | all updates arrive at every pace if and only if there are at most as many as the channel has slots, 32 |
| Client.TaskToEvents | src/a2a/client.rs:416-457 | the loops over history and artifacts |
| Client.EachArtifactSpeaks | src/a2a/client.rs:424-456 | every artifact with text gives one event of the model's with just that text, in its place |
| Client.FrameSays | src/a2a/client.rs:474-520 | at most one event per frame: a message that is not the user's, the text of an update, partial until its last chunk, and a task only if it has failed and says why |
| Client.EachTextSaid | src/a2a/client.rs:485-490 | every text part of an update is said, in its place, and nothing else |
| Client.TaskRoundTrip | src/a2a/client.rs:416-468 | the client of a stored run gets the run's events one for one, up to the round trip of parts and the model's role |
| Client.RunRemote | src/a2a/client.rs:387-412 | request, remote run and reading back in one: the proxy agent yields the remote run's events, one for each that speaks |
| Client.OneUpdatePerText | src/a2a/server.rs:1017-1036 | a run sends one artifact update per text, and only the first carries its text |
| Client.StreamSurfacesFirstTextIff | src/a2a/server.rs:522-538 | a streaming client is sure to be given the first text, under every schedule, if and only if the run has at most 31 texts |
| Client.ThirtyTwoTextsMayAllBeLost | src/a2a/server.rs:534 | of a run with 32 texts the client may be given nothing; of one with 31 it is always given the first |
| Client.StreamedTextCompleteIff | src/a2a/client.rs:474-507 | at every pace it has the whole text exactly if at most one event of the run carried text |
| Client.StreamedRun | src/a2a/client.rs:474-530 | all events that a streaming client is given, at every pace: the first text unless its update was overwritten, and the final status's message |

## Left out

- Transfer.Run: unbounded runs (`max_llm_calls` absent) are not modelled, nor in `CheckAndIncLlmCall`; `PingPongUsesBudget` shows that they need not end.
- LlmRun.AgentRun.Run: request building, the history for the request and the lookup of a transfer target are parameters
  (`AgentTree` has the lookup), and the run ends where the agent hands over. `LlmInvocation` goes on with any agent in any order, and `Transfer`
  follows the order that the source takes, with turns as arbitrary outcomes in place of the contents.
- LlmStreaming.StreamedRunRefinesWholeRun: event ids are named by the place in the run and timestamps are dropped, so equality
  here is equality up to fresh ids and times.
- Server.HandleMessageStream: what the run stores is stated when the run has ended, not at each frame; subscribers after the
  first, who have slots of their own, are not modelled.
- LlmInvocation.InvocationSpendsApprovalsOnce: runs follow one another. Agents that run side by side are in `ReplayProtocol`,
  where the calls of their models are single steps.
- LlmInvocation.InvocationKeepsItsSession: changes of the session state by events, and the compaction after an invocation,
  are not modelled.
- Parallel agents inside the trees of `Workflow` and `Transfer`: their merged stream is a property of schedules, not a function.
- Leaves of a workflow tree are told apart by name only; the shared bag and budget of nested LLM agents are part of the
  leaf functions there.
- Changes that callbacks make to the session state and, in `before_model`, to the offered tools; they may rewrite contents
  and answers.
- The order of keys in state and artifact deltas, which are maps here.
- The wording of messages beyond what the code compares, event and message ids, timestamps.
- The store under concurrent callers: its lock makes each method one step, and `message/send` and `message/stream` are
  proved without interference by other requests.
- OAuth, token endpoints and bearer checks: the credential gate is an oracle with the source's four outcomes.
- JSON bytes: payload codecs are an arbitrary pair in which decoding undoes encoding; rendering of state values is a parameter.
- HTTP, SSE framing, routing, push notifications, sessions on disk, compaction of history, providers, the command line, telemetry.
