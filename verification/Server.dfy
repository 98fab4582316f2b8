/**
 * The A2A server's way from agent events to a stored task (src/a2a/server.rs): events are absorbed into pending
 * operations, which are applied to the task store once the event stream has been drained.
 */
module Server {
  import opened Wrappers
  import opened Genai
  import opened A2aTypes
  import opened Mapping
  import opened TaskService
  import opened Subscription

  datatype PendingOp = AppendHistory(message: Message) | AppendArtifact(artifact: Artifact)

  /** The ids an aggregator is created with. */
  datatype Ids = Ids(taskId: string, contextId: string, artifactId: string)

  const TASK_ID_KEY := "taskId"
  const PAUSED_TEXT := "awaiting user input: tool confirmation, credential consent, or a long-running tool result"

  function AgentText(text: string): Message {
    Message(FromAgent, [TextPart(text, None)], None, None)
  }

  predicate PausesInvocation(e: Event) {
    e.longRunningToolIds.Some? && e.longRunningToolIds.value != []
  }

  function FinalTaskStatus(paused: bool): TaskStatus {
    if paused then TaskStatus(InputRequired, Some(AgentText(PAUSED_TEXT))) else TaskStatus(TaskState.Completed, None)
  }

  function FailedStatus(error: string): TaskStatus {
    TaskStatus(TaskState.Failed, Some(AgentText(error)))
  }

  // ---- Absorbing one event -----------------------------------------------------------------------------

  /** The message an event contributes: none for the echo of the user and for events without content. */
  function MessageOf(c: Codec, ids: Ids, e: Event): Option<Message> {
    if e.author == "user" then None else EventToMessage(c, e, ids.contextId, ids.taskId)
  }

  function ArtifactChunk(ids: Ids, text: string, append: bool, lastChunk: bool): Artifact {
    Artifact(ids.artifactId, None, None, [TextPart(text, None)], None, Some(append), Some(lastChunk),
             Some(map[TASK_ID_KEY := String(ids.taskId)]))
  }

  class Aggregator {
    const codec: Codec
    const ids: Ids
    var seenText: bool
    var pending: seq<PendingOp>

    constructor (codec: Codec, ids: Ids)
      ensures this.codec == codec && this.ids == ids && !seenText && pending == []
    {
      this.codec, this.ids := codec, ids;
      seenText, pending := false, [];
    }

    method DrainPending() returns (ops: seq<PendingOp>)
      modifies this`pending
      ensures ops == old(pending) && pending == []
    {
      ops := pending;
      pending := [];
    }

    method Absorb(e: Event)
      modifies this
      ensures pending == old(pending) + OpsOf(codec, ids, e, old(seenText))
      ensures seenText <==> old(seenText) || TextOf(codec, ids, e) != ""
    {
      if e.author == "user" {
        return;
      }
      var msg := EventToMessage(codec, e, ids.contextId, ids.taskId);
      if msg.Some? {
        pending := pending + [PendingOp.AppendHistory(msg.value)];
        var text := WireText(msg.value.parts);
        if text != "" {
          var artifact := ArtifactChunk(ids, text, seenText, e.turnComplete == Some(true));
          seenText := true;
          pending := pending + [PendingOp.AppendArtifact(artifact)];
        }
      }
    }
  }

  /** The text an event contributes to the response artifact. */
  function TextOf(c: Codec, ids: Ids, e: Event): string {
    var m := MessageOf(c, ids, e);
    if m.Some? then WireText(m.value.parts) else ""
  }

  function OpsOf(c: Codec, ids: Ids, e: Event, seenText: bool): seq<PendingOp> {
    var m := MessageOf(c, ids, e);
    if m.None? then []
    else if TextOf(c, ids, e) == "" then [PendingOp.AppendHistory(m.value)]
    else [PendingOp.AppendHistory(m.value),
          PendingOp.AppendArtifact(ArtifactChunk(ids, TextOf(c, ids, e), seenText, e.turnComplete == Some(true)))]
  }

  // ---- What a drained stream comes to ------------------------------------------------------------------

  function Messages(c: Codec, ids: Ids, events: seq<Event>): seq<Message> {
    if events == [] then []
    else
      var last := MessageOf(c, ids, events[|events| - 1]);
      Messages(c, ids, events[..|events| - 1]) + (if last.Some? then [last.value] else [])
  }

  /** The non-empty texts, each as a part, in order. */
  function TextParts(c: Codec, ids: Ids, events: seq<Event>): seq<WirePart> {
    if events == [] then []
    else
      var last := TextOf(c, ids, events[|events| - 1]);
      TextParts(c, ids, events[..|events| - 1]) + (if last != "" then [TextPart(last, None)] else [])
  }

  /** Whether the last event with text completed its turn. */
  function LastTextCompletes(c: Codec, ids: Ids, events: seq<Event>): bool {
    if events == [] then false
    else
      var last := events[|events| - 1];
      if TextOf(c, ids, last) != "" then last.turnComplete == Some(true)
      else LastTextCompletes(c, ids, events[..|events| - 1])
  }

  /** The one artifact that a run adds, if it produced any text. */
  function ResponseArtifact(c: Codec, ids: Ids, events: seq<Event>): seq<Artifact> {
    var parts := TextParts(c, ids, events);
    if parts == [] then []
    else [ArtifactChunk(ids, "", false, LastTextCompletes(c, ids, events)).(parts := parts)]
  }

  /** The response artifact, field by field. */
  lemma ResponseArtifactIs(c: Codec, ids: Ids, events: seq<Event>)
    ensures ResponseArtifact(c, ids, events) == [] <==> TextParts(c, ids, events) == []
    ensures forall a | a in ResponseArtifact(c, ids, events) ::
              && ResponseArtifact(c, ids, events) == [a]
              && a.artifactId == ids.artifactId && a.name == a.description == None && a.index == None
              && a.parts == TextParts(c, ids, events)
              && a.append == Some(false) && a.lastChunk == Some(LastTextCompletes(c, ids, events))
              && a.metadata == Some(map["taskId" := String(ids.taskId)])
  {
  }

  /** The artifact is complete exactly if the last event with text completed its turn. */
  lemma {:induction false} LastTextDecides(c: Codec, ids: Ids, events: seq<Event>)
    ensures LastTextCompletes(c, ids, events) <==>
            exists i :: IsLastText(c, ids, events, i) && events[i].turnComplete == Some(true)
    decreases events
  {
    hide TextOf;
    if events != [] {
      var n := |events| - 1;
      LastTextDecides(c, ids, events[..n]);
      if TextOf(c, ids, events[n]) != "" {
        assert IsLastText(c, ids, events, n);
      } else {
        forall i ensures IsLastText(c, ids, events, i) <==> IsLastText(c, ids, events[..n], i) {
          assert forall j | 0 <= j < n :: events[..n][j] == events[j];
        }
      }
    }
  }

  ghost predicate IsLastText(c: Codec, ids: Ids, events: seq<Event>, i: int) {
    && 0 <= i < |events| && TextOf(c, ids, events[i]) != ""
    && forall j | i < j < |events| :: TextOf(c, ids, events[j]) == ""
  }

  predicate Paused(events: seq<Event>) {
    exists i :: 0 <= i < |events| && PausesInvocation(events[i])
  }

  /** The task after the run's events: history and artifacts as the protocol promises them. */
  function Accumulated(c: Codec, ids: Ids, task: Task, events: seq<Event>): Task {
    task.(history := task.history + Messages(c, ids, events),
          artifacts := task.artifacts + ResponseArtifact(c, ids, events))
  }

  // ---- Pending operations, one after another -----------------------------------------------------------

  function ApplyOp(task: Task, op: PendingOp): Task {
    match op
    case AppendHistory(m) => task.(history := task.history + [m])
    case AppendArtifact(a) => task.(artifacts := Put(task.artifacts, a))
  }

  function ApplyOps(task: Task, ops: seq<PendingOp>): Task {
    if ops == [] then task else ApplyOp(ApplyOps(task, ops[..|ops| - 1]), ops[|ops| - 1])
  }

  /** All operations of a run, in order. */
  function OpsOfAll(c: Codec, ids: Ids, events: seq<Event>): seq<PendingOp> {
    if events == [] then []
    else
      var before := events[..|events| - 1];
      OpsOfAll(c, ids, before) + OpsOf(c, ids, events[|events| - 1], TextParts(c, ids, before) != [])
  }

  lemma {:induction false} ApplyOpsConcat(task: Task, xs: seq<PendingOp>, ys: seq<PendingOp>)
    ensures ApplyOps(task, xs + ys) == ApplyOps(ApplyOps(task, xs), ys)
    decreases ys
  {
    if ys == [] {
      assert xs + ys == xs;
    } else {
      assert (xs + ys)[..|xs + ys| - 1] == xs + ys[..|ys| - 1];
      ApplyOpsConcat(task, xs, ys[..|ys| - 1]);
    }
  }

  /** The id of the response artifact is new to the task. */
  ghost predicate NewId(artifacts: seq<Artifact>, id: string) {
    forall a | a in artifacts :: a.artifactId != id
  }

  /** The response artifact grows by one chunk. */
  lemma NextResponse(c: Codec, ids: Ids, events: seq<Event>, e: Event)
    requires TextOf(c, ids, e) != ""
    ensures var response, next := ResponseArtifact(c, ids, events), ResponseArtifact(c, ids, events + [e]);
            var chunk := ChunkOf(c, ids, events, e);
            if response == [] then next == [chunk]
            else |response| == 1 && Appends(chunk) && next ==
                 [response[0].(parts := response[0].parts + chunk.parts, lastChunk := chunk.lastChunk)]
  {
    var all := events + [e];
    assert all[..|all| - 1] == events && all[|all| - 1] == e;
    hide TextOf;
    assert TextParts(c, ids, all) == TextParts(c, ids, events) + [TextPart(TextOf(c, ids, e), None)];
    assert LastTextCompletes(c, ids, all) <==> e.turnComplete == Some(true);
    if TextParts(c, ids, events) == [] {
      assert TextParts(c, ids, all) == [TextPart(TextOf(c, ids, e), None)];
    }
  }

  function ChunkOf(c: Codec, ids: Ids, events: seq<Event>, e: Event): Artifact {
    ArtifactChunk(ids, TextOf(c, ids, e), TextParts(c, ids, events) != [], e.turnComplete == Some(true))
  }

  /** Putting a chunk of a new artifact, or extending the last one. */
  lemma PutNew(before: seq<Artifact>, chunk: Artifact)
    requires NewId(before, chunk.artifactId)
    ensures Put(before + [], chunk) == before + [chunk]
    ensures forall last: Artifact | last.artifactId == chunk.artifactId && Appends(chunk) && chunk.lastChunk.Some? ::
              Put(before + [last], chunk) ==
              before + [last.(parts := last.parts + chunk.parts, lastChunk := chunk.lastChunk)]
  {
    assert before + [] == before;
    PositionOfNew(before, [], chunk.artifactId);
    forall last: Artifact | last.artifactId == chunk.artifactId && Appends(chunk) && chunk.lastChunk.Some?
      ensures Put(before + [last], chunk) ==
              before + [last.(parts := last.parts + chunk.parts, lastChunk := chunk.lastChunk)]
    {
      PositionOfNew(before, [last], chunk.artifactId);
      hide Position;
    }
  }

  lemma PositionOfNew(xs: seq<Artifact>, ys: seq<Artifact>, id: string)
    requires NewId(xs, id)
    requires ys == [] || ys[0].artifactId == id
    ensures Position(xs + ys, id) == |xs|
  {
    var k := Position(xs + ys, id);
    hide Position;
    assert forall i | 0 <= i < |xs| :: (xs + ys)[i] == xs[i];
    assert forall i | 0 <= i < |xs| :: xs[i] in xs;
    assert ys != [] ==> (xs + ys)[|xs|] == ys[0];
  }

  /** Storing the next chunk of the response extends the response artifact, or starts it. */
  lemma NextChunk(c: Codec, ids: Ids, before: seq<Artifact>, events: seq<Event>, e: Event)
    requires NewId(before, ids.artifactId)
    requires TextOf(c, ids, e) != ""
    ensures Put(before + ResponseArtifact(c, ids, events), ChunkOf(c, ids, events, e)) ==
            before + ResponseArtifact(c, ids, events + [e])
  {
    NextResponse(c, ids, events, e);
    PutNew(before, ChunkOf(c, ids, events, e));
    hide Put;
    hide TextOf;
    hide TextParts;
    hide LastTextCompletes;
    var response := ResponseArtifact(c, ids, events);
    assert response != [] ==> response == [response[0]];
  }

  /** Applying a run's operations adds one message per event with content and at most one artifact. */
  lemma {:induction false} OpsAccumulate(c: Codec, ids: Ids, task: Task, events: seq<Event>)
    requires NewId(task.artifacts, ids.artifactId)
    ensures ApplyOps(task, OpsOfAll(c, ids, events)) == Accumulated(c, ids, task, events)
    decreases events
  {
    if events == [] {
      assert task.history + [] == task.history && task.artifacts + [] == task.artifacts;
    } else {
      var before, e := events[..|events| - 1], events[|events| - 1];
      assert before + [e] == events;
      OpsAccumulate(c, ids, task, before);
      var ops := OpsOf(c, ids, e, TextParts(c, ids, before) != []);
      ApplyOpsConcat(task, OpsOfAll(c, ids, before), ops);
      EventAccumulates(c, ids, task, before, e);
    }
  }

  lemma EventAccumulates(c: Codec, ids: Ids, task: Task, events: seq<Event>, e: Event)
    requires NewId(task.artifacts, ids.artifactId)
    ensures ApplyOps(Accumulated(c, ids, task, events), OpsOf(c, ids, e, TextParts(c, ids, events) != [])) ==
            Accumulated(c, ids, task, events + [e])
  {
    var all := events + [e];
    assert all[..|all| - 1] == events && all[|all| - 1] == e;
    var t := Accumulated(c, ids, task, events);
    var m := MessageOf(c, ids, e);
    if m.None? {
      NoTextNoChange(c, ids, events, e);
      assert t.history + [] == t.history;
      assert Messages(c, ids, events) + [] == Messages(c, ids, events);
    } else {
      NextMessage(c, ids, task, events, e);
      ApplyOne(t, PendingOp.AppendHistory(m.value));
      if TextOf(c, ids, e) != "" {
        NextChunk(c, ids, task.artifacts, events, e);
        ApplyTwo(t, PendingOp.AppendHistory(m.value), PendingOp.AppendArtifact(ChunkOf(c, ids, events, e)));
      } else {
        NoTextNoChange(c, ids, events, e);
      }
    }
  }

  lemma NoTextNoChange(c: Codec, ids: Ids, events: seq<Event>, e: Event)
    requires TextOf(c, ids, e) == ""
    ensures ResponseArtifact(c, ids, events + [e]) == ResponseArtifact(c, ids, events)
  {
    var all := events + [e];
    assert all[..|all| - 1] == events && all[|all| - 1] == e;
    assert TextParts(c, ids, events) + [] == TextParts(c, ids, events);
  }

  lemma NextMessage(c: Codec, ids: Ids, task: Task, events: seq<Event>, e: Event)
    requires MessageOf(c, ids, e).Some?
    ensures task.history + Messages(c, ids, events + [e]) ==
            task.history + Messages(c, ids, events) + [MessageOf(c, ids, e).value]
  {
    var all := events + [e];
    assert all[..|all| - 1] == events && all[|all| - 1] == e;
  }

  lemma ApplyOne(t: Task, op: PendingOp)
    ensures ApplyOps(t, [op]) == ApplyOp(t, op)
  {
    assert [op][..0] == [];
  }

  lemma ApplyTwo(t: Task, op: PendingOp, next: PendingOp)
    ensures ApplyOps(t, [op, next]) == ApplyOp(ApplyOp(t, op), next)
  {
    assert [op, next][..1] == [op];
    ApplyOne(t, op);
  }

  function MessagesText(ms: seq<Message>): string {
    if ms == [] then "" else MessagesText(ms[..|ms| - 1]) + WireText(ms[|ms| - 1].parts)
  }

  /** The text of the response artifact is the text of the messages, joined. */
  lemma {:induction false} ArtifactTextIsMessageText(c: Codec, ids: Ids, events: seq<Event>)
    ensures WireText(TextParts(c, ids, events)) == MessagesText(Messages(c, ids, events))
    decreases events
  {
    if events != [] {
      var before, e := events[..|events| - 1], events[|events| - 1];
      ArtifactTextIsMessageText(c, ids, before);
      var m, text := MessageOf(c, ids, e), TextOf(c, ids, e);
      hide MessageOf;
      if m.None? {
        assert Messages(c, ids, events) == Messages(c, ids, before) + [] == Messages(c, ids, before);
      } else {
        MessagesTextSnoc(Messages(c, ids, before), m.value);
      }
      if text == "" {
        assert TextParts(c, ids, events) == TextParts(c, ids, before) + [] == TextParts(c, ids, before);
        assert m.Some? ==> MessagesText(Messages(c, ids, before)) + "" == MessagesText(Messages(c, ids, before));
      } else {
        WireTextSnoc(TextParts(c, ids, before), text);
      }
    }
  }

  lemma MessagesTextSnoc(ms: seq<Message>, m: Message)
    ensures MessagesText(ms + [m]) == MessagesText(ms) + WireText(m.parts)
  {
    assert (ms + [m])[..|ms|] == ms;
  }

  lemma WireTextSnoc(parts: seq<WirePart>, text: string)
    ensures WireText(parts + [TextPart(text, None)]) == WireText(parts) + text
  {
    WireTextConcat(parts, [TextPart(text, None)]);
    assert [TextPart(text, None)][1..] == [];
    assert WireText([TextPart(text, None)]) == text + "" == text;
  }

  // ---- Applying the operations to the store ------------------------------------------------------------

  /** The task an operation goes to: messages and artifact chunks carry its id. */
  function TargetOf(op: PendingOp): Option<string> {
    match op
    case AppendHistory(m) => Some(if m.taskId.Some? then m.taskId.value else "")
    case AppendArtifact(a) =>
      if a.metadata.Some? && TASK_ID_KEY in a.metadata.value && a.metadata.value[TASK_ID_KEY].String?
      then Some(a.metadata.value[TASK_ID_KEY].s) else None
  }

  /** What subscribers are told when an operation is applied: nothing for a message. */
  function UpdatesOf(task: Task, op: PendingOp): seq<TaskUpdate> {
    match op
    case AppendHistory(_) => []
    case AppendArtifact(a) => [ArtifactUpdate(task.id, task.contextId, Leftover(task.artifacts, a))]
  }

  function UpdatesOfAll(task: Task, ops: seq<PendingOp>): seq<TaskUpdate> {
    if ops == [] then []
    else
      var before := ops[..|ops| - 1];
      UpdatesOfAll(task, before) + UpdatesOf(ApplyOps(task, before), ops[|ops| - 1])
  }

  method Apply(svc: InMemoryTaskService, op: PendingOp)
    modifies svc
    ensures TargetOf(op).Some? && TargetOf(op).value in old(svc.tasks) ==>
              var id := TargetOf(op).value;
              && svc.tasks == old(svc.tasks)[id := ApplyOp(old(svc.tasks)[id], op)]
              && svc.Sent(id) == old(svc.Sent(id)) + UpdatesOf(old(svc.tasks)[id], op)
    ensures !(TargetOf(op).Some? && TargetOf(op).value in old(svc.tasks)) ==> svc.tasks == old(svc.tasks)
  {
    match op {
      case AppendHistory(message) =>
        var taskId := if message.taskId.Some? then message.taskId.value else "";
        var _ := svc.AppendHistory(taskId, message);
        assert svc.Sent(taskId) == old(svc.Sent(taskId)) + [];
      case AppendArtifact(artifact) =>
        var hint := TargetOf(op);
        if hint.Some? {
          var _ := svc.AppendArtifact(hint.value, artifact);
        }
    }
  }

  method ApplyAll(svc: InMemoryTaskService, id: string, ops: seq<PendingOp>)
    requires AllTarget(ops, id)
    modifies svc
    ensures id !in old(svc.tasks) ==> svc.tasks == old(svc.tasks)
    ensures id in old(svc.tasks) ==>
              && svc.tasks == old(svc.tasks)[id := ApplyOps(old(svc.tasks)[id], ops)]
              && svc.Sent(id) == old(svc.Sent(id)) + UpdatesOfAll(old(svc.tasks)[id], ops)
  {
    hide TargetOf;
    hide ApplyOp;
    hide UpdatesOf;
    var i := 0;
    while i < |ops|
      invariant 0 <= i <= |ops|
      invariant id !in old(svc.tasks) ==> svc.tasks == old(svc.tasks)
      invariant id in old(svc.tasks) ==>
                  && svc.tasks == old(svc.tasks)[id := ApplyOps(old(svc.tasks)[id], ops[..i])]
                  && svc.Sent(id) == old(svc.Sent(id)) + UpdatesOfAll(old(svc.tasks)[id], ops[..i])
    {
      assert ops[..i + 1][..i] == ops[..i];
      Apply(svc, ops[i]);
      i := i + 1;
    }
    assert ops[..|ops|] == ops;
  }

  predicate AllTarget(ops: seq<PendingOp>, taskId: string) {
    forall i | 0 <= i < |ops| :: TargetOf(ops[i]) == Some(taskId)
  }

  lemma {:induction false} OpsTargetTask(c: Codec, ids: Ids, events: seq<Event>)
    ensures AllTarget(OpsOfAll(c, ids, events), ids.taskId)
    decreases events
  {
    hide OpsOf, TextParts, TargetOf;
    if events != [] {
      var before, e := events[..|events| - 1], events[|events| - 1];
      var seenText := TextParts(c, ids, before) != [];
      OpsTargetTask(c, ids, before);
      OneOpTargetsTask(c, ids, e, seenText);
      assert OpsOfAll(c, ids, events) == OpsOfAll(c, ids, before) + OpsOf(c, ids, e, seenText);
    }
  }

  lemma OneOpTargetsTask(c: Codec, ids: Ids, e: Event, seenText: bool)
    ensures AllTarget(OpsOf(c, ids, e, seenText), ids.taskId)
  {
  }

  // ---- Starting a task ---------------------------------------------------------------------------------

  const INVOCATION_KEY := "adk:invocationId"

  function NewTask(taskId: string, contextId: string, history: seq<Message>): Task {
    Task(taskId, contextId, TaskStatus(Submitted, None), [], history, None)
  }

  function MetadataOf(task: Task): map<string, Json> {
    if task.metadata.Some? then task.metadata.value else map[]
  }

  const WORKING := TaskStatus(Working, None)

  function ContextOf(user: Message, newContextId: string): string {
    if user.contextId.Some? then user.contextId.value else newContextId
  }

  /** The task that a user's message opens: its history is that message, with its ids filled in. */
  function StartedTask(user: Message, newContextId: string, taskId: string): Task {
    var contextId := ContextOf(user, newContextId);
    NewTask(taskId, contextId, [user.(contextId := Some(contextId), taskId := Some(taskId))])
  }

  /** The new task is submitted, has no artifacts, and its history is the user's message in the task's context. */
  lemma StartedIs(user: Message, newContextId: string, taskId: string)
    ensures var task := StartedTask(user, newContextId, taskId);
            && task.id == taskId && task.status == TaskStatus(Submitted, None)
            && task.artifacts == [] && task.metadata.None? && |task.history| == 1
            && task.history[0].role == user.role && task.history[0].parts == user.parts
            && task.history[0].taskId == Some(taskId) && task.history[0].contextId == Some(task.contextId)
            && (user.contextId.Some? ==> task.contextId == user.contextId.value)
            && (user.contextId.None? ==> task.contextId == newContextId)
  {
  }

  /**
   * Create the task, mark it as working, start the runner, then store the task again with the invocation id.
   * The last write is the snapshot from before: a started task is stored as submitted.
   */
  method StartTask(svc: InMemoryTaskService, user: Message, newContextId: string, taskId: string,
                   started: Result<string, string>) returns (r: Result<Task, string>)
    modifies svc
    ensures r.Ok? <==> user.role == FromUser && started.Ok?
    ensures user.role != FromUser ==> svc.tasks == old(svc.tasks) && svc.sent == old(svc.sent)
    ensures user.role == FromUser ==>
              var working := StatusUpdate(taskId, ContextOf(user, newContextId), TaskStatus(Working, None), false);
              svc.sent == old(svc.sent)[taskId := old(svc.Sent(taskId)) + [working]]
    ensures user.role == FromUser && started.Err? ==>
              && svc.tasks == old(svc.tasks)[taskId :=
                   StartedTask(user, newContextId, taskId).(status := TaskStatus(Working, None))]
              && r == Err(started.error)
    ensures r.Ok? ==>
              && svc.tasks == old(svc.tasks)[taskId := r.value]
              && r.value == StartedTask(user, newContextId, taskId).(
                              metadata := Some(map["adk:invocationId" := String(started.value)]))
  {
    if user.role != FromUser {
      return Err("message.role must be \"user\" for an inbound request");
    }
    var task := svc.CreateTask(StartedTask(user, newContextId, taskId));
    var _ := svc.UpdateStatus(taskId, WORKING, false);
    if started.Err? {
      return Err(started.error);
    }
    task := task.(metadata := Some(MetadataOf(task)[INVOCATION_KEY := String(started.value)]));
    var _ := svc.CreateTask(task);
    r := Ok(task);
  }

  // ---- What state a task ends in -----------------------------------------------------------------------

  /** Some event lists a call that waits for the user. */
  ghost predicate SomeWaits(events: seq<Event>) {
    exists i :: 0 <= i < |events| && events[i].longRunningToolIds.Some? && events[i].longRunningToolIds.value != []
  }

  ghost predicate Says(status: TaskStatus, text: string) {
    status.message.Some? && status.message.value.role == FromAgent
    && status.message.value.parts == [TextPart(text, None)]
  }

  /**
   * A run that fails ends as failed, with the error's text; one that waits for the user asks for input; any other is
   * completed.  Only the second can still be subscribed to or cancelled.
   */
  ghost predicate EndsAs(status: TaskStatus, events: seq<Event>, error: Option<string>) {
    && (error.Some? ==> status.state == TaskState.Failed && Says(status, error.value))
    && (error.None? && SomeWaits(events) ==>
          status.state == InputRequired
          && Says(status, "awaiting user input: tool confirmation, credential consent, or a long-running tool result"))
    && (error.None? && !SomeWaits(events) ==> status == TaskStatus(TaskState.Completed, None))
    && (IsTerminal(status.state) <==> error.Some? || !SomeWaits(events))
  }

  lemma StatusEndsAs(events: seq<Event>, error: Option<string>)
    ensures EndsAs(if error.None? then FinalTaskStatus(Paused(events)) else FailedStatus(error.value), events, error)
  {
    if Paused(events) {
      var i :| 0 <= i < |events| && PausesInvocation(events[i]);
    }
    if i :| 0 <= i < |events| && events[i].longRunningToolIds.Some? && events[i].longRunningToolIds.value != [] {
      assert PausesInvocation(events[i]);
    }
  }

  // ---- The two message handlers ------------------------------------------------------------------------

  datatype RpcError = InternalError(message: string) | TaskNotFound

  /** The events before the first error, and that error. */
  function UpToError(items: seq<Result<Event, string>>): (seq<Event>, Option<string>) {
    if items == [] then ([], None)
    else if items[0].Err? then ([], Some(items[0].error))
    else var (rest, e) := UpToError(items[1..]); ([items[0].value] + rest, e)
  }

  /** The items up to `k` are the events absorbed so far. */
  ghost predicate AbsorbedSoFar(items: seq<Result<Event, string>>, absorbed: seq<Event>) {
    && |absorbed| <= |items|
    && forall j | 0 <= j < |absorbed| :: items[j] == Ok(absorbed[j])
  }

  lemma {:induction false} UpToErrorIs(items: seq<Result<Event, string>>, absorbed: seq<Event>)
    requires AbsorbedSoFar(items, absorbed)
    ensures |absorbed| == |items| ==> UpToError(items) == (absorbed, None)
    ensures |absorbed| < |items| && items[|absorbed|].Err? ==>
              UpToError(items) == (absorbed, Some(items[|absorbed|].error))
    decreases absorbed
  {
    if absorbed != [] {
      forall j | 0 <= j < |absorbed[1..]| ensures items[1..][j] == Ok(absorbed[1..][j]) {
        assert items[j + 1] == Ok(absorbed[j + 1]);
      }
      UpToErrorIs(items[1..], absorbed[1..]);
      assert items[0] == Ok(absorbed[0]);
      assert [absorbed[0]] + absorbed[1..] == absorbed;
    }
  }

  lemma AbsorbNext(c: Codec, ids: Ids, absorbed: seq<Event>, ev: Event)
    ensures OpsOfAll(c, ids, absorbed + [ev]) ==
            OpsOfAll(c, ids, absorbed) + OpsOf(c, ids, ev, TextParts(c, ids, absorbed) != [])
    ensures TextParts(c, ids, absorbed + [ev]) != [] <==>
            TextParts(c, ids, absorbed) != [] || TextOf(c, ids, ev) != ""
  {
    var all := absorbed + [ev];
    assert all[..|all| - 1] == absorbed && all[|all| - 1] == ev;
    hide OpsOf;
    hide TextOf;
  }

  lemma PausedNext(absorbed: seq<Event>, ev: Event)
    ensures Paused(absorbed + [ev]) <==> Paused(absorbed) || PausesInvocation(ev)
  {
    var all := absorbed + [ev];
    assert forall j | 0 <= j < |absorbed| :: all[j] == absorbed[j];
    if j :| 0 <= j < |absorbed| && PausesInvocation(absorbed[j]) {
      assert PausesInvocation(all[j]);
    }
    if PausesInvocation(ev) {
      assert PausesInvocation(all[|absorbed|]);
    }
  }

  lemma AbsorbNone(c: Codec, ids: Ids)
    ensures OpsOfAll(c, ids, []) == [] && TextParts(c, ids, []) == [] && !Paused([])
  {
  }

  /** The drain loop of both handlers: absorb until the stream ends or fails. */
  method Drain(c: Codec, ids: Ids, items: seq<Result<Event, string>>)
    returns (ops: seq<PendingOp>, paused: bool, error: Option<string>)
    ensures var (events, e) := UpToError(items);
            && ops == OpsOfAll(c, ids, events)
            && (paused <==> Paused(events))
            && error == e
  {
    hide OpsOfAll;
    hide OpsOf;
    hide TextParts;
    hide TextOf;
    hide Paused;
    var agg := new Aggregator(c, ids);
    paused, error := false, None;
    ghost var absorbed: seq<Event> := [];
    AbsorbNone(c, ids);
    var i := 0;
    while i < |items| && error.None?
      invariant i == |absorbed|
      invariant fresh(agg) && agg.codec == c && agg.ids == ids
      invariant AbsorbedSoFar(items, absorbed)
      invariant agg.pending == OpsOfAll(c, ids, absorbed)
      invariant agg.seenText <==> TextParts(c, ids, absorbed) != []
      invariant paused <==> Paused(absorbed)
      invariant error.Some? ==> |absorbed| < |items| && items[|absorbed|] == Err(error.value)
      decreases |items| - i, error.None?
    {
      match items[i] {
        case Ok(ev) =>
          AbsorbNext(c, ids, absorbed, ev);
          PausedNext(absorbed, ev);
          paused := paused || PausesInvocation(ev);
          agg.Absorb(ev);
          absorbed := absorbed + [ev];
          i := i + 1;
        case Err(msg) =>
          error := Some(msg);
      }
    }
    UpToErrorIs(items, absorbed);
    ops := agg.DrainPending();
  }

  /**
   * `message/send`.  Without an error the stored and returned task is the given one plus a message per event with
   * content and at most one artifact; with an error nothing that was absorbed is stored.
   */
  method HandleMessageSend(svc: InMemoryTaskService, c: Codec, ids: Ids, items: seq<Result<Event, string>>)
    returns (r: Result<Task, RpcError>)
    requires ids.taskId in svc.tasks ==> NewId(svc.tasks[ids.taskId].artifacts, ids.artifactId)
    modifies svc
    ensures ids.taskId !in old(svc.tasks) ==> svc.tasks == old(svc.tasks) && r.Err?
    ensures ids.taskId in old(svc.tasks) ==>
              var (events, error) := UpToError(items);
              var task := old(svc.tasks)[ids.taskId];
              var final := if error.None?
                           then Accumulated(c, ids, task, events).(status := FinalTaskStatus(Paused(events)))
                           else task.(status := FailedStatus(error.value));
              && svc.tasks == old(svc.tasks)[ids.taskId := final]
              && svc.Sent(ids.taskId) == old(svc.Sent(ids.taskId)) +
                   (if error.None? then StreamedUpdates(c, ids, task, items)
                    else [StatusUpdate(task.id, task.contextId, FailedStatus(error.value), true)])
              && r == (if error.None? then Ok(final) else Err(InternalError(error.value)))
              && EndsAs(final.status, events, error)
  {
    StatusEndsAs(UpToError(items).0, UpToError(items).1);
    hide OpsOfAll, ApplyOps, UpdatesOfAll, FinalTaskStatus, UpToError, Paused, Messages, ResponseArtifact;
    var ops, paused, error := Drain(c, ids, items);
    ghost var events := UpToError(items).0;
    if error.Some? {
      var _ := svc.UpdateStatus(ids.taskId, FailedStatus(error.value), true);
      return Err(InternalError(error.value));
    }
    OpsTargetTask(c, ids, events);
    if ids.taskId in svc.tasks {
      OpsAccumulate(c, ids, svc.tasks[ids.taskId], events);
    }
    ApplyAll(svc, ids.taskId, ops);
    var _ := svc.UpdateStatus(ids.taskId, FinalTaskStatus(paused), true);
    var found := svc.GetTask(ids.taskId, None);
    match found {
      case Some(task) => r := Ok(task);
      case None => r := Err(TaskNotFound);
    }
  }

  /** A whole `message/send` request: the task is started, its run drained and stored. */
  method MessageSend(svc: InMemoryTaskService, c: Codec, user: Message, newContextId: string, taskId: string,
                     artifactId: string, started: Result<string, string>, items: seq<Result<Event, string>>)
    returns (r: Result<Task, RpcError>)
    modifies svc
    ensures r.Ok? <==> user.role == FromUser && started.Ok? && UpToError(items).1.None?
    ensures r.Ok? ==>
              var ids := Ids(taskId, ContextOf(user, newContextId), artifactId);
              var stored := StartedTask(user, newContextId, taskId).(
                              metadata := Some(map["adk:invocationId" := String(started.value)]));
              var events := UpToError(items).0;
              && r.value == Accumulated(c, ids, stored, events).(status := FinalTaskStatus(Paused(events)))
              && svc.tasks == old(svc.tasks)[taskId := r.value]
              && EndsAs(r.value.status, events, None)
  {
    StatusEndsAs(UpToError(items).0, None);
    hide EndsAs, Accumulated, FinalTaskStatus, UpToError, Paused, StreamedUpdates;
    var task := StartTask(svc, user, newContextId, taskId, started);
    if task.Err? {
      return Err(InternalError(task.error));
    }
    r := HandleMessageSend(svc, c, Ids(taskId, task.value.contextId, artifactId), items);
  }

  /**
   * `message/stream`.  The run's task stores what was absorbed also when the stream failed; the response is the
   * task as it was started and then those updates of the run that reach the subscriber, up to the final status.
   */
  method HandleMessageStream(svc: InMemoryTaskService, c: Codec, ids: Ids, items: seq<Result<Event, string>>,
                             pace: Pace)
    returns (r: Result<seq<StreamingResult>, RpcError>)
    requires ids.taskId in svc.tasks && !IsTerminal(svc.tasks[ids.taskId].status.state)
    requires NewId(svc.tasks[ids.taskId].artifacts, ids.artifactId)
    modifies svc
    ensures svc.tasks == old(svc.tasks)[ids.taskId :=
              Accumulated(c, ids, old(svc.tasks)[ids.taskId], UpToError(items).0).(status := StreamedStatus(items))]
    ensures EndsAs(svc.tasks[ids.taskId].status, UpToError(items).0, UpToError(items).1)
    ensures r == Ok(StreamedFrames(c, ids, old(svc.tasks)[ids.taskId], items, pace))
  {
    hide EndsAs;
    StatusEndsAs(UpToError(items).0, UpToError(items).1);
    var frames := [Snapshot(svc.tasks[ids.taskId])];
    var from := svc.Subscribe(ids.taskId);
    if from.None? {
      return Err(InternalError("task not subscribable"));
    }
    RunStreamed(svc, c, ids, items);
    var live := Forward(svc.Sent(ids.taskId)[from.value..], pace);
    r := Ok(frames + live);
  }

  /** The status a streamed run ends with. */
  function StreamedStatus(items: seq<Result<Event, string>>): TaskStatus {
    var (events, error) := UpToError(items);
    if error.None? then FinalTaskStatus(Paused(events)) else FailedStatus(error.value)
  }

  /** The updates that subscribers are sent during a run. */
  function StreamedUpdates(c: Codec, ids: Ids, task: Task, items: seq<Result<Event, string>>): seq<TaskUpdate> {
    UpdatesOfAll(task, OpsOfAll(c, ids, UpToError(items).0)) +
    [StatusUpdate(task.id, task.contextId, StreamedStatus(items), true)]
  }

  /** The frames of the response, when run and subscriber move at this pace. */
  function StreamedFrames(c: Codec, ids: Ids, task: Task, items: seq<Result<Event, string>>, pace: Pace)
    : seq<StreamingResult>
  {
    var updates := StreamedUpdates(c, ids, task, items);
    [Snapshot(task)] + Frames(updates, Play(updates, pace, 0, SUBSCRIBED).received)
  }

  /** The spawned task of `message/stream`. */
  method RunStreamed(svc: InMemoryTaskService, c: Codec, ids: Ids, items: seq<Result<Event, string>>)
    requires ids.taskId in svc.tasks && NewId(svc.tasks[ids.taskId].artifacts, ids.artifactId)
    modifies svc
    ensures svc.tasks == old(svc.tasks)[ids.taskId :=
              Accumulated(c, ids, old(svc.tasks)[ids.taskId], UpToError(items).0).(status := StreamedStatus(items))]
    ensures svc.Sent(ids.taskId) ==
            old(svc.Sent(ids.taskId)) + StreamedUpdates(c, ids, old(svc.tasks)[ids.taskId], items)
    ensures EndsAs(svc.tasks[ids.taskId].status, UpToError(items).0, UpToError(items).1)
  {
    StatusEndsAs(UpToError(items).0, UpToError(items).1);
    hide EndsAs;
    hide OpsOfAll, ApplyOps, UpdatesOfAll, FinalTaskStatus, UpToError, Paused, Messages, ResponseArtifact;
    var ops, paused, error := Drain(c, ids, items);
    ghost var events := UpToError(items).0;
    ghost var task := svc.tasks[ids.taskId];
    OpsTargetTask(c, ids, events);
    OpsAccumulate(c, ids, task, events);
    ApplyAll(svc, ids.taskId, ops);
    if error.Some? {
      var _ := svc.UpdateStatus(ids.taskId, FailedStatus(error.value), true);
    } else {
      var _ := svc.UpdateStatus(ids.taskId, FinalTaskStatus(paused), true);
    }
  }
}
