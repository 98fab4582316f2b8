/**
 * The A2A client's way back (src/a2a/client.rs): a finished task, or the frames of a streamed run, become events of
 * the local proxy agent.
 */
module Client {
  import opened Wrappers
  import opened Genai
  import opened A2aTypes
  import opened Mapping
  import opened TaskService
  import opened Subscription
  import opened Server

  function MessageToEvent(c: Codec, author: string, m: Message): Event {
    NewEvent(author, WithContent(MessageToContent(c, m)))
  }

  function TextEvent(author: string, text: string): Event {
    NewEvent(author, WithContent(Content(Model, [Text(text)])))
  }

  /** The agent's messages, as events; the inbound user message is skipped. */
  function MessageEvents(c: Codec, author: string, history: seq<Message>): seq<Event> {
    if history == [] then []
    else
      var last := history[|history| - 1];
      MessageEvents(c, author, history[..|history| - 1]) +
      (if last.role == FromUser then [] else [MessageToEvent(c, author, last)])
  }

  /** The artifacts with text, as events. */
  function ArtifactEvents(author: string, artifacts: seq<Artifact>): seq<Event> {
    if artifacts == [] then []
    else
      var text := WireText(artifacts[|artifacts| - 1].parts);
      ArtifactEvents(author, artifacts[..|artifacts| - 1]) + (if text == "" then [] else [TextEvent(author, text)])
  }

  /** A model's event with just this text. */
  predicate SaysOnly(e: Event, author: string, text: string) {
    e.author == author && e.response.content == Some(Content(Model, [Text(text)]))
  }

  lemma {:induction false} ArtifactEventsConcat(author: string, xs: seq<Artifact>, ys: seq<Artifact>)
    ensures ArtifactEvents(author, xs + ys) == ArtifactEvents(author, xs) + ArtifactEvents(author, ys)
    decreases ys
  {
    if ys == [] {
      assert xs + ys == xs;
    } else {
      var n := |ys| - 1;
      assert (xs + ys)[..|xs + ys| - 1] == xs + ys[..n] && (xs + ys)[|xs + ys| - 1] == ys[n];
      hide WireText, TextEvent;
      ArtifactEventsConcat(author, xs, ys[..n]);
    }
  }

  lemma OneArtifactSpeaks(author: string, x: Artifact)
    ensures var spoken := ArtifactEvents(author, [x]);
            && |spoken| == (if WireText(x.parts) == "" then 0 else 1)
            && forall e | e in spoken :: SaysOnly(e, author, WireText(x.parts))
  {
    assert [x][..0] == [];
  }

  /** Every artifact with text gives one event that says its text, in its place among the others. */
  lemma EachArtifactSpeaks(author: string, before: seq<Artifact>, x: Artifact, after: seq<Artifact>)
    ensures var spoken := ArtifactEvents(author, [x]);
            && ArtifactEvents(author, before + [x] + after) ==
               ArtifactEvents(author, before) + spoken + ArtifactEvents(author, after)
            && |spoken| == (if WireText(x.parts) == "" then 0 else 1)
            && forall e | e in spoken :: SaysOnly(e, author, WireText(x.parts))
  {
    hide *;
    ArtifactEventsConcat(author, before + [x], after);
    ArtifactEventsConcat(author, before, [x]);
    OneArtifactSpeaks(author, x);
  }

  /** Artifacts only speak when no agent message does. */
  function EventsOfTask(c: Codec, author: string, task: Task): seq<Event> {
    var fromMessages := MessageEvents(c, author, task.history);
    if fromMessages != [] then fromMessages else ArtifactEvents(author, task.artifacts)
  }

  method TaskToEvents(c: Codec, author: string, task: Task) returns (out: seq<Event>)
    ensures out == EventsOfTask(c, author, task)
  {
    out := [];
    for i := 0 to |task.history|
      invariant out == MessageEvents(c, author, task.history[..i])
    {
      assert task.history[..i + 1][..i] == task.history[..i];
      if task.history[i].role == FromUser {
        continue;
      }
      out := out + [MessageToEvent(c, author, task.history[i])];
    }
    assert task.history[..|task.history|] == task.history;
    if out == [] {
      for i := 0 to |task.artifacts|
        invariant out == ArtifactEvents(author, task.artifacts[..i])
      {
        assert task.artifacts[..i + 1][..i] == task.artifacts[..i];
        var text := WireText(task.artifacts[i].parts);
        if text != "" {
          out := out + [TextEvent(author, text)];
        }
      }
      assert task.artifacts[..|task.artifacts|] == task.artifacts;
    }
  }

  /** The text parts of an update, as content. */
  function TextsOnly(parts: seq<WirePart>): seq<Part> {
    if parts == [] then []
    else (if parts[0].TextPart? then [Text(parts[0].text)] else []) + TextsOnly(parts[1..])
  }

  function StreamResultToEvents(c: Codec, author: string, res: StreamingResult): seq<Event> {
    match res
    case Live(StatusUpdate(_, _, status, _)) =>
      if status.message.Some? && status.message.value.role != FromUser
      then [MessageToEvent(c, author, status.message.value)] else []
    case Live(ArtifactUpdate(_, _, artifact)) =>
      var parts := TextsOnly(artifact.parts);
      if parts == [] then []
      else [NewEvent(author, WithContent(Content(Model, parts))).(
              partial := if artifact.lastChunk == Some(true) then None else Some(true),
              turnComplete := artifact.lastChunk)]
    case Standalone(m) => if m.role == FromUser then [] else [MessageToEvent(c, author, m)]
    case Snapshot(task) =>
      if task.status.state == TaskState.Failed && task.status.message.Some?
      then [MessageToEvent(c, author, task.status.message.value)] else []
  }

  /** Every text part of an update is said, in its place among the others, and nothing else is. */
  lemma {:induction false} EachTextSaid(before: seq<WirePart>, p: WirePart, after: seq<WirePart>)
    ensures TextsOnly(before + [p] + after) ==
            TextsOnly(before) + (if p.TextPart? then [Text(p.text)] else []) + TextsOnly(after)
    decreases before
  {
    var all := before + [p] + after;
    if before == [] {
      assert all[0] == p && all[1..] == after;
    } else {
      assert all[0] == before[0] && all[1..] == before[1..] + [p] + after;
      EachTextSaid(before[1..], p, after);
      Associate(if before[0].TextPart? then [Text(before[0].text)] else [], TextsOnly(before[1..]),
                if p.TextPart? then [Text(p.text)] else [], TextsOnly(after));
    }
  }

  /** The event for a message: the agent's, with the message's parts as they come off the wire. */
  predicate Relays(c: Codec, author: string, m: Message, e: Event) {
    && e.author == author && e.response.content.Some?
    && e.response.content.value.role == (if m.role == FromUser then User else Model)
    && |e.response.content.value.parts| == |m.parts|
    && forall i | 0 <= i < |m.parts| :: e.response.content.value.parts[i] == A2aPartToAdk(c, m.parts[i])
  }

  /**
   * At most one event for each frame: for a message that is not the user's, for the text of an artifact update, which
   * is partial until its last chunk, and for the task itself only if it has failed and says why.
   */
  lemma FrameSays(c: Codec, author: string, res: StreamingResult)
    ensures var out := StreamResultToEvents(c, author, res);
            && |out| <= 1
            && (res.Standalone? ==>
                  if res.message.role == FromUser then out == []
                  else |out| == 1 && Relays(c, author, res.message, out[0]))
            && (res.Live? && res.update.StatusUpdate? ==>
                  var m := res.update.status.message;
                  if m.None? || m.value.role == FromUser then out == []
                  else |out| == 1 && Relays(c, author, m.value, out[0]))
            && (res.Live? && res.update.ArtifactUpdate? ==>
                  var x := res.update.artifact;
                  if TextsOnly(x.parts) == [] then out == []
                  else |out| == 1 && out[0].author == author
                       && out[0].response.content == Some(Content(Model, TextsOnly(x.parts)))
                       && out[0].partial == (if x.lastChunk == Some(true) then None else Some(true))
                       && out[0].turnComplete == x.lastChunk)
            && (res.Snapshot? ==>
                  var m := res.task.status.message;
                  if res.task.status.state != TaskState.Failed || m.None? then out == []
                  else |out| == 1 && Relays(c, author, m.value, out[0]))
  {
    hide TextsOnly, A2aPartToAdk;
  }

  /** The events of a whole streamed response. */
  function EventsOfFrames(c: Codec, author: string, frames: seq<StreamingResult>): seq<Event> {
    if frames == [] then []
    else EventsOfFrames(c, author, frames[..|frames| - 1]) + StreamResultToEvents(c, author, frames[|frames| - 1])
  }

  // ---- Round trip through a stored task ----------------------------------------------------------------

  /** The event that comes back for a sent one: its parts after the wire, in the role of a model. */
  function Returned(c: Codec, author: string, e: Event): Event
    requires e.response.content.Some?
  {
    var parts := e.response.content.value.parts;
    NewEvent(author, WithContent(Content(Model,
      seq(|parts|, i requires 0 <= i < |parts| => RoundTrip(c, parts[i])))))
  }

  /** An event that reaches the task as a message. */
  predicate Speaks(e: Event) {
    e.author != "user" && e.response.content.Some? && e.response.content.value.parts != []
  }

  /** One returned event for each event that speaks, in order. */
  function AllReturned(c: Codec, author: string, events: seq<Event>): seq<Event> {
    if events == [] then []
    else
      var last := events[|events| - 1];
      AllReturned(c, author, events[..|events| - 1]) + (if Speaks(last) then [Returned(c, author, last)] else [])
  }

  lemma MessageComesBack(c: Codec, ids: Ids, author: string, e: Event)
    requires Speaks(e) && e.response.content.value.role != User
    ensures MessageOf(c, ids, e).Some? && MessageOf(c, ids, e).value.role == FromAgent
    ensures MessageToEvent(c, author, MessageOf(c, ids, e).value) == Returned(c, author, e)
  {
    var content := e.response.content.value;
    ContentRoundTrip(c, content, Some(ids.contextId), Some(ids.taskId));
    var back := MessageToContent(c, MessageOf(c, ids, e).value);
    assert back.parts == Returned(c, author, e).response.content.value.parts;
  }

  lemma {:induction false} MessageEventsConcat(c: Codec, author: string, xs: seq<Message>, ys: seq<Message>)
    ensures MessageEvents(c, author, xs + ys) == MessageEvents(c, author, xs) + MessageEvents(c, author, ys)
    decreases ys
  {
    if ys == [] {
      assert xs + ys == xs;
    } else {
      assert (xs + ys)[..|xs + ys| - 1] == xs + ys[..|ys| - 1];
      MessageEventsConcat(c, author, xs, ys[..|ys| - 1]);
    }
  }

  lemma {:induction false} MessagesComeBack(c: Codec, ids: Ids, author: string, events: seq<Event>)
    requires forall e | e in events && Speaks(e) :: e.response.content.value.role != User
    ensures MessageEvents(c, author, Messages(c, ids, events)) == AllReturned(c, author, events)
    decreases events
  {
    if events != [] {
      var before, e := events[..|events| - 1], events[|events| - 1];
      assert e in events && forall x | x in before :: x in events;
      MessagesComeBack(c, ids, author, before);
      if Speaks(e) {
        MessageComesBack(c, ids, author, e);
        var ms, m := Messages(c, ids, before), MessageOf(c, ids, e).value;
        assert (ms + [m])[..|ms|] == ms;
        assert MessageEvents(c, author, ms + [m]) == MessageEvents(c, author, ms) + [MessageToEvent(c, author, m)];
      } else {
        assert MessageOf(c, ids, e) == None;
        assert Messages(c, ids, events) == Messages(c, ids, before) + [] == Messages(c, ids, before);
        assert AllReturned(c, author, before) + [] == AllReturned(c, author, before);
      }
    }
  }

  lemma {:induction false} NothingSaidNothingStored(c: Codec, ids: Ids, events: seq<Event>)
    requires Messages(c, ids, events) == []
    ensures TextParts(c, ids, events) == []
    decreases events
  {
    if events != [] {
      NothingSaidNothingStored(c, ids, events[..|events| - 1]);
    }
  }

  lemma {:induction false} UserMessagesAreSkipped(c: Codec, author: string, history: seq<Message>)
    requires forall m | m in history :: m.role == FromUser
    ensures MessageEvents(c, author, history) == []
    decreases history
  {
    if history != [] {
      UserMessagesAreSkipped(c, author, history[..|history| - 1]);
    }
  }

  /**
   * The client of a non-streamed run gets back the run's events, one for each that speaks, in order, up to the round
   * trip of their parts and the role of a model.
   */
  lemma TaskRoundTrip(c: Codec, ids: Ids, author: string, started: Task, events: seq<Event>, status: TaskStatus)
    requires started.artifacts == [] && forall m | m in started.history :: m.role == FromUser
    requires forall e | e in events && Speaks(e) :: e.response.content.value.role != User
    ensures EventsOfTask(c, author, Accumulated(c, ids, started, events).(status := status)) ==
            AllReturned(c, author, events)
  {
    var ms := Messages(c, ids, events);
    MessageEventsConcat(c, author, started.history, ms);
    UserMessagesAreSkipped(c, author, started.history);
    MessagesComeBack(c, ids, author, events);
    assert MessageEvents(c, author, started.history + ms) == AllReturned(c, author, events);
    if AllReturned(c, author, events) == [] {
      NoEventsNoMessages(c, ids, author, events);
      NothingSaidNothingStored(c, ids, events);
    }
  }

  lemma {:induction false} NoEventsNoMessages(c: Codec, ids: Ids, author: string, events: seq<Event>)
    requires AllReturned(c, author, events) == []
    ensures Messages(c, ids, events) == []
    decreases events
  {
    if events != [] {
      NoEventsNoMessages(c, ids, author, events[..|events| - 1]);
    }
  }

  /**
   * The proxy agent's whole run without streaming: the request goes to the server, and the task that comes back is
   * turned into events.  Unless the run speaks in the user's role, they are its events, one for each that speaks, in
   * order.
   */
  method RunRemote(svc: InMemoryTaskService, c: Codec, author: string, user: Message, newContextId: string,
                   taskId: string, artifactId: string, started: Result<string, string>,
                   items: seq<Result<Event, string>>)
    returns (out: Result<seq<Event>, RpcError>)
    modifies svc
    ensures out.Ok? <==> user.role == FromUser && started.Ok? && UpToError(items).1.None?
    ensures out.Ok? && (forall e | e in UpToError(items).0 && Speaks(e) :: e.response.content.value.role != User) ==>
              out.value == AllReturned(c, author, UpToError(items).0)
  {
    var sent := MessageSend(svc, c, user, newContextId, taskId, artifactId, started, items);
    if sent.Err? {
      return Err(sent.error);
    }
    var events := TaskToEvents(c, author, sent.value);
    ghost var ids := Ids(taskId, ContextOf(user, newContextId), artifactId);
    ghost var stored := StartedTask(user, newContextId, taskId).(
      metadata := Some(map[INVOCATION_KEY := String(started.value)]));
    if forall e | e in UpToError(items).0 && Speaks(e) :: e.response.content.value.role != User {
      TaskRoundTrip(c, ids, author, stored, UpToError(items).0, FinalTaskStatus(Paused(UpToError(items).0)));
    }
    out := Ok(events);
  }

  // ---- What a streaming client sees --------------------------------------------------------------------

  lemma {:induction false} EventsOfFramesConcat(c: Codec, author: string, xs: seq<StreamingResult>,
                                                ys: seq<StreamingResult>)
    ensures EventsOfFrames(c, author, xs + ys) == EventsOfFrames(c, author, xs) + EventsOfFrames(c, author, ys)
    decreases ys
  {
    hide StreamResultToEvents;
    if ys == [] {
      assert xs + ys == xs;
    } else {
      assert (xs + ys)[..|xs + ys| - 1] == xs + ys[..|ys| - 1];
      EventsOfFramesConcat(c, author, xs, ys[..|ys| - 1]);
    }
  }

  lemma {:induction false} UpdatesConcat(task: Task, xs: seq<PendingOp>, ys: seq<PendingOp>)
    ensures UpdatesOfAll(task, xs + ys) == UpdatesOfAll(task, xs) + UpdatesOfAll(ApplyOps(task, xs), ys)
    decreases ys
  {
    if ys == [] {
      assert xs + ys == xs;
    } else {
      var zs := ys[..|ys| - 1];
      assert (xs + ys)[..|xs + ys| - 1] == xs + zs;
      UpdatesConcat(task, xs, zs);
      ApplyOpsConcat(task, xs, zs);
    }
  }

  /** The artifact updates of a run. */
  function ChunkUpdates(c: Codec, ids: Ids, task: Task, events: seq<Event>): seq<TaskUpdate> {
    UpdatesOfAll(task, OpsOfAll(c, ids, events))
  }

  /** What one more event sends: an update if it has text, with the text if it is the first. */
  lemma NextUpdates(c: Codec, ids: Ids, task: Task, events: seq<Event>, e: Event)
    requires NewId(task.artifacts, ids.artifactId)
    ensures var before, after := ChunkUpdates(c, ids, task, events), ChunkUpdates(c, ids, task, events + [e]);
            var text := TextOf(c, ids, e);
            if text == "" then after == before
            else |after| == |before| + 1 && after[..|before|] == before && after[|before|].ArtifactUpdate?
                 && after[|before|].artifact.parts ==
                    if TextParts(c, ids, events) == [] then [TextPart(text, None)] else []
  {
    hide UpdatesOfAll, OpsOfAll, ApplyOps, OpsOf, TextOf, MessageOf, TextParts, Accumulated, ChunkOf, Leftover;
    var before, ops := OpsOfAll(c, ids, events), OpsOf(c, ids, e, TextParts(c, ids, events) != []);
    AbsorbNext(c, ids, events, e);
    UpdatesConcat(task, before, ops);
    OpsAccumulate(c, ids, task, events);
    EventUpdates(c, ids, task, events, e);
  }

  lemma EventUpdates(c: Codec, ids: Ids, task: Task, events: seq<Event>, e: Event)
    requires NewId(task.artifacts, ids.artifactId)
    ensures var t, ops := Accumulated(c, ids, task, events), OpsOf(c, ids, e, TextParts(c, ids, events) != []);
            var updates, text := UpdatesOfAll(t, ops), TextOf(c, ids, e);
            if text == "" then updates == []
            else |updates| == 1 && updates[0].ArtifactUpdate?
                 && updates[0].artifact.parts == if TextParts(c, ids, events) == [] then [TextPart(text, None)] else []
  {
    var t := Accumulated(c, ids, task, events);
    OpsOfShape(c, ids, events, e);
    if TextOf(c, ids, e) != "" {
      ChunkLeftover(c, ids, task, events, e);
    }
    hide OpsOf, MessageOf, TextOf, TextParts, Accumulated, ChunkOf, Leftover;
    if MessageOf(c, ids, e).Some? {
      var said := PendingOp.AppendHistory(MessageOf(c, ids, e).value);
      SaidSendsNothing(t, said);
      if TextOf(c, ids, e) != "" {
        ChunkUpdate(t, said, ChunkOf(c, ids, events, e));
      }
    }
  }

  lemma OpsOfShape(c: Codec, ids: Ids, events: seq<Event>, e: Event)
    ensures var m, ops := MessageOf(c, ids, e), OpsOf(c, ids, e, TextParts(c, ids, events) != []);
            if m.None? then ops == [] && TextOf(c, ids, e) == ""
            else if TextOf(c, ids, e) == "" then ops == [PendingOp.AppendHistory(m.value)]
            else ops == [PendingOp.AppendHistory(m.value), PendingOp.AppendArtifact(ChunkOf(c, ids, events, e))]
  {
  }

  lemma SaidSendsNothing(t: Task, said: PendingOp)
    requires said.AppendHistory?
    ensures UpdatesOfAll(t, [said]) == [] && UpdatesOfAll(t, []) == []
  {
    assert [said][..0] == [];
  }

  lemma ChunkUpdate(t: Task, said: PendingOp, chunk: Artifact)
    requires said.AppendHistory?
    ensures UpdatesOfAll(t, [said, PendingOp.AppendArtifact(chunk)]) ==
            [ArtifactUpdate(t.id, t.contextId, Leftover(t.artifacts, chunk))]
  {
    assert [said, PendingOp.AppendArtifact(chunk)][..1] == [said];
    SaidSendsNothing(t, said);
    ApplyOne(t, said);
  }

  /** The first chunk of the response is broadcast with its text, every later one without. */
  lemma ChunkLeftover(c: Codec, ids: Ids, task: Task, events: seq<Event>, e: Event)
    requires NewId(task.artifacts, ids.artifactId) && TextOf(c, ids, e) != ""
    ensures var left := Leftover(Accumulated(c, ids, task, events).artifacts, ChunkOf(c, ids, events, e));
            left.parts == if TextParts(c, ids, events) == [] then [TextPart(TextOf(c, ids, e), None)] else []
  {
    PositionOfNew(task.artifacts, ResponseArtifact(c, ids, events), ids.artifactId);
  }

  /** A run sends one artifact update per text.  Only the first of them carries its text. */
  lemma {:induction false} OneUpdatePerText(c: Codec, ids: Ids, task: Task, events: seq<Event>)
    requires NewId(task.artifacts, ids.artifactId)
    ensures var updates, texts := ChunkUpdates(c, ids, task, events), TextParts(c, ids, events);
            && |updates| == |texts|
            && (forall p | p in texts :: p.TextPart? && p.text != "")
            && forall i | 0 <= i < |updates| ::
                 updates[i].ArtifactUpdate? && updates[i].artifact.parts == if i == 0 then [texts[0]] else []
    decreases events
  {
    if events != [] {
      var before, e := events[..|events| - 1], events[|events| - 1];
      assert before + [e] == events;
      OneUpdatePerText(c, ids, task, before);
      NextUpdates(c, ids, task, before, e);
      hide TextOf, ChunkUpdates;
      var updates, texts := ChunkUpdates(c, ids, task, before), TextParts(c, ids, before);
      assert TextParts(c, ids, events) ==
             texts + (if TextOf(c, ids, e) != "" then [TextPart(TextOf(c, ids, e), None)] else []);
      if TextOf(c, ids, e) != "" {
        assert ChunkUpdates(c, ids, task, events) == updates + [ChunkUpdates(c, ids, task, events)[|updates|]];
      }
    }
  }

  /** What a streaming client makes of the update that carries the first text. */
  function FirstTextEvents(c: Codec, ids: Ids, author: string, task: Task, events: seq<Event>): seq<Event> {
    var updates := ChunkUpdates(c, ids, task, events);
    if updates == [] then [] else StreamResultToEvents(c, author, Live(updates[0]))
  }

  /** What it makes of the status that ends the run. */
  function StatusEvents(c: Codec, author: string, items: seq<Result<Event, string>>): seq<Event> {
    var message := StreamedStatus(items).message;
    if message.Some? then [MessageToEvent(c, author, message.value)] else []
  }

  lemma FirstTextEventsAre(c: Codec, ids: Ids, author: string, task: Task, events: seq<Event>)
    requires NewId(task.artifacts, ids.artifactId)
    ensures var first, texts := FirstTextEvents(c, ids, author, task, events), TextParts(c, ids, events);
            if texts == [] then first == []
            else |first| == 1 && texts[0].TextPart?
                 && first[0].response.content == Some(Content(Model, [Text(texts[0].text)]))
  {
    hide ChunkUpdates, TextParts, StreamResultToEvents;
    OneUpdatePerText(c, ids, task, events);
    if TextParts(c, ids, events) != [] {
      assert TextParts(c, ids, events)[0] in TextParts(c, ids, events);
      OneTextSurfaces(c, author, ChunkUpdates(c, ids, task, events)[0]);
    }
  }

  lemma {:induction false} OneTextSurfaces(c: Codec, author: string, u: TaskUpdate)
    requires u.ArtifactUpdate? && |u.artifact.parts| == 1 && u.artifact.parts[0].TextPart?
    ensures var surfaced := StreamResultToEvents(c, author, Live(u));
            |surfaced| == 1 && surfaced[0].response.content == Some(Content(Model, [Text(u.artifact.parts[0].text)]))
  {
    assert u.artifact.parts[1..] == [];
    assert TextsOnly(u.artifact.parts) == [Text(u.artifact.parts[0].text)] + [] == [Text(u.artifact.parts[0].text)];
  }

  /** Artifact updates surface nothing after the first; an increasing choice of them surfaces the first or nothing. */
  lemma {:induction false} ChosenFrames(c: Codec, author: string, us: seq<TaskUpdate>, received: seq<nat>)
    requires Increasing(received) && forall i | 0 <= i < |received| :: received[i] < |us|
    requires forall k | 0 < k < |us| :: StreamResultToEvents(c, author, Live(us[k])) == []
    ensures EventsOfFrames(c, author, Frames(us, received)) ==
            if received != [] && received[0] == 0 then StreamResultToEvents(c, author, Live(us[0])) else []
    decreases received
  {
    hide StreamResultToEvents;
    if received != [] {
      var n := |received| - 1;
      var before, last := received[..n], received[n];
      ChosenFrames(c, author, us, before);
      assert received == before + [last];
      EventsSnoc(c, author, us, before, last);
      hide EventsOfFrames, Frames;
      assert n > 0 ==> before[0] == received[0] < last;
    }
  }

  lemma ZeroComesFirst(received: seq<nat>)
    requires Increasing(received)
    ensures 0 in received <==> received != [] && received[0] == 0
  {
  }

  lemma EventsSnoc(c: Codec, author: string, us: seq<TaskUpdate>, before: seq<nat>, last: nat)
    requires last < |us| && forall i | 0 <= i < |before| :: before[i] < |us|
    ensures forall i | 0 <= i < |before + [last]| :: (before + [last])[i] < |us|
    ensures EventsOfFrames(c, author, Frames(us, before + [last])) ==
            EventsOfFrames(c, author, Frames(us, before)) + StreamResultToEvents(c, author, Live(us[last]))
  {
    hide StreamResultToEvents;
    var frames := Frames(us, before + [last]);
    assert frames[..|frames| - 1] == Frames(us, before) && frames[|frames| - 1] == Live(us[last]);
  }

  lemma StreamedShape(c: Codec, ids: Ids, author: string, task: Task, items: seq<Result<Event, string>>)
    requires NewId(task.artifacts, ids.artifactId)
    ensures var us, events := StreamedUpdates(c, ids, task, items), UpToError(items).0;
            var n := |TextParts(c, ids, events)|;
            && EndsFinal(us) && |us| == n + 1
            && us[..n] == ChunkUpdates(c, ids, task, events)
            && (forall k | 0 < k < n :: StreamResultToEvents(c, author, Live(us[k])) == [])
            && StreamResultToEvents(c, author, Live(us[n])) == StatusEvents(c, author, items)
  {
    hide UpdatesOfAll, OpsOfAll, UpToError, TextParts, FinalTaskStatus, Paused;
    OneUpdatePerText(c, ids, task, UpToError(items).0);
    StatusSpeaksAsAgent(items);
  }

  lemma StatusSpeaksAsAgent(items: seq<Result<Event, string>>)
    ensures StreamedStatus(items).message.Some? ==> StreamedStatus(items).message.value.role == FromAgent
  {
  }

  /** The events that a streaming client is given, when run and subscriber move at this pace. */
  function Given(c: Codec, ids: Ids, author: string, task: Task, items: seq<Result<Event, string>>, pace: Pace)
    : seq<Event>
  {
    EventsOfFrames(c, author, StreamedFrames(c, ids, task, items, pace))
  }

  /** Whether the update with the first text is received. */
  predicate FirstReceived(c: Codec, ids: Ids, task: Task, items: seq<Result<Event, string>>, pace: Pace) {
    0 in Play(StreamedUpdates(c, ids, task, items), pace, 0, SUBSCRIBED).received
  }

  /**
   * All that a streaming client is given, at any pace: the first text, unless the update that carries it was
   * overwritten, and the message of the final status if it has one.  All other texts are lost on it.
   */
  lemma StreamedRun(c: Codec, ids: Ids, author: string, task: Task, items: seq<Result<Event, string>>, pace: Pace)
    requires NewId(task.artifacts, ids.artifactId) && task.status.state == Submitted
    ensures Given(c, ids, author, task, items, pace) ==
            (if FirstReceived(c, ids, task, items, pace)
             then FirstTextEvents(c, ids, author, task, UpToError(items).0) else []) +
            StatusEvents(c, author, items)
  {
    hide StreamedUpdates, StatusEvents, UpToError, ChunkUpdates, Play, TextParts, EventsOfFrames, StreamResultToEvents;
    var us := StreamedUpdates(c, ids, task, items);
    var received := Play(us, pace, 0, SUBSCRIBED).received;
    StreamedShape(c, ids, author, task, items);
    ReceivedInOrder(us, pace, 0, SUBSCRIBED);
    ReceivedEvents(c, author, us, received);
    SnapshotIsSilent(c, author, task);
    EventsOfFramesConcat(c, author, [Snapshot(task)], Frames(us, received));
    assert |us| == 1 ==> us[..0] == [];
    assert |us| > 1 ==> us[..|us| - 1][0] == us[0];
  }

  /** The events for the updates received, when only the first and the final one surface anything. */
  lemma ReceivedEvents(c: Codec, author: string, us: seq<TaskUpdate>, received: seq<nat>)
    requires us != [] && Increasing(received) && received != [] && received[|received| - 1] == |us| - 1
    requires forall k | 0 < k < |us| - 1 :: StreamResultToEvents(c, author, Live(us[k])) == []
    ensures forall i | 0 <= i < |received| :: received[i] < |us|
    ensures EventsOfFrames(c, author, Frames(us, received)) ==
            (if 0 in received && |us| > 1 then StreamResultToEvents(c, author, Live(us[0])) else []) +
            StreamResultToEvents(c, author, Live(us[|us| - 1]))
  {
    hide StreamResultToEvents;
    var n, m := |us| - 1, |received| - 1;
    var chosen, frames := received[..m], Frames(us, received);
    assert received == chosen + [n];
    assert forall i | 0 <= i < m :: chosen[i] < received[m];
    assert frames[..m] == Frames(us[..n], chosen) && frames[m] == Live(us[n]);
    ChosenFrames(c, author, us[..n], chosen);
    ZeroComesFirst(received);
    assert m > 0 ==> chosen[0] == received[0];
  }

  lemma SnapshotIsSilent(c: Codec, author: string, task: Task)
    requires task.status.state == Submitted
    ensures EventsOfFrames(c, author, [Snapshot(task)]) == []
  {
    assert [Snapshot(task)][..0] == [];
  }

  /**
   * A streaming client is sure to be given the first text of a run, however run and subscriber are scheduled, if and
   * only if the run has fewer texts than the channel has slots: the final status takes a slot as well.
   */
  lemma StreamSurfacesFirstTextIff(c: Codec, ids: Ids, author: string, task: Task, items: seq<Result<Event, string>>)
    requires NewId(task.artifacts, ids.artifactId) && task.status.state == Submitted
    ensures var events := UpToError(items).0;
            (forall pace: Pace :: Given(c, ids, author, task, items, pace) ==
               FirstTextEvents(c, ids, author, task, events) + StatusEvents(c, author, items))
            <==> |TextParts(c, ids, events)| <= 31
  {
    hide Given, StatusEvents, StreamedUpdates, UpToError, TextParts, Play;
    var us, texts := StreamedUpdates(c, ids, task, items), TextParts(c, ids, UpToError(items).0);
    StreamedShape(c, ids, author, task, items);
    FirstTextEventsAre(c, ids, author, task, UpToError(items).0);
    if |texts| <= SLOTS - 1 {
      forall pace: Pace ensures Given(c, ids, author, task, items, pace) ==
        FirstTextEvents(c, ids, author, task, UpToError(items).0) + StatusEvents(c, author, items)
      {
        FirstIsReceived(c, ids, author, task, items, pace);
        StreamedRun(c, ids, author, task, items, pace);
      }
    } else {
      var eager: Pace := _ => true;
      ManyTextsSurfaceNothing(c, ids, author, task, items, eager);
      assert |Given(c, ids, author, task, items, eager)| == |StatusEvents(c, author, items)|;
    }
  }

  /** A run with as many texts as there are slots, or more, that sends its updates at once: no text is given. */
  lemma ManyTextsSurfaceNothing(c: Codec, ids: Ids, author: string, task: Task, items: seq<Result<Event, string>>,
                                eager: Pace)
    requires NewId(task.artifacts, ids.artifactId) && task.status.state == Submitted
    requires |TextParts(c, ids, UpToError(items).0)| >= SLOTS && forall k: nat :: eager(k)
    ensures Given(c, ids, author, task, items, eager) == StatusEvents(c, author, items)
  {
    hide Given, StatusEvents, StreamedUpdates, UpToError, TextParts, Play, FirstTextEvents;
    StreamedShape(c, ids, author, task, items);
    ManyUpdatesLoseTheFirst(StreamedUpdates(c, ids, task, items), eager, 0, SUBSCRIBED);
    StreamedRun(c, ids, author, task, items, eager);
  }

  // ---- Whether the client has the whole text -----------------------------------------------------------

  /** The text of some events. */
  function TextOfEvents(events: seq<Event>): string {
    if events == [] then ""
    else
      var content := events[0].response.content;
      (if content.Some? then JoinedText(content.value.parts) else "") + TextOfEvents(events[1..])
  }

  /**
   * At every pace, the client has the whole text of the run before the final status exactly if at most one event of
   * the run carried text.
   */
  lemma StreamedTextCompleteIff(c: Codec, ids: Ids, author: string, task: Task, items: seq<Result<Event, string>>,
                                pace: Pace)
    requires NewId(task.artifacts, ids.artifactId) && task.status.state == Submitted
    ensures var given, status := Given(c, ids, author, task, items, pace), StatusEvents(c, author, items);
            var texts := TextParts(c, ids, UpToError(items).0);
            && |given| >= |status|
            && (TextOfEvents(given[..|given| - |status|]) == WireText(texts) <==> |texts| <= 1)
  {
    hide Given, StatusEvents, StreamedUpdates, UpToError, TextParts, Play, ChunkUpdates, StreamResultToEvents;
    var given, status := Given(c, ids, author, task, items, pace), StatusEvents(c, author, items);
    var events := UpToError(items).0;
    var texts, first := TextParts(c, ids, events), FirstTextEvents(c, ids, author, task, events);
    StreamedRun(c, ids, author, task, items, pace);
    FirstTextEventsAre(c, ids, author, task, events);
    OneUpdatePerText(c, ids, task, events);
    var got := given[..|given| - |status|];
    assert got == if FirstReceived(c, ids, task, items, pace) then first else [];
    if texts != [] {
      assert texts[0] in texts;
      OneTextEvent(first, texts[0].text);
      assert WireText(texts) == texts[0].text + WireText(texts[1..]);
      if |texts| > 1 {
        assert texts[1] in texts && texts[1..][0] == texts[1];
        assert |WireText(texts[1..])| >= |texts[1].text| > 0;
      } else {
        assert texts[1..] == [];
        FirstIsReceived(c, ids, author, task, items, pace);
      }
    }
  }

  lemma {:induction false} OneTextEvent(events: seq<Event>, text: string)
    requires |events| == 1 && events[0].response.content == Some(Content(Model, [Text(text)]))
    ensures TextOfEvents(events) == text
  {
    assert events[1..] == [] && [Text(text)][1..] == [];
    assert JoinedText([Text(text)]) == text + "" == text;
  }

  lemma FirstIsReceived(c: Codec, ids: Ids, author: string, task: Task, items: seq<Result<Event, string>>,
                                pace: Pace)
    requires NewId(task.artifacts, ids.artifactId) && |TextParts(c, ids, UpToError(items).0)| < SLOTS
    ensures FirstReceived(c, ids, task, items, pace)
  {
    hide StreamedUpdates, UpToError, TextParts, Play, StatusEvents;
    var us := StreamedUpdates(c, ids, task, items);
    StreamedShape(c, ids, author, task, items);
    FewUpdatesAllArrive(us, pace, 0, SUBSCRIBED);
    assert UpTo(|us|)[0] == 0;
  }

  // ---- The smallest run that loses its text ------------------------------------------------------------

  const SAYS_X: Event := NewEvent("agent", WithContent(Content(Model, [Text("x")])))

  function Says(n: nat): seq<Event> {
    seq(n, _ => SAYS_X)
  }

  function Stream(n: nat): seq<Result<Event, string>> {
    seq(n, _ => Ok(SAYS_X))
  }

  lemma {:induction false} SaysTexts(c: Codec, ids: Ids, n: nat)
    ensures |TextParts(c, ids, Says(n))| == n && !Paused(Says(n))
    decreases n
  {
    if n > 0 {
      assert Says(n)[..n - 1] == Says(n - 1);
      SaysTexts(c, ids, n - 1);
      assert MessageOf(c, ids, SAYS_X).value.parts == [TextPart("x", None)];
      assert [TextPart("x", None)][1..] == [] && WireText([TextPart("x", None)]) == "x" + "" == "x";
      assert TextOf(c, ids, SAYS_X) == "x";
    }
  }

  /** A run that says "x" 32 times: its client may be given nothing at all.  Of 31 it is always given the first. */
  lemma ThirtyTwoTextsMayAllBeLost(c: Codec, ids: Ids, author: string, task: Task, eager: Pace, pace: Pace)
    requires NewId(task.artifacts, ids.artifactId) && task.status.state == Submitted && forall k: nat :: eager(k)
    ensures Given(c, ids, author, task, Stream(32), eager) == []
    ensures |Given(c, ids, author, task, Stream(31), pace)| == 1
  {
    hide Given, TextParts, Paused, FirstTextEvents, FirstReceived, UpToError;
    forall n: nat ensures UpToError(Stream(n)) == (Says(n), None) && StatusEvents(c, author, Stream(n)) == [] {
      UpToErrorIs(Stream(n), Says(n));
      SaysTexts(c, ids, n);
    }
    SaysTexts(c, ids, 32);
    SaysTexts(c, ids, 31);
    hide StatusEvents;
    ManyTextsSurfaceNothing(c, ids, author, task, Stream(32), eager);
    StreamedRun(c, ids, author, task, Stream(31), pace);
    FirstIsReceived(c, ids, author, task, Stream(31), pace);
    FirstTextEventsAre(c, ids, author, task, Says(31));
  }
}
