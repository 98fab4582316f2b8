/** The A2A data model (src/a2a/types.rs; A2A Protocol Specification v0.2, sections 6.1 to 6.7 and 7.2). */
module A2aTypes {
  import opened Wrappers
  import opened Genai

  datatype MessageRole = FromUser | FromAgent

  datatype FilePayload =
    | Inline(name: Option<string>, mimeType: Option<string>, bytes: string)
    | Uri(name: Option<string>, mimeType: Option<string>, uri: string)

  datatype WirePart =
    | TextPart(text: string, metadata: Option<Json>)
    | FilePart(file: FilePayload, metadata: Option<Json>)
    | DataPart(data: Json, metadata: Option<Json>)

  datatype Message = Message(
    role: MessageRole, parts: seq<WirePart>, taskId: Option<string>, contextId: Option<string>)

  /** Section 6.3 of the A2A Protocol Specification v0.2: the closed set of task states. */
  datatype TaskState =
    | Submitted | Working | InputRequired | Completed | Canceled | Failed | Rejected | AuthRequired | Unknown

  predicate IsTerminal(s: TaskState) {
    s in {TaskState.Completed, Canceled, TaskState.Failed, Rejected}
  }

  /** No further transition is possible from exactly these states. */
  lemma TerminalStates()
    ensures IsTerminal(TaskState.Completed) && IsTerminal(Canceled) && IsTerminal(TaskState.Failed)
    ensures IsTerminal(Rejected)
    ensures !IsTerminal(Submitted) && !IsTerminal(Working) && !IsTerminal(InputRequired)
    ensures !IsTerminal(AuthRequired) && !IsTerminal(Unknown)
  {
  }

  datatype TaskStatus = TaskStatus(state: TaskState, message: Option<Message>)

  /** Section 6.7 of the A2A Protocol Specification v0.2. */
  datatype Artifact = Artifact(
    artifactId: string, name: Option<string>, description: Option<string>, parts: seq<WirePart>,
    index: Option<nat>, append: Option<bool>, lastChunk: Option<bool>, metadata: Option<map<string, Json>>)

  datatype Task = Task(
    id: string, contextId: string, status: TaskStatus, artifacts: seq<Artifact>, history: seq<Message>,
    metadata: Option<map<string, Json>>)

  /** Sections 7.2.2 and 7.2.3 of the A2A Protocol Specification v0.2. */
  datatype TaskUpdate =
    | StatusUpdate(taskId: string, contextId: string, status: TaskStatus, isFinal: bool)
    | ArtifactUpdate(taskId: string, contextId: string, artifact: Artifact)

  /** What a `message/stream` response carries, frame by frame. */
  datatype StreamingResult = Snapshot(task: Task) | Standalone(message: Message) | Live(update: TaskUpdate)

  /** The text parts, joined. */
  function WireText(parts: seq<WirePart>): string {
    if parts == [] then ""
    else (if parts[0].TextPart? then parts[0].text else "") + WireText(parts[1..])
  }

  lemma {:induction false} WireTextConcat(xs: seq<WirePart>, ys: seq<WirePart>)
    ensures WireText(xs + ys) == WireText(xs) + WireText(ys)
    decreases xs
  {
    if xs == [] {
      assert xs + ys == ys;
    } else {
      var h := if xs[0].TextPart? then xs[0].text else "";
      WireTextConcat(xs[1..], ys);
      assert (xs + ys)[0] == xs[0] && (xs + ys)[1..] == xs[1..] + ys;
      Regroup(h, WireText(xs[1..]), WireText(ys));
    }
  }
}
