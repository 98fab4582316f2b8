/** The content model of the agent runtime (src/genai_types, src/core/event.rs, src/core/llm_response.rs). */
module Genai {
  import opened Wrappers

  datatype Json =
    | Null
    | Bool(b: bool)
    | Number(n: int)
    | String(s: string)
    | Array(items: seq<Json>)
    | Object(fields: map<string, Json>)

  datatype Role = User | Model | Tool | System

  datatype Thought = Thought(text: string, signature: Option<string>)

  datatype FunctionCall = FunctionCall(id: Option<string>, name: string, args: Json, thoughtSignature: Option<string>)

  datatype FunctionResponse = FunctionResponse(
    id: Option<string>, name: string, response: Json, willContinue: Option<bool>, scheduling: Option<string>)

  datatype Blob = Blob(mimeType: string, data: string, displayName: Option<string>)

  datatype Code = Code(language: string, code: string)

  datatype Outcome = Unspecified | Success | Failed | DeadlineExceeded

  datatype CodeResult = CodeResult(outcome: Outcome, output: Option<string>)

  datatype Part =
    | Text(text: string)
    | InlineData(blob: Blob)
    | FileData(blob: Blob)
    | Call(call: FunctionCall)
    | Response(response: FunctionResponse)
    | ExecutableCode(code: Code)
    | CodeExecutionResult(result: CodeResult)
    | Thinking(thought: Thought)
    | RedactedThought(opaqueData: string)

  datatype Content = Content(role: Role, parts: seq<Part>)

  /** `custom` is the one field that folding streamed chunks never sets. */
  datatype LlmResponse = LlmResponse(
    content: Option<Content>,
    modelVersion: Option<string>,
    finishReason: Option<string>,
    usage: Option<string>,
    cache: Option<string>,
    grounding: Option<string>,
    citation: Option<string>,
    errorCode: Option<string>,
    errorMessage: Option<string>,
    interrupted: Option<bool>,
    custom: Option<Json>)

  const EMPTY_RESPONSE: LlmResponse :=
    LlmResponse(None, None, None, None, None, None, None, None, None, None, None)

  datatype ToolConfirmation = ToolConfirmation(hint: string, confirmed: bool, payload: Option<Json>)

  datatype EventActions = EventActions(
    skipSummarization: Option<bool>,
    stateDelta: map<string, Json>,
    artifactDelta: map<string, nat>,
    transferToAgent: Option<string>,
    escalate: Option<bool>,
    requestedConfirmations: map<string, ToolConfirmation>,
    agentState: Option<Json>)

  const NO_ACTIONS: EventActions := EventActions(None, map[], map[], None, None, map[], None)

  datatype Event = Event(
    id: string,
    invocationId: string,
    author: string,
    branch: Option<string>,
    response: LlmResponse,
    actions: EventActions,
    longRunningToolIds: Option<seq<string>>,
    partial: Option<bool>,
    turnComplete: Option<bool>)

  /** A new event of `author`; ids are fresh in the source and are not told apart here. */
  function NewEvent(author: string, response: LlmResponse): Event {
    Event("", "", author, None, response, NO_ACTIONS, None, None, None)
  }

  function WithContent(content: Content): LlmResponse {
    EMPTY_RESPONSE.(content := Some(content))
  }

  function CallsIn(parts: seq<Part>): seq<FunctionCall> {
    if parts == [] then []
    else (if parts[0].Call? then [parts[0].call] else []) + CallsIn(parts[1..])
  }

  function FunctionCalls(e: Event): seq<FunctionCall> {
    if e.response.content.Some? then CallsIn(e.response.content.value.parts) else []
  }

  /** The text parts, joined. */
  function JoinedText(parts: seq<Part>): string {
    if parts == [] then ""
    else (if parts[0].Text? then parts[0].text else "") + JoinedText(parts[1..])
  }

  /** Every call among the parts, and nothing else, is one of the event's calls, in its place among the others. */
  lemma {:induction false} EachCallOnce(before: seq<Part>, p: Part, after: seq<Part>)
    ensures CallsIn(before + [p] + after) == CallsIn(before) + (if p.Call? then [p.call] else []) + CallsIn(after)
    decreases before
  {
    var all := before + [p] + after;
    if before == [] {
      assert all[0] == p && all[1..] == after;
    } else {
      assert all[0] == before[0] && all[1..] == before[1..] + [p] + after;
      EachCallOnce(before[1..], p, after);
      Associate(if before[0].Call? then [before[0].call] else [], CallsIn(before[1..]),
                if p.Call? then [p.call] else [], CallsIn(after));
    }
  }

  /** Every text among the parts is in the joined text, in its place among the others. */
  lemma {:induction false} EachTextOnce(before: seq<Part>, p: Part, after: seq<Part>)
    ensures JoinedText(before + [p] + after) ==
            JoinedText(before) + (if p.Text? then p.text else "") + JoinedText(after)
    decreases before
  {
    var all := before + [p] + after;
    if before == [] {
      assert all[0] == p && all[1..] == after;
    } else {
      assert all[0] == before[0] && all[1..] == before[1..] + [p] + after;
      EachTextOnce(before[1..], p, after);
      Associate(if before[0].Text? then before[0].text else "", JoinedText(before[1..]),
                if p.Text? then p.text else "", JoinedText(after));
    }
  }
}
