/** Converting between agent content and A2A messages (src/a2a/mapping.rs). */
module Mapping {
  import opened Wrappers
  import opened Genai
  import opened A2aTypes

  /** How payloads are written as JSON and read back; `show` is JSON as text. */
  datatype Codec = Codec(
    encodeCall: FunctionCall -> Json, decodeCall: Json -> Option<FunctionCall>,
    encodeResponse: FunctionResponse -> Json, decodeResponse: Json -> Option<FunctionResponse>,
    encodeCode: Code -> Json, decodeCode: Json -> Option<Code>,
    encodeResult: CodeResult -> Json, decodeResult: Json -> Option<CodeResult>,
    show: Json -> string)

  ghost predicate Inverts(c: Codec) {
    && (forall x :: c.decodeCall(c.encodeCall(x)) == Some(x))
    && (forall x :: c.decodeResponse(c.encodeResponse(x)) == Some(x))
    && (forall x :: c.decodeCode(c.encodeCode(x)) == Some(x))
    && (forall x :: c.decodeResult(c.encodeResult(x)) == Some(x))
  }

  const CALL_KEY := "adk:functionCall"
  const RESPONSE_KEY := "adk:functionResponse"
  const CODE_KEY := "adk:executableCode"
  const RESULT_KEY := "adk:codeExecutionResult"
  const REDACTED_KEY := "adk:redactedThought"

  function Wrapped(key: string, value: Json): WirePart {
    DataPart(Object(map[key := value]), None)
  }

  function AdkPartToA2a(c: Codec, p: Part): WirePart {
    match p
    case Text(t) => TextPart(t, None)
    case Thinking(t) => TextPart(t.text, None)
    case RedactedThought(d) => Wrapped(REDACTED_KEY, String(d))
    case Call(fc) => Wrapped(CALL_KEY, c.encodeCall(fc))
    case Response(fr) => Wrapped(RESPONSE_KEY, c.encodeResponse(fr))
    case InlineData(d) => FilePart(Inline(d.displayName, Some(d.mimeType), d.data), None)
    case FileData(d) => FilePart(Uri(d.displayName, Some(d.mimeType), d.data), None)
    case ExecutableCode(code) => Wrapped(CODE_KEY, c.encodeCode(code))
    case CodeExecutionResult(r) => Wrapped(RESULT_KEY, c.encodeResult(r))
  }

  function Get(data: Json, key: string): Option<Json> {
    if data.Object? && key in data.fields then Some(data.fields[key]) else None
  }

  /** Read the value under a wrapper key, if it is there and reads as a payload. */
  function Unwrap<T>(data: Json, key: string, decode: Json -> Option<T>): Option<T> {
    var v := Get(data, key);
    if v.Some? then decode(v.value) else None
  }

  function OrEmpty(s: Option<string>): string {
    if s.Some? then s.value else ""
  }

  function A2aPartToAdk(c: Codec, p: WirePart): Part {
    match p
    case TextPart(t, _) => Text(t)
    case FilePart(Inline(name, mime, bytes), _) => InlineData(Blob(OrEmpty(mime), bytes, name))
    case FilePart(Uri(name, mime, uri), _) => FileData(Blob(OrEmpty(mime), uri, name))
    case DataPart(data, _) =>
      var call := Unwrap(data, CALL_KEY, c.decodeCall);
      if call.Some? then Call(call.value) else
      var response := Unwrap(data, RESPONSE_KEY, c.decodeResponse);
      if response.Some? then Response(response.value) else
      var code := Unwrap(data, CODE_KEY, c.decodeCode);
      if code.Some? then ExecutableCode(code.value) else
      var result := Unwrap(data, RESULT_KEY, c.decodeResult);
      if result.Some? then CodeExecutionResult(result.value) else Text(c.show(data))
  }

  function PartsToA2a(c: Codec, ps: seq<Part>): seq<WirePart> {
    seq(|ps|, i requires 0 <= i < |ps| => AdkPartToA2a(c, ps[i]))
  }

  function PartsToAdk(c: Codec, ps: seq<WirePart>): seq<Part> {
    seq(|ps|, i requires 0 <= i < |ps| => A2aPartToAdk(c, ps[i]))
  }

  function ContentToMessage(c: Codec, content: Content, contextId: Option<string>, taskId: Option<string>): Message {
    Message(if content.role == User then FromUser else FromAgent, PartsToA2a(c, content.parts), taskId, contextId)
  }

  function MessageToContent(c: Codec, m: Message): Content {
    Content(if m.role == FromUser then User else Model, PartsToAdk(c, m.parts))
  }

  function EventToMessage(c: Codec, e: Event, contextId: string, taskId: string): Option<Message> {
    if e.response.content.None? || e.response.content.value.parts == [] then None
    else Some(ContentToMessage(c, e.response.content.value, Some(contextId), Some(taskId)))
  }

  // ---- What survives the wire --------------------------------------------------------------------------

  function RoundTrip(c: Codec, p: Part): Part {
    A2aPartToAdk(c, AdkPartToA2a(c, p))
  }

  lemma KeysDiffer()
    ensures |CALL_KEY| == 16 && |RESPONSE_KEY| == 20 && |CODE_KEY| == 18 && |RESULT_KEY| == 23 && |REDACTED_KEY| == 19
  {
  }

  /** A part comes back as it was exactly if it is neither a thought nor a redacted thought. */
  lemma RoundTripIdentity(c: Codec, p: Part)
    requires Inverts(c)
    ensures RoundTrip(c, p) == p <==> !p.Thinking? && !p.RedactedThought?
    ensures p.Thinking? ==> RoundTrip(c, p) == Text(p.thought.text)
    ensures p.RedactedThought? ==> RoundTrip(c, p).Text?
  {
    KeysDiffer();
  }

  /** A second round trip changes nothing. */
  lemma RoundTripIdempotent(c: Codec, p: Part)
    requires Inverts(c)
    ensures RoundTrip(c, RoundTrip(c, p)) == RoundTrip(c, p)
  {
    RoundTripIdentity(c, p);
    RoundTripIdentity(c, RoundTrip(c, p));
  }

  /** Content keeps its parts, up to the round trip of each, and is the user's before exactly if it is after. */
  lemma ContentRoundTrip(c: Codec, content: Content, contextId: Option<string>, taskId: Option<string>)
    ensures var back := MessageToContent(c, ContentToMessage(c, content, contextId, taskId));
            && |back.parts| == |content.parts|
            && (forall i | 0 <= i < |content.parts| :: back.parts[i] == RoundTrip(c, content.parts[i]))
            && back.role == if content.role == User then User else Model
  {
  }

  /** The wire form of each kind of part; what has no counterpart is data under a key of its own. */
  lemma WireForms(c: Codec, p: Part)
    ensures var q := AdkPartToA2a(c, p);
            && (p.Text? ==> q == TextPart(p.text, None)) && (p.Thinking? ==> q == TextPart(p.thought.text, None))
            && (p.InlineData? ==> q == FilePart(Inline(p.blob.displayName, Some(p.blob.mimeType), p.blob.data), None))
            && (p.FileData? ==> q == FilePart(Uri(p.blob.displayName, Some(p.blob.mimeType), p.blob.data), None))
            && (p.Call? ==> q == DataPart(Object(map["adk:functionCall" := c.encodeCall(p.call)]), None))
            && (p.Response? ==>
                  q == DataPart(Object(map["adk:functionResponse" := c.encodeResponse(p.response)]), None))
            && (p.ExecutableCode? ==> q == DataPart(Object(map["adk:executableCode" := c.encodeCode(p.code)]), None))
            && (p.CodeExecutionResult? ==>
                  q == DataPart(Object(map["adk:codeExecutionResult" := c.encodeResult(p.result)]), None))
            && (p.RedactedThought? ==> q == DataPart(Object(map["adk:redactedThought" := String(p.opaqueData)]), None))
  {
  }

  /** A message for each event with parts: the user's exactly if its content is, under both ids. */
  lemma MessageCarriesIds(c: Codec, e: Event, contextId: string, taskId: string)
    ensures var m := EventToMessage(c, e, contextId, taskId);
            && (m.Some? <==> e.response.content.Some? && e.response.content.value.parts != [])
            && (m.Some? ==>
                  && (m.value.role == FromUser <==> e.response.content.value.role == User)
                  && m.value.contextId == Some(contextId) && m.value.taskId == Some(taskId)
                  && |m.value.parts| == |e.response.content.value.parts|
                  && forall i | 0 <= i < |m.value.parts| ::
                       m.value.parts[i] == AdkPartToA2a(c, e.response.content.value.parts[i]))
  {
  }
}
