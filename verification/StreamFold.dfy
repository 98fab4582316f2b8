/**
 * Folding streamed model output (src/agents/llm_agent.rs, `merge_stream_chunk`).
 *
 * The agent loop sees one response per turn, whether the model sent it whole or in chunks.  `Normalize` says what
 * that response must be from the parts alone; the fold is proved to reach it however the stream was cut.
 */
module StreamFold {
  import opened Wrappers
  import opened Genai

  // ---- The fold, as the source steps it ----------------------------------------------------------------

  /** Two neighbours that the fold joins into one part. */
  predicate Joinable(a: Part, b: Part) {
    (a.Text? && b.Text?) || (a.Thinking? && b.Thinking?)
  }

  function Join(a: Part, b: Part): Part
    requires Joinable(a, b)
  {
    if a.Text? then Text(a.text + b.text)
    else Thinking(Thought(a.thought.text + b.thought.text, Or(b.thought.signature, a.thought.signature)))
  }

  function PushPart(acc: seq<Part>, p: Part): seq<Part> {
    if acc != [] && Joinable(acc[|acc| - 1], p)
    then acc[..|acc| - 1] + [Join(acc[|acc| - 1], p)]
    else acc + [p]
  }

  function PushParts(acc: seq<Part>, ps: seq<Part>): seq<Part>
    decreases ps
  {
    if ps == [] then acc else PushParts(PushPart(acc, ps[0]), ps[1..])
  }

  function MergeContent(agg: Option<Content>, chunk: Option<Content>): Option<Content> {
    match chunk
    case None => agg
    case Some(c) =>
      var target := if agg.Some? then agg.value else Content(c.role, []);
      Some(Content(target.role, PushParts(target.parts, c.parts)))
  }

  function Merge(agg: LlmResponse, chunk: LlmResponse): LlmResponse {
    LlmResponse(
      MergeContent(agg.content, chunk.content),
      Or(chunk.modelVersion, agg.modelVersion),
      Or(chunk.finishReason, agg.finishReason),
      Or(chunk.usage, agg.usage),
      Or(chunk.cache, agg.cache),
      Or(chunk.grounding, agg.grounding),
      Or(chunk.citation, agg.citation),
      Or(chunk.errorCode, agg.errorCode),
      Or(chunk.errorMessage, agg.errorMessage),
      Or(chunk.interrupted, agg.interrupted),
      agg.custom)
  }

  function Fold(agg: LlmResponse, chunks: seq<LlmResponse>): LlmResponse
    decreases chunks
  {
    if chunks == [] then agg else Fold(Merge(agg, chunks[0]), chunks[1..])
  }

  /** The response that the agent loop works on after a stream of `chunks`. */
  function Aggregate(chunks: seq<LlmResponse>): LlmResponse {
    Fold(EMPTY_RESPONSE, chunks)
  }

  /** The aggregate that the agent keeps while it drains a stream. */
  class Accumulator {
    var content: Option<Content>
    var modelVersion: Option<string>
    var finishReason: Option<string>
    var usage: Option<string>
    var cache: Option<string>
    var grounding: Option<string>
    var citation: Option<string>
    var errorCode: Option<string>
    var errorMessage: Option<string>
    var interrupted: Option<bool>

    function Value(): LlmResponse
      reads this
    {
      LlmResponse(content, modelVersion, finishReason, usage, cache, grounding, citation, errorCode, errorMessage,
                  interrupted, None)
    }

    constructor ()
      ensures Value() == EMPTY_RESPONSE
    {
      content, modelVersion, finishReason, usage, cache := None, None, None, None, None;
      grounding, citation, errorCode, errorMessage, interrupted := None, None, None, None, None;
    }

    method MergeStreamChunk(chunk: LlmResponse)
      modifies this
      ensures Value() == Merge(old(Value()), chunk)
    {
      if chunk.content.Some? {
        var c := chunk.content.value;
        var target := if content.Some? then content.value else Content(c.role, []);
        var parts := AppendParts(target.parts, c.parts);
        content := Some(Content(target.role, parts));
      }
      modelVersion := Or(chunk.modelVersion, modelVersion);
      finishReason := Or(chunk.finishReason, finishReason);
      usage := Or(chunk.usage, usage);
      cache := Or(chunk.cache, cache);
      grounding := Or(chunk.grounding, grounding);
      citation := Or(chunk.citation, citation);
      errorCode := Or(chunk.errorCode, errorCode);
      errorMessage := Or(chunk.errorMessage, errorMessage);
      interrupted := Or(chunk.interrupted, interrupted);
    }

    /** The loop of the source over a chunk's parts: extend the last part or append. */
    static method AppendParts(target: seq<Part>, ps: seq<Part>) returns (parts: seq<Part>)
      ensures parts == PushParts(target, ps)
    {
      parts := target;
      for i := 0 to |ps|
        invariant PushParts(parts, ps[i..]) == PushParts(target, ps)
      {
        var p, last := ps[i], |parts| - 1;
        assert ps[i..][0] == p && ps[i..][1..] == ps[i + 1..];
        ghost var next := PushPart(parts, p);
        if last >= 0 && parts[last].Text? && p.Text? {
          parts := parts[last := Text(parts[last].text + p.text)];
        } else if last >= 0 && parts[last].Thinking? && p.Thinking? {
          var signature := if p.thought.signature.Some? then p.thought.signature else parts[last].thought.signature;
          parts := parts[last := Thinking(Thought(parts[last].thought.text + p.thought.text, signature))];
        } else {
          parts := parts + [p];
        }
        assert parts == next;
      }
    }
  }

  // ---- What the fold must reach ------------------------------------------------------------------------

  /** Every maximal run of text parts, and of thought parts, joined into one. */
  function Normalize(ps: seq<Part>): seq<Part> {
    if ps == [] then [] else Prepend(ps[0], Normalize(ps[1..]))
  }

  function Prepend(p: Part, rest: seq<Part>): seq<Part> {
    if rest != [] && Joinable(p, rest[0]) then [Join(p, rest[0])] + rest[1..] else [p] + rest
  }

  ghost predicate NoNeighboursJoin(ps: seq<Part>) {
    forall i | 0 <= i < |ps| - 1 :: !Joinable(ps[i], ps[i + 1])
  }

  function AllParts(chunks: seq<LlmResponse>): seq<Part> {
    if chunks == [] then []
    else (if chunks[0].content.Some? then chunks[0].content.value.parts else []) + AllParts(chunks[1..])
  }

  function FirstRole(chunks: seq<LlmResponse>): Option<Role> {
    if chunks == [] then None
    else if chunks[0].content.Some? then Some(chunks[0].content.value.role)
    else FirstRole(chunks[1..])
  }

  /** The last value that some chunk carries in the field `get`. */
  function LastOf<T>(chunks: seq<LlmResponse>, get: LlmResponse -> Option<T>): Option<T> {
    if chunks == [] then None
    else if get(chunks[|chunks| - 1]).Some? then get(chunks[|chunks| - 1])
    else LastOf(chunks[..|chunks| - 1], get)
  }

  // ---- Normal forms ------------------------------------------------------------------------------------

  lemma PrependAtFront(h: Part, a: Part, rest: seq<Part>)
    ensures Prepend(h, [a] + rest) == (if Joinable(h, a) then [Join(h, a)] else [h, a]) + rest
  {
    hide Joinable, Join;
    assert ([a] + rest)[1..] == rest && [h] + ([a] + rest) == [h, a] + rest;
  }

  lemma PushAtEnd(init: seq<Part>, z: Part, p: Part)
    ensures PushPart(init + [z], p) == init + (if Joinable(z, p) then [Join(z, p)] else [z, p])
  {
    hide Joinable, Join;
    assert (init + [z])[..|init|] == init && (init + [z]) + [p] == init + [z, p];
  }

  /** Pushing at the end and prepending at the front commute. */
  lemma PrependPush(h: Part, n: seq<Part>, p: Part)
    ensures Prepend(h, PushPart(n, p)) == PushPart(Prepend(h, n), p)
  {
    if |n| == 0 {
      PrependPushEmpty(h, p);
    } else if |n| == 1 {
      PrependPushOne(h, n[0], p);
      assert n == [n[0]];
    } else {
      var mid := n[1..|n| - 1];
      assert n == [n[0]] + mid + [n[|n| - 1]];
      hide *;
      PrependPushMany(h, n[0], mid, n[|n| - 1], p);
    }
  }

  lemma PrependToOne(h: Part, q: Part)
    ensures Prepend(h, []) == [h]
    ensures Prepend(h, [q]) == if Joinable(h, q) then [Join(h, q)] else [h, q]
  {
    hide Joinable, Join;
    assert [q][1..] == [];
  }

  lemma PushToOne(q: Part, p: Part)
    ensures PushPart([], p) == [p]
    ensures PushPart([q], p) == if Joinable(q, p) then [Join(q, p)] else [q, p]
  {
    hide Joinable, Join;
    assert [q][..0] == [];
  }

  lemma PrependPushEmpty(h: Part, p: Part)
    ensures Prepend(h, PushPart([], p)) == PushPart(Prepend(h, []), p)
  {
    hide *;
    PrependToOne(h, p);
    PushToOne(h, p);
  }

  lemma PrependPushOne(h: Part, q: Part, p: Part)
    ensures Prepend(h, PushPart([q], p)) == PushPart(Prepend(h, [q]), p)
  {
    JoinableThrough(h, q, p);
    if Joinable(h, q) && Joinable(q, p) {
      JoinAssociative(h, q, p);
    }
    hide *;
    PrependToOne(h, q);
    PushToOne(q, p);
    if Joinable(q, p) {
      PrependToOne(h, Join(q, p));
    } else {
      PrependAtFront(h, q, [p]);
      assert [q] + [p] == [q, p];
    }
    if Joinable(h, q) {
      PushToOne(Join(h, q), p);
    } else {
      PushAtEnd([h], q, p);
      assert [h] + [q] == [h, q];
    }
  }

  /** Both sides work on different ends. */
  lemma PrependPushMany(h: Part, a: Part, mid: seq<Part>, z: Part, p: Part)
    ensures var n := [a] + mid + [z]; Prepend(h, PushPart(n, p)) == PushPart(Prepend(h, n), p)
  {
    hide *;
    var front := if Joinable(h, a) then [Join(h, a)] else [h, a];
    var back := if Joinable(z, p) then [Join(z, p)] else [z, p];
    PushAtEnd([a] + mid, z, p);
    PrependAtFront(h, a, mid + back);
    PrependAtFront(h, a, mid + [z]);
    PushAtEnd(front + mid, z, p);
    assert [a] + mid + back == [a] + (mid + back) && [a] + mid + [z] == [a] + (mid + [z]);
    assert front + (mid + back) == front + mid + back && front + (mid + [z]) == front + mid + [z];
  }

  /** Joining does not change what a part joins with. */
  lemma JoinableThrough(a: Part, b: Part, c: Part)
    ensures Joinable(a, b) ==> (Joinable(Join(a, b), c) <==> Joinable(b, c))
    ensures Joinable(a, b) ==> (Joinable(c, Join(a, b)) <==> Joinable(c, a))
    ensures Joinable(b, c) ==> (Joinable(a, Join(b, c)) <==> Joinable(a, b))
  {
  }

  lemma {:induction false} NormalizeSnoc(ps: seq<Part>, p: Part)
    ensures Normalize(ps + [p]) == PushPart(Normalize(ps), p)
    decreases ps
  {
    if ps == [] {
      assert ps + [p] == [p];
    } else {
      assert (ps + [p])[1..] == ps[1..] + [p];
      NormalizeSnoc(ps[1..], p);
      PrependPush(ps[0], Normalize(ps[1..]), p);
    }
  }

  lemma JoinAssociative(a: Part, b: Part, c: Part)
    requires Joinable(a, b) && Joinable(b, c)
    ensures Joinable(Join(a, b), c) && Joinable(a, Join(b, c))
    ensures Join(Join(a, b), c) == Join(a, Join(b, c))
  {
    if a.Text? {
      assert (a.text + b.text) + c.text == a.text + (b.text + c.text);
    } else {
      assert (a.thought.text + b.thought.text) + c.thought.text == a.thought.text + (b.thought.text + c.thought.text);
    }
  }

  /** The fold over parts reaches the normal form. */
  lemma {:induction false} PushPartsNormalizes(ps: seq<Part>, qs: seq<Part>)
    ensures PushParts(Normalize(ps), qs) == Normalize(ps + qs)
    decreases qs
  {
    hide PushPart;
    hide Normalize;
    if qs == [] {
      assert ps + qs == ps;
    } else {
      NormalizeSnoc(ps, qs[0]);
      PushPartsNormalizes(ps + [qs[0]], qs[1..]);
      assert ps + qs == ps + [qs[0]] + qs[1..];
    }
  }

  /** The result never has two adjacent text parts, nor two adjacent thoughts. */
  lemma {:induction false} NormalizeIsNormal(ps: seq<Part>)
    ensures NoNeighboursJoin(Normalize(ps))
    ensures ps != [] ==> Normalize(ps) != [] && (Normalize(ps)[0].Text? <==> ps[0].Text?)
                         && (Normalize(ps)[0].Thinking? <==> ps[0].Thinking?)
    decreases ps
  {
    if ps != [] {
      NormalizeIsNormal(ps[1..]);
    }
  }

  /** Parts without joinable neighbours are left as they are, so normalizing twice changes nothing. */
  lemma {:induction false} NormalIsFixed(ps: seq<Part>)
    requires NoNeighboursJoin(ps)
    ensures Normalize(ps) == ps
    decreases ps
  {
    if ps != [] {
      forall i | 0 <= i < |ps[1..]| - 1 ensures !Joinable(ps[1..][i], ps[1..][i + 1]) {
        assert !Joinable(ps[i + 1], ps[i + 2]);
      }
      NormalIsFixed(ps[1..]);
    }
  }

  /** Cutting one delta in two, anywhere, does not change the normal form. */
  lemma {:induction false} SplitDelta(xs: seq<Part>, a: Part, b: Part, ys: seq<Part>)
    requires Joinable(a, b)
    ensures Normalize(xs + [a, b] + ys) == Normalize(xs + [Join(a, b)] + ys)
    decreases xs
  {
    if xs == [] {
      assert xs + [a, b] + ys == [a] + ([b] + ys);
      assert xs + [Join(a, b)] + ys == [Join(a, b)] + ys;
      assert ([a] + ([b] + ys))[1..] == [b] + ys;
      assert ([b] + ys)[1..] == ys == ([Join(a, b)] + ys)[1..];
      var n := Normalize(ys);
      if n != [] && Joinable(b, n[0]) {
        JoinAssociative(a, b, n[0]);
      }
    } else {
      SplitDelta(xs[1..], a, b, ys);
      assert (xs + [a, b] + ys)[1..] == xs[1..] + [a, b] + ys;
      assert (xs + [Join(a, b)] + ys)[1..] == xs[1..] + [Join(a, b)] + ys;
    }
  }

  /** The parts that do not stream: they arrive whole and must stay whole. */
  function Whole(ps: seq<Part>): seq<Part> {
    if ps == [] then []
    else (if ps[0].Text? || ps[0].Thinking? then [] else [ps[0]]) + Whole(ps[1..])
  }

  function ThoughtConcat(ps: seq<Part>): string {
    if ps == [] then ""
    else (if ps[0].Thinking? then ps[0].thought.text else "") + ThoughtConcat(ps[1..])
  }

  /** Nothing is lost, duplicated or reordered: text, thoughts and whole parts are those of the chunks. */
  lemma {:induction false} NormalizeConserves(ps: seq<Part>)
    ensures JoinedText(Normalize(ps)) == JoinedText(ps)
    ensures ThoughtConcat(Normalize(ps)) == ThoughtConcat(ps)
    ensures Whole(Normalize(ps)) == Whole(ps)
    decreases ps
  {
    if ps != [] {
      NormalizeConserves(ps[1..]);
      PrependConserves(ps[0], Normalize(ps[1..]));
      assert [ps[0]] + ps[1..] == ps;
      ConsConserves(ps[0], ps[1..]);
    }
  }

  function TextIn(p: Part): string { if p.Text? then p.text else "" }

  function ThoughtIn(p: Part): string { if p.Thinking? then p.thought.text else "" }

  function WholeIn(p: Part): seq<Part> { if p.Text? || p.Thinking? then [] else [p] }

  lemma ConsConserves(h: Part, n: seq<Part>)
    ensures JoinedText([h] + n) == TextIn(h) + JoinedText(n)
    ensures ThoughtConcat([h] + n) == ThoughtIn(h) + ThoughtConcat(n)
    ensures Whole([h] + n) == WholeIn(h) + Whole(n)
  {
    assert ([h] + n)[1..] == n;
  }

  lemma PrependConserves(h: Part, n: seq<Part>)
    ensures JoinedText(Prepend(h, n)) == TextIn(h) + JoinedText(n)
    ensures ThoughtConcat(Prepend(h, n)) == ThoughtIn(h) + ThoughtConcat(n)
    ensures Whole(Prepend(h, n)) == WholeIn(h) + Whole(n)
  {
    if n != [] && Joinable(h, n[0]) {
      var rest := n[1..];
      assert n == [n[0]] + rest && Prepend(h, n) == [Join(h, n[0])] + rest;
      JoinConserves(h, n[0]);
      hide *;
      ConsConserves(n[0], rest);
      ConsConserves(Join(h, n[0]), rest);
    } else {
      ConsConserves(h, n);
    }
  }

  lemma JoinConserves(a: Part, b: Part)
    requires Joinable(a, b)
    ensures forall s :: TextIn(Join(a, b)) + s == TextIn(a) + (TextIn(b) + s)
    ensures forall s :: ThoughtIn(Join(a, b)) + s == ThoughtIn(a) + (ThoughtIn(b) + s)
    ensures forall s :: WholeIn(Join(a, b)) + s == WholeIn(a) + (WholeIn(b) + s)
  {
    forall s: string ensures TextIn(Join(a, b)) + s == TextIn(a) + (TextIn(b) + s) {
    }
  }

  // ---- The fold over chunks ----------------------------------------------------------------------------

  // ---- A run of thoughts -------------------------------------------------------------------------------

  function Thoughts(ts: seq<Thought>): seq<Part> {
    seq(|ts|, i requires 0 <= i < |ts| => Thinking(ts[i]))
  }

  function Said(ts: seq<Thought>): string {
    if ts == [] then "" else Said(ts[..|ts| - 1]) + ts[|ts| - 1].text
  }

  /** The signature is the last that is present; none, if none is. */
  ghost predicate LastSigned(ts: seq<Thought>, signature: Option<string>) {
    if signature.None? then forall i | 0 <= i < |ts| :: ts[i].signature.None?
    else exists i :: SignedLast(ts, i) && ts[i].signature == signature
  }

  ghost predicate SignedLast(ts: seq<Thought>, i: int) {
    0 <= i < |ts| && ts[i].signature.Some? && forall j | i < j < |ts| :: ts[j].signature.None?
  }

  lemma SignedSnoc(ts: seq<Thought>, signature: Option<string>, t: Thought)
    requires LastSigned(ts, signature)
    ensures LastSigned(ts + [t], if t.signature.Some? then t.signature else signature)
  {
    if t.signature.Some? {
      assert SignedLast(ts + [t], |ts|);
    } else if signature.Some? {
      var i :| SignedLast(ts, i) && ts[i].signature == signature;
      assert SignedLast(ts + [t], i);
    }
  }

  /** The parts after a run of thoughts: one thought with all their text and the last signature among them. */
  ghost predicate EndsInThought(base: seq<Part>, ts: seq<Thought>, parts: seq<Part>) {
    && |parts| == |base| + 1 && parts[..|base|] == base && parts[|base|].Thinking?
    && parts[|base|].thought.text == Said(ts) && LastSigned(ts, parts[|base|].thought.signature)
  }

  lemma FirstThought(base: seq<Part>, t: Thought)
    requires base == [] || !base[|base| - 1].Thinking?
    ensures EndsInThought(base, [t], PushPart(base, Thinking(t)))
  {
    SignedSnoc([], None, t);
    assert [] + [t] == [t] && [t][..0] == [];
    assert Said([t]) == "" + t.text == t.text;
  }

  lemma NextThought(base: seq<Part>, ts: seq<Thought>, parts: seq<Part>, t: Thought)
    requires EndsInThought(base, ts, parts)
    ensures EndsInThought(base, ts + [t], PushPart(parts, Thinking(t)))
  {
    var last := parts[|base|].thought;
    SignedSnoc(ts, last.signature, t);
    hide LastSigned;
    assert (ts + [t])[..|ts|] == ts;
  }

  /** Thoughts that follow one another become one, with all their text and the last signature among them. */
  lemma {:induction false} ThoughtsBecomeOne(before: seq<Part>, ts: seq<Thought>)
    requires ts != [] && (before == [] || !before[|before| - 1].Thinking?)
    ensures EndsInThought(Normalize(before), ts, Normalize(before + Thoughts(ts)))
    decreases ts
  {
    hide EndsInThought, Normalize;
    var n := |ts| - 1;
    var last := Thinking(ts[n]);
    var all := before + Thoughts(ts[..n]);
    assert before + Thoughts(ts) == all + [last];
    assert ts[..n] + [ts[n]] == ts;
    NormalizeSnoc(all, last);
    if n == 0 {
      assert all == before && ts == [ts[0]];
      LastStays(before);
      FirstThought(Normalize(before), ts[0]);
    } else {
      ThoughtsBecomeOne(before, ts[..n]);
      NextThought(Normalize(before), ts[..n], Normalize(all), ts[n]);
    }
  }

  lemma LastStays(ps: seq<Part>)
    ensures if ps == [] then Normalize(ps) == []
            else Normalize(ps) != []
                 && (Normalize(ps)[|Normalize(ps)| - 1].Thinking? <==> ps[|ps| - 1].Thinking?)
  {
    if ps != [] {
      var n := |ps| - 1;
      assert ps[..n] + [ps[n]] == ps;
      hide Normalize;
      NormalizeSnoc(ps[..n], ps[n]);
      LastPushed(Normalize(ps[..n]), ps[n]);
    }
  }

  lemma LastPushed(acc: seq<Part>, p: Part)
    ensures var parts := PushPart(acc, p);
            parts != [] && (parts[|parts| - 1].Thinking? <==> p.Thinking?)
  {
  }

  lemma {:induction false} FoldSnoc(agg: LlmResponse, cs: seq<LlmResponse>, c: LlmResponse)
    ensures Fold(agg, cs + [c]) == Merge(Fold(agg, cs), c)
    decreases cs
  {
    if cs == [] {
      assert cs + [c] == [c];
    } else {
      assert (cs + [c])[0] == cs[0] && (cs + [c])[1..] == cs[1..] + [c];
      FoldSnoc(Merge(agg, cs[0]), cs[1..], c);
    }
  }

  lemma {:induction false} AllPartsConcat(a: seq<LlmResponse>, b: seq<LlmResponse>)
    ensures AllParts(a + b) == AllParts(a) + AllParts(b)
    ensures FirstRole(a + b) == Or(FirstRole(a), FirstRole(b))
    decreases a
  {
    if a == [] {
      assert a + b == b;
    } else {
      assert (a + b)[0] == a[0] && (a + b)[1..] == a[1..] + b;
      AllPartsConcat(a[1..], b);
    }
  }

  function ExpectedContent(chunks: seq<LlmResponse>): Option<Content> {
    match FirstRole(chunks)
    case None => None
    case Some(role) => Some(Content(role, Normalize(AllParts(chunks))))
  }

  lemma {:induction false} NoRoleNoParts(chunks: seq<LlmResponse>)
    requires FirstRole(chunks) == None
    ensures AllParts(chunks) == []
    decreases chunks
  {
    if chunks != [] {
      NoRoleNoParts(chunks[1..]);
    }
  }

  /**
   * The aggregate's content is the first chunk's role with the normal form of all parts: it does not depend on
   * where the stream was cut.
   */
  lemma {:induction false} AggregateContent(chunks: seq<LlmResponse>)
    ensures Aggregate(chunks).content == ExpectedContent(chunks)
    ensures Aggregate(chunks).custom == None
    decreases chunks
  {
    if chunks != [] {
      var cs, c := chunks[..|chunks| - 1], chunks[|chunks| - 1];
      assert chunks == cs + [c];
      AggregateContent(cs);
      FoldSnoc(EMPTY_RESPONSE, cs, c);
      AllPartsConcat(cs, [c]);
      if c.content.Some? {
        var ps := c.content.value.parts;
        assert AllParts([c]) == ps + AllParts([]) == ps;
        if FirstRole(cs) == None {
          NoRoleNoParts(cs);
        }
        PushPartsNormalizes(AllParts(cs), ps);
      } else {
        assert AllParts(cs) + AllParts([c]) == AllParts(cs);
      }
    }
  }

  lemma AggregateSnoc(chunks: seq<LlmResponse>)
    requires chunks != []
    ensures Aggregate(chunks) == Merge(Aggregate(chunks[..|chunks| - 1]), chunks[|chunks| - 1])
  {
    hide Merge;
    assert chunks == chunks[..|chunks| - 1] + [chunks[|chunks| - 1]];
    FoldSnoc(EMPTY_RESPONSE, chunks[..|chunks| - 1], chunks[|chunks| - 1]);
  }

  /** Every other field is taken from the last chunk that carries it. */
  lemma {:induction false} AggregateField<T>(chunks: seq<LlmResponse>, get: LlmResponse -> Option<T>)
    requires get(EMPTY_RESPONSE) == None
    requires forall a, c :: get(Merge(a, c)) == Or(get(c), get(a))
    ensures get(Aggregate(chunks)) == LastOf(chunks, get)
    decreases chunks
  {
    hide Merge;
    if chunks != [] {
      AggregateSnoc(chunks);
      hide Aggregate;
      AggregateField(chunks[..|chunks| - 1], get);
    }
  }

  lemma AggregateFields(chunks: seq<LlmResponse>)
    ensures Aggregate(chunks).modelVersion == LastOf(chunks, (r: LlmResponse) => r.modelVersion)
    ensures Aggregate(chunks).finishReason == LastOf(chunks, (r: LlmResponse) => r.finishReason)
    ensures Aggregate(chunks).usage == LastOf(chunks, (r: LlmResponse) => r.usage)
    ensures Aggregate(chunks).cache == LastOf(chunks, (r: LlmResponse) => r.cache)
    ensures Aggregate(chunks).grounding == LastOf(chunks, (r: LlmResponse) => r.grounding)
    ensures Aggregate(chunks).citation == LastOf(chunks, (r: LlmResponse) => r.citation)
    ensures Aggregate(chunks).errorCode == LastOf(chunks, (r: LlmResponse) => r.errorCode)
    ensures Aggregate(chunks).errorMessage == LastOf(chunks, (r: LlmResponse) => r.errorMessage)
    ensures Aggregate(chunks).interrupted == LastOf(chunks, (r: LlmResponse) => r.interrupted)
  {
    AggregateField(chunks, (r: LlmResponse) => r.modelVersion);
    AggregateField(chunks, (r: LlmResponse) => r.finishReason);
    AggregateField(chunks, (r: LlmResponse) => r.usage);
    AggregateField(chunks, (r: LlmResponse) => r.cache);
    AggregateField(chunks, (r: LlmResponse) => r.grounding);
    AggregateField(chunks, (r: LlmResponse) => r.citation);
    AggregateField(chunks, (r: LlmResponse) => r.errorCode);
    AggregateField(chunks, (r: LlmResponse) => r.errorMessage);
    AggregateField(chunks, (r: LlmResponse) => r.interrupted);
  }

  lemma MergeAssociative(a: LlmResponse, b: LlmResponse, c: LlmResponse)
    ensures Merge(Merge(a, b), c) == Merge(a, Merge(b, c))
  {
    if c.content.Some? {
      var ps := if a.content.Some? then a.content.value.parts else [];
      var qs := if b.content.Some? then b.content.value.parts else [];
      PushPushed(ps, qs, c.content.value.parts);
      PushPushed(ps, [], qs);
    }
  }

  /** Pushing a run and then another is pushing the first with the second already pushed onto it. */
  lemma {:induction false} PushPushed(ps: seq<Part>, qs: seq<Part>, rs: seq<Part>)
    ensures PushParts(PushParts(ps, qs), rs) == PushParts(ps, PushParts(qs, rs))
    decreases rs
  {
    if rs != [] {
      PushPushed(ps, PushPart(qs, rs[0]), rs[1..]);
      PushOntoLast(ps, qs, rs[0]);
    }
  }

  lemma PushOne(ps: seq<Part>, r: Part)
    ensures PushParts(ps, [r]) == PushPart(ps, r)
  {
    assert [r][1..] == [];
  }

  lemma {:induction false} PushOntoLast(ps: seq<Part>, qs: seq<Part>, r: Part)
    ensures PushParts(ps, PushPart(qs, r)) == PushPart(PushParts(ps, qs), r)
    decreases qs
  {
    hide Joinable, Join;
    if |qs| > 1 {
      assert PushPart(qs, r)[0] == qs[0] && PushPart(qs, r)[1..] == PushPart(qs[1..], r);
      hide PushPart;
      PushOntoLast(PushPart(ps, qs[0]), qs[1..], r);
    } else if |qs| == 1 {
      assert qs == [qs[0]];
      PushOntoOne(ps, qs[0], r);
    } else {
      PushOne(ps, r);
    }
  }

  lemma PushOntoOne(ps: seq<Part>, q: Part, r: Part)
    ensures PushParts(ps, PushPart([q], r)) == PushPart(PushParts(ps, [q]), r)
  {
    hide Joinable, Join, PushParts;
    PushOne(ps, q);
    assert [q][..0] == [];
    if Joinable(q, r) {
      assert PushPart([q], r) == [Join(q, r)];
      PushOne(ps, Join(q, r));
      PushTwo(ps, q, r);
    } else {
      assert PushPart([q], r) == [q, r];
      PushPair(ps, q, r);
    }
  }

  lemma PushPair(ps: seq<Part>, q: Part, r: Part)
    ensures PushParts(ps, [q, r]) == PushPart(PushPart(ps, q), r)
  {
    hide PushPart;
    assert [q, r][1..] == [r];
    PushOne(PushPart(ps, q), r);
  }

  /** The aggregate of a stream is the aggregate of any front part merged with the aggregate of the rest. */
  lemma {:induction false} AggregateConcat(a: seq<LlmResponse>, b: seq<LlmResponse>)
    ensures Aggregate(a + b) == Merge(Aggregate(a), Aggregate(b))
    decreases b
  {
    if b == [] {
      assert a + b == a;
    } else {
      var bs, c := b[..|b| - 1], b[|b| - 1];
      assert b == bs + [c] && a + b == (a + bs) + [c];
      AggregateConcat(a, bs);
      FoldSnoc(EMPTY_RESPONSE, bs, c);
      FoldSnoc(EMPTY_RESPONSE, a + bs, c);
      MergeAssociative(Aggregate(a), Aggregate(bs), c);
    }
  }

  lemma {:induction false} FoldConcat(agg: LlmResponse, xs: seq<LlmResponse>, ys: seq<LlmResponse>)
    ensures Fold(agg, xs + ys) == Fold(Fold(agg, xs), ys)
    decreases xs
  {
    if xs == [] {
      assert xs + ys == ys;
    } else {
      assert (xs + ys)[0] == xs[0] && (xs + ys)[1..] == xs[1..] + ys;
      FoldConcat(Merge(agg, xs[0]), xs[1..], ys);
    }
  }

  lemma {:induction false} PushPartsConcat(acc: seq<Part>, ps: seq<Part>, qs: seq<Part>)
    ensures PushParts(acc, ps + qs) == PushParts(PushParts(acc, ps), qs)
    decreases ps
  {
    if ps == [] {
      assert ps + qs == qs;
    } else {
      assert (ps + qs)[0] == ps[0] && (ps + qs)[1..] == ps[1..] + qs;
      PushPartsConcat(PushPart(acc, ps[0]), ps[1..], qs);
    }
  }

  /** A chunk that carries nothing but parts. */
  function PartsOnly(role: Role, ps: seq<Part>): LlmResponse {
    EMPTY_RESPONSE.(content := Some(Content(role, ps)))
  }

  /**
   * The aggregate does not depend on chunking: a chunk may be delivered in two pieces, cut between two of its parts
   * (`delta == None`) or inside a text or thought delta (`delta == Some((a, b))`), with its metadata on the second.
   */
  lemma CutChunk(xs: seq<LlmResponse>, c: LlmResponse, ys: seq<LlmResponse>,
                 role: Role, ps: seq<Part>, delta: Option<(Part, Part)>, qs: seq<Part>)
    requires delta.Some? ==> Joinable(delta.value.0, delta.value.1)
    requires c.content ==
             Some(Content(role, ps + (if delta.Some? then [Join(delta.value.0, delta.value.1)] else []) + qs))
    ensures var front := ps + (if delta.Some? then [delta.value.0] else []);
            var back := (if delta.Some? then [delta.value.1] else []) + qs;
            Aggregate(xs + [PartsOnly(role, front), c.(content := Some(Content(role, back)))] + ys) ==
            Aggregate(xs + [c] + ys)
  {
    var front := ps + (if delta.Some? then [delta.value.0] else []);
    var back := (if delta.Some? then [delta.value.1] else []) + qs;
    var c1, c2 := PartsOnly(role, front), c.(content := Some(Content(role, back)));
    var a := Aggregate(xs);
    var acc := if a.content.Some? then a.content.value.parts else [];
    CutParts(acc, ps, delta, qs);
    assert Merge(Merge(a, c1), c2) == Merge(a, c);
    assert [c1, c2] == [c1] + [c2];
    FoldConcat(EMPTY_RESPONSE, xs, [c1, c2]);
    FoldConcat(EMPTY_RESPONSE, xs + [c1, c2], ys);
    FoldConcat(EMPTY_RESPONSE, xs, [c]);
    FoldConcat(EMPTY_RESPONSE, xs + [c], ys);
    FoldSnoc(a, [c1], c2);
    FoldSnoc(a, [], c1);
    FoldSnoc(a, [], c);
    assert [] + [c1] == [c1] && [] + [c] == [c];
  }

  lemma CutParts(acc: seq<Part>, ps: seq<Part>, delta: Option<(Part, Part)>, qs: seq<Part>)
    requires delta.Some? ==> Joinable(delta.value.0, delta.value.1)
    ensures PushParts(PushParts(acc, ps + (if delta.Some? then [delta.value.0] else [])),
                      (if delta.Some? then [delta.value.1] else []) + qs) ==
            PushParts(acc, ps + (if delta.Some? then [Join(delta.value.0, delta.value.1)] else []) + qs)
  {
    match delta
    case None =>
      assert ps + [] == ps && [] + qs == qs;
      PushPartsConcat(acc, ps, qs);
    case Some((a, b)) =>
      PushPartsConcat(acc, ps + [Join(a, b)], qs);
      PushPartsConcat(acc, ps, [Join(a, b)]);
      PushPartsConcat(acc, ps, [a]);
      PushPartsConcat(PushParts(acc, ps + [a]), [b], qs);
      PushOne(PushParts(acc, ps), a);
      PushOne(PushPart(PushParts(acc, ps), a), b);
      PushOne(PushParts(acc, ps), Join(a, b));
      PushTwo(PushParts(acc, ps), a, b);
  }

  lemma PushTwo(acc: seq<Part>, a: Part, b: Part)
    requires Joinable(a, b)
    ensures PushPart(PushPart(acc, a), b) == PushPart(acc, Join(a, b))
  {
    if acc == [] {
      PushAtEnd([], a, b);
      assert [] + [a] == [a] == PushPart(acc, a);
      assert PushPart(acc, Join(a, b)) == [Join(a, b)] == [] + [Join(a, b)];
    } else {
      var init, z := acc[..|acc| - 1], acc[|acc| - 1];
      JoinableThrough(z, a, b);
      if Joinable(z, a) {
        JoinAssociative(z, a, b);
      }
      hide *;
      assert acc == init + [z];
      PushAtEnd(init, z, a);
      PushAtEnd(init, z, Join(a, b));
      if Joinable(z, a) {
        PushAtEnd(init, Join(z, a), b);
      } else {
        PushAtEnd(init + [z], a, b);
        assert init + [z, a] == init + [z] + [a];
        assert init + [z] + [Join(a, b)] == init + [z, Join(a, b)];
      }
    }
  }
}
