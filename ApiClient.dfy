/**
 * The chat client of the web front end: the blocking `sendChatMessage` and the
 * streaming decoder of `sendChatMessageStream`, which reads an HTTP body as text
 * chunks, splits the accumulated text into SSE blocks or NDJSON lines, parses each
 * complete frame as JSON and hands content to the `onMessage` callback, while
 * recording the server's `conversation_id` in a reference cell.
 *
 * `JSON.parse` is a parameter of the model: a partial function that yields the
 * string fields of the parsed object, or None when parsing (or reading a field of
 * the parsed value) throws. The UTF-8 `TextDecoder` is abstracted: chunks arrive
 * as already-decoded text. `onMessage` is modelled by returning, in order, the
 * sequence of values it is called with.
 */
module ApiClient {
  import opened Wrappers
  import opened Text

  /** The fields of a parsed stream event that the decoder reads. */
  datatype Event = Event(
    chunk: Option<string>,
    delta: Option<string>,
    content: Option<string>,
    message: Option<string>,
    conversationId: Option<string>)

  /** `JSON.parse` followed by field access; None when that throws. */
  type Parser = string -> Option<Event>

  /**
   * JavaScript's `x0 || x1 || ... || xn`: the first truthy operand, or the last
   * operand when none is truthy.
   */
  function OrChain(xs: seq<Option<string>>): (r: Option<string>)
    requires |xs| > 0
    ensures forall k :: 0 <= k < |xs| && Truthy(xs[k]) && (forall j :: 0 <= j < k ==> !Truthy(xs[j])) ==> r == xs[k]
    ensures (forall k :: 0 <= k < |xs| ==> !Truthy(xs[k])) ==> r == xs[|xs| - 1]
  {
    if |xs| == 1 || Truthy(xs[0]) then xs[0] else OrChain(xs[1..])
  }

  lemma OrChain3(a: Option<string>, b: Option<string>, c: Option<string>)
    ensures OrChain([a, b, c]) == if Truthy(a) then a else if Truthy(b) then b else c
  {
    assert [a, b, c][1..] == [b, c];
    assert [b, c][1..] == [c];
  }

  lemma OrChain4(a: Option<string>, b: Option<string>, c: Option<string>, d: Option<string>)
    ensures OrChain([a, b, c, d]) == if Truthy(a) then a else if Truthy(b) then b else OrChain([c, d])
  {
    assert [a, b, c, d][1..] == [b, c, d];
    assert [b, c, d][1..] == [c, d];
  }

  // ---------------------------------------------------------------------------
  // sendChatMessage

  /** The JSON body of a blocking `/chat` reply, as far as the client reads it. */
  datatype ChatReply = ChatReply(response: Option<string>, answer: Option<string>, message: Option<string>)

  /** `response.data.response || response.data.answer || response.data.message`. */
  function SendChatMessage(data: ChatReply): (r: Option<string>)
    ensures Truthy(data.response) ==> r == data.response
    ensures !Truthy(data.response) && Truthy(data.answer) ==> r == data.answer
    ensures !Truthy(data.response) && !Truthy(data.answer) ==> r == data.message
  {
    OrChain3(data.response, data.answer, data.message);
    OrChain([data.response, data.answer, data.message])
  }

  // ---------------------------------------------------------------------------
  // One frame

  /**
   * The argument of the single `onMessage` call a parsed event causes, if any:
   * the first truthy of `chunk`, `delta`, `content`, and otherwise `message`.
   */
  function MessageOf(e: Event): (r: Option<string>)
    ensures r.Some? <==> Truthy(e.chunk) || Truthy(e.delta) || Truthy(e.content) || Truthy(e.message)
    ensures r.Some? ==> Truthy(r) && r == OrChain([e.chunk, e.delta, e.content, e.message])
  {
    OrChain3(e.chunk, e.delta, e.content);
    OrChain4(e.chunk, e.delta, e.content, e.message);
    assert [e.content, e.message][1..] == [e.message];
    if Truthy(e.chunk) || Truthy(e.delta) || Truthy(e.content) then
      OrChain([e.chunk, e.delta, e.content])
    else if Truthy(e.message) then e.message
    else None
  }

  /** The framing chosen from the current buffer. */
  datatype Framing = Sse | Ndjson | Unframed

  const SseMarker: string := "data:"
  const DoneSentinel: string := "[DONE]"

  /** SSE when the buffer contains `data:` anywhere, else NDJSON when it contains a newline. */
  function Detect(buffer: string): Framing
  {
    if Contains(buffer, SseMarker) then Sse
    else if Contains(buffer, "\n") then Ndjson
    else Unframed
  }

  function Separator(f: Framing): (sep: string)
    ensures sep != []
  {
    if f == Sse then "\n\n" else "\n"
  }

  /**
   * The text handed to `JSON.parse` for one complete piece, if any. An SSE piece
   * must start with `data:`; its payload is the rest, trimmed, and an empty or
   * `[DONE]` payload is skipped. An NDJSON line is parsed as it is, unless it is
   * blank.
   */
  function Payload(f: Framing, piece: string): Option<string>
  {
    if f == Sse then
      if !StartsWith(piece, SseMarker) then None
      else
        var json := Trim(piece[|SseMarker|..]);
        if json == "" || json == DoneSentinel then None else Some(json)
    else if Trim(piece) == "" then None
    else Some(piece)
  }

  /** The event a complete piece yields, or None when it is skipped or fails to parse. */
  function EventOf(parse: Parser, f: Framing, piece: string): Option<Event>
  {
    var p := Payload(f, piece);
    if p.None? then None else parse(p.value)
  }

  /** The `onMessage` calls one complete piece causes: none or one. */
  function Delivery(parse: Parser, f: Framing, piece: string): (r: seq<string>)
    ensures |r| <= 1
  {
    var e := EventOf(parse, f, piece);
    if e.Some? && MessageOf(e.value).Some? then [MessageOf(e.value).value] else []
  }

  /** The conversation id after one complete piece: replaced only by a truthy `conversation_id`. */
  function IdAfter(parse: Parser, f: Framing, piece: string, id: Option<string>): Option<string>
  {
    var e := EventOf(parse, f, piece);
    if e.Some? && Truthy(e.value.conversationId) then e.value.conversationId else id
  }

  /** The piece carries a truthy `conversation_id`. */
  predicate CarriesId(parse: Parser, f: Framing, piece: string)
  {
    var e := EventOf(parse, f, piece);
    e.Some? && Truthy(e.value.conversationId)
  }

  // ---------------------------------------------------------------------------
  // The complete pieces of one split, in order

  function Deliveries(parse: Parser, f: Framing, pieces: seq<string>): seq<string>
  {
    if pieces == [] then []
    else Deliveries(parse, f, pieces[..|pieces| - 1]) + Delivery(parse, f, pieces[|pieces| - 1])
  }

  function IdAfterAll(parse: Parser, f: Framing, pieces: seq<string>, id: Option<string>): Option<string>
  {
    if pieces == [] then id
    else IdAfter(parse, f, pieces[|pieces| - 1], IdAfterAll(parse, f, pieces[..|pieces| - 1], id))
  }

  /** Deliveries keep the order of their frames: processing `a + b` delivers `a`'s, then `b`'s. */
  lemma {:induction false} DeliveriesAppend(parse: Parser, f: Framing, a: seq<string>, b: seq<string>)
    ensures Deliveries(parse, f, a + b) == Deliveries(parse, f, a) + Deliveries(parse, f, b)
    decreases |b|
  {
    if b != [] {
      var b' := b[..|b| - 1];
      assert (a + b)[..|a + b| - 1] == a + b';
      DeliveriesAppend(parse, f, a, b');
    } else {
      assert a + b == a;
    }
  }

  /** Processing `a + b` leaves the id that processing `b` leaves after `a`. */
  lemma {:induction false} IdAfterAllAppend(parse: Parser, f: Framing, a: seq<string>, b: seq<string>, id: Option<string>)
    ensures IdAfterAll(parse, f, a + b, id) == IdAfterAll(parse, f, b, IdAfterAll(parse, f, a, id))
    decreases |b|
  {
    if b != [] {
      var b' := b[..|b| - 1];
      assert (a + b)[..|a + b| - 1] == a + b';
      IdAfterAllAppend(parse, f, a, b', id);
    } else {
      assert a + b == a;
    }
  }

  /** At most one `onMessage` call per frame. */
  lemma {:induction false} AtMostOneDeliveryPerFrame(parse: Parser, f: Framing, pieces: seq<string>)
    ensures |Deliveries(parse, f, pieces)| <= |pieces|
    decreases |pieces|
  {
    if pieces != [] {
      AtMostOneDeliveryPerFrame(parse, f, pieces[..|pieces| - 1]);
    }
  }

  /**
   * A frame that fails to parse (or is skipped) causes no callback and no id change;
   * the frames around it are processed as if it were absent, in the same order.
   */
  lemma SkippedFrameIsInert(parse: Parser, f: Framing, a: seq<string>, bad: string, b: seq<string>, id: Option<string>)
    requires EventOf(parse, f, bad).None?
    ensures Deliveries(parse, f, a + [bad] + b) == Deliveries(parse, f, a) + Deliveries(parse, f, b)
    ensures IdAfterAll(parse, f, a + [bad] + b, id) == IdAfterAll(parse, f, a + b, id)
  {
    DeliveriesAppend(parse, f, a + [bad], b);
    DeliveriesAppend(parse, f, a, b);
    IdAfterAllAppend(parse, f, a + [bad], b, id);
    IdAfterAllAppend(parse, f, a, b, id);
    SkipOne(parse, f, a, bad, id);
  }

  lemma SkipOne(parse: Parser, f: Framing, a: seq<string>, bad: string, id: Option<string>)
    requires EventOf(parse, f, bad).None?
    ensures Deliveries(parse, f, a + [bad]) == Deliveries(parse, f, a)
    ensures IdAfterAll(parse, f, a + [bad], id) == IdAfterAll(parse, f, a, id)
  {
    assert (a + [bad])[..|a + [bad]| - 1] == a;
    assert Delivery(parse, f, bad) == [];
  }

  /**
   * An SSE piece without the `data:` prefix is skipped; otherwise what is parsed
   * is the rest of the piece after its five-character prefix, trimmed.
   */
  lemma SsePieceHandling(parse: Parser, piece: string, id: Option<string>)
    ensures !StartsWith(piece, SseMarker) ==> Delivery(parse, Sse, piece) == [] && IdAfter(parse, Sse, piece, id) == id
    ensures StartsWith(piece, SseMarker) && Trim(piece[5..]) != "" && Trim(piece[5..]) != DoneSentinel
            ==> EventOf(parse, Sse, piece) == parse(Trim(piece[5..]))
  {
  }

  /** An SSE block whose payload is empty or `[DONE]` yields no callback and no id change. */
  lemma SseEmptyOrDoneIsSkipped(parse: Parser, piece: string, id: Option<string>)
    requires StartsWith(piece, SseMarker)
    requires Trim(piece[5..]) == "" || Trim(piece[5..]) == DoneSentinel
    ensures Delivery(parse, Sse, piece) == [] && IdAfter(parse, Sse, piece, id) == id
  {
  }

  /** With no frame carrying a truthy `conversation_id`, the id is unchanged. */
  lemma {:induction false} IdUnchangedWithoutCarrier(parse: Parser, f: Framing, pieces: seq<string>, id: Option<string>)
    requires forall k :: 0 <= k < |pieces| ==> !CarriesId(parse, f, pieces[k])
    ensures IdAfterAll(parse, f, pieces, id) == id
    decreases |pieces|
  {
    if pieces != [] {
      IdUnchangedWithoutCarrier(parse, f, pieces[..|pieces| - 1], id);
    }
  }

  /** The last frame carrying a truthy `conversation_id` decides the id. */
  lemma {:induction false} LastIdWins(parse: Parser, f: Framing, pieces: seq<string>, k: nat, id: Option<string>)
    requires k < |pieces| && CarriesId(parse, f, pieces[k])
    requires forall j :: k < j < |pieces| ==> !CarriesId(parse, f, pieces[j])
    ensures IdAfterAll(parse, f, pieces, id) == EventOf(parse, f, pieces[k]).value.conversationId
    decreases |pieces|
  {
    if k < |pieces| - 1 {
      LastIdWins(parse, f, pieces[..|pieces| - 1], k, id);
    }
  }

  /** The conversation id is only ever replaced by a truthy one. */
  lemma {:induction false} IdOnlyBecomesTruthy(parse: Parser, f: Framing, pieces: seq<string>, id: Option<string>)
    ensures IdAfterAll(parse, f, pieces, id) == id || Truthy(IdAfterAll(parse, f, pieces, id))
    decreases |pieces|
  {
    if pieces != [] {
      IdOnlyBecomesTruthy(parse, f, pieces[..|pieces| - 1], id);
    }
  }

  // ---------------------------------------------------------------------------
  // One chunk

  /** The effect of one chunk: the frames it completes, the text they span, the new buffer, the calls and the id. */
  datatype StepResult = StepResult(
    frames: seq<string>,
    consumed: string,
    buffer: string,
    delivered: seq<string>,
    conversationId: Option<string>)

  /** What one split of the buffer yields: the complete frames, their text with terminators, and the tail kept. */
  datatype Cut = Cut(frames: seq<string>, consumed: string, rest: string)

  /**
   * Choose the framing from the whole buffer, split it and keep the last piece
   * apart (`split(...)` then `pop()`). Without `data:` or a newline nothing is cut.
   */
  function CutBuffer(b: string): Cut
  {
    var f := Detect(b);
    if f == Unframed then Cut([], "", b)
    else
      var parts := Split(b, Separator(f));
      var frames := parts[..|parts| - 1];
      Cut(frames, Terminated(frames, Separator(f)), parts[|parts| - 1])
  }

  /** Cutting loses nothing: the complete frames, each terminated, then the tail, give the buffer back. */
  lemma CutReassembles(b: string)
    ensures CutBuffer(b).consumed + CutBuffer(b).rest == b
  {
    var f := Detect(b);
    if f != Unframed {
      SplitReassembles(b, Separator(f));
    }
  }

  /**
   * One iteration of the read loop: append the chunk, cut the buffer and
   * process the complete frames in order.
   */
  function Step(parse: Parser, buffer: string, chunk: string, id: Option<string>): StepResult
  {
    var b := buffer + chunk;
    var c := CutBuffer(b);
    StepResult(c.frames, c.consumed, c.rest, Deliveries(parse, Detect(b), c.frames), IdAfterAll(parse, Detect(b), c.frames, id))
  }

  /**
   * No loss in one step: the complete frames, each followed by its separator,
   * followed by the retained buffer, are exactly the old buffer plus the chunk.
   */
  lemma StepReassembles(parse: Parser, buffer: string, chunk: string, id: Option<string>)
    ensures Step(parse, buffer, chunk, id).consumed + Step(parse, buffer, chunk, id).buffer == buffer + chunk
  {
    CutReassembles(buffer + chunk);
  }

  /**
   * After an SSE split the retained buffer holds no blank line; after an NDJSON
   * split it holds no newline; without a split it is the old buffer plus the chunk.
   */
  lemma StepRetainsUnterminatedTail(parse: Parser, buffer: string, chunk: string, id: Option<string>)
    ensures var s := Step(parse, buffer, chunk, id);
      match Detect(buffer + chunk)
      case Sse => !Contains(s.buffer, "\n\n")
      case Ndjson => !Contains(s.buffer, "\n")
      case Unframed => s.buffer == buffer + chunk && s.delivered == [] && s.conversationId == id
  {
    var b := buffer + chunk;
    var f := Detect(b);
    if f != Unframed {
      SplitPiecesFree(b, Separator(f));
    }
  }

  /**
   * The framing decides the separator: a buffer containing `data:` is split on
   * blank lines even when it also contains newlines; otherwise a buffer with a
   * newline is split on newlines. The frames and the retained buffer are the
   * pieces of that split.
   */
  lemma StepSplitsByFraming(parse: Parser, buffer: string, chunk: string, id: Option<string>)
    ensures var s := Step(parse, buffer, chunk, id);
      Contains(buffer + chunk, SseMarker) ==> s.frames + [s.buffer] == Split(buffer + chunk, "\n\n")
    ensures var s := Step(parse, buffer, chunk, id);
      !Contains(buffer + chunk, SseMarker) && Contains(buffer + chunk, "\n") ==> s.frames + [s.buffer] == Split(buffer + chunk, "\n")
  {
    var b := buffer + chunk;
    var f := Detect(b);
    if f != Unframed {
      var parts := Split(b, Separator(f));
      assert parts[..|parts| - 1] + [parts[|parts| - 1]] == parts;
    }
  }

  /** A buffer with neither `data:` nor a newline just grows: nothing is delivered. */
  lemma UnframedChunkOnlyGrows(parse: Parser, buffer: string, chunk: string, id: Option<string>)
    requires !Contains(buffer + chunk, SseMarker) && !Contains(buffer + chunk, "\n")
    ensures Step(parse, buffer, chunk, id) == StepResult([], "", buffer + chunk, [], id)
  {
  }

  // ---------------------------------------------------------------------------
  // The whole stream

  /** The chunks fed so far, concatenated. */
  function Concat(chunks: seq<string>): string
  {
    if chunks == [] then "" else Concat(chunks[..|chunks| - 1]) + chunks[|chunks| - 1]
  }

  /** The read loop over all chunks of a body, starting from an empty buffer. */
  function Run(parse: Parser, chunks: seq<string>, id: Option<string>): StepResult
  {
    if chunks == [] then StepResult([], "", "", [], id)
    else
      var prev := Run(parse, chunks[..|chunks| - 1], id);
      var s := Step(parse, prev.buffer, chunks[|chunks| - 1], prev.conversationId);
      StepResult(prev.frames + s.frames, prev.consumed + s.consumed, s.buffer,
                 prev.delivered + s.delivered, s.conversationId)
  }

  /** One more chunk extends the run by one step. */
  lemma RunExtend(parse: Parser, chunks: seq<string>, n: nat, id: Option<string>)
    requires n < |chunks|
    ensures var prev := Run(parse, chunks[..n], id);
      var s := Step(parse, prev.buffer, chunks[n], prev.conversationId);
      var next := Run(parse, chunks[..n + 1], id);
      next.delivered == prev.delivered + s.delivered && next.buffer == s.buffer && next.conversationId == s.conversationId
  {
    assert chunks[..n + 1][..n] == chunks[..n];
  }

  /**
   * No loss over the whole stream: every character received is either in a
   * complete frame (with its terminator) or in the buffer left at the end, which
   * the source drops when the body is done.
   */
  lemma {:induction false} RunReassembles(parse: Parser, chunks: seq<string>, id: Option<string>)
    ensures Run(parse, chunks, id).consumed + Run(parse, chunks, id).buffer == Concat(chunks)
    decreases |chunks|
  {
    if chunks != [] {
      var init, last := chunks[..|chunks| - 1], chunks[|chunks| - 1];
      var prev := Run(parse, init, id);
      var s := Step(parse, prev.buffer, last, prev.conversationId);
      RunReassembles(parse, init, id);
      StepReassembles(parse, prev.buffer, last, prev.conversationId);
      assert Run(parse, chunks, id).consumed == prev.consumed + s.consumed;
      assert Run(parse, chunks, id).buffer == s.buffer;
      assert Concat(chunks) == Concat(init) + last;
      Assoc(prev.consumed, s.consumed, s.buffer);
      Assoc(prev.consumed, prev.buffer, last);
    }
  }

  /** Across the whole stream the id is only ever replaced by a truthy one. */
  lemma {:induction false} RunIdOnlyBecomesTruthy(parse: Parser, chunks: seq<string>, id: Option<string>)
    ensures Run(parse, chunks, id).conversationId == id || Truthy(Run(parse, chunks, id).conversationId)
    decreases |chunks|
  {
    if chunks != [] {
      var prev := Run(parse, chunks[..|chunks| - 1], id);
      RunIdOnlyBecomesTruthy(parse, chunks[..|chunks| - 1], id);
      var b := prev.buffer + chunks[|chunks| - 1];
      var f := Detect(b);
      if f != Unframed {
        var parts := Split(b, Separator(f));
        IdOnlyBecomesTruthy(parse, f, parts[..|parts| - 1], prev.conversationId);
      }
    }
  }

  /** The `conversation_id` sent with a request: `conversationIdRef.current || undefined`. */
  function OutboundConversationId(current: Option<string>): (r: Option<string>)
    ensures r.Some? <==> Truthy(current)
    ensures r.Some? ==> r == current
  {
    if Truthy(current) then current else None
  }

  /**
   * Session continuity: once a stream has set the id, or it was set before, the
   * next request carries the id the stream left.
   */
  lemma NextRequestCarriesId(parse: Parser, chunks: seq<string>, id: Option<string>)
    requires Truthy(id) || Run(parse, chunks, id).conversationId != id
    ensures OutboundConversationId(Run(parse, chunks, id).conversationId) == Run(parse, chunks, id).conversationId
  {
    RunIdOnlyBecomesTruthy(parse, chunks, id);
  }

  // ---------------------------------------------------------------------------
  // The imperative decoder

  /** `conversationIdRef`: a cell that outlives one stream and is read before the next request. */
  class ConversationRef {
    var current: Option<string>

    constructor (initial: Option<string>)
      ensures current == initial
    {
      current := initial;
    }
  }

  /**
   * The state of one `sendChatMessageStream` call: the text buffer. The ghost
   * fields record all text received and the part of it already attributed to
   * complete frames; `Valid` is the no-loss invariant between them.
   */
  class StreamDecoder {
    var buffer: string
    ghost var received: string
    ghost var consumed: string

    ghost predicate Valid()
      reads this
    {
      received == consumed + buffer
    }

    constructor ()
      ensures Valid() && buffer == "" && received == ""
    {
      buffer := "";
      received := "";
      consumed := "";
    }

    /**
     * Feed one decoded chunk: append it, pick the framing from the whole buffer,
     * keep the unterminated tail and process the complete frames in order. Returns
     * the `onMessage` arguments in call order.
     */
    method Pump(chunk: string, parse: Parser, ref: ConversationRef) returns (delivered: seq<string>)
      requires Valid()
      modifies this, ref
      ensures Valid()
      ensures received == old(received) + chunk
      ensures var s := Step(parse, old(buffer), chunk, old(ref.current));
        && buffer == s.buffer
        && delivered == s.delivered
        && ref.current == s.conversationId
        && consumed == old(consumed) + s.consumed
    {
      ghost var s := Step(parse, buffer, chunk, ref.current);
      StepReassembles(parse, buffer, chunk, ref.current);
      buffer := buffer + chunk;
      received := received + chunk;
      delivered := [];
      var framing := Detect(buffer);
      if framing == Unframed {
        Assoc(old(consumed), old(buffer), chunk);
        return;
      }
      var parts := Split(buffer, Separator(framing));
      var frames := parts[..|parts| - 1];
      buffer := parts[|parts| - 1];
      delivered := Dispatch(framing, frames, parse, ref);
      consumed := consumed + s.consumed;
      Assoc(old(consumed), s.consumed, s.buffer);
      Assoc(old(consumed), old(buffer), chunk);
    }
  }

  /**
   * The `for` loop over the complete pieces of one split: each is parsed and, in
   * order, causes at most one `onMessage` call and possibly an id update; a piece
   * that is skipped or fails to parse is passed over.
   */
  method Dispatch(framing: Framing, frames: seq<string>, parse: Parser, ref: ConversationRef)
    returns (delivered: seq<string>)
    modifies ref
    ensures delivered == Deliveries(parse, framing, frames)
    ensures ref.current == IdAfterAll(parse, framing, frames, old(ref.current))
  {
    delivered := [];
    for i := 0 to |frames|
      invariant delivered == Deliveries(parse, framing, frames[..i])
      invariant ref.current == IdAfterAll(parse, framing, frames[..i], old(ref.current))
    {
      assert frames[..i + 1][..i] == frames[..i];
      var payload := Payload(framing, frames[i]);
      if payload.None? {
        continue;
      }
      var event := parse(payload.value);
      if event.None? {
        continue;  // the source logs the parse failure and goes on
      }
      var m := MessageOf(event.value);
      if m.Some? {
        delivered := delivered + [m.value];
      }
      if Truthy(event.value.conversationId) {
        ref.current := event.value.conversationId;
      }
    }
    assert frames[..|frames|] == frames;
  }

  /** What the transport hands over: the status and, when ok, the body as decoded chunks. */
  datatype HttpResponse = HttpResponse(ok: bool, status: int, text: string, chunks: seq<string>)

  /** A call either throws on a non-ok status, or finishes having made the listed `onMessage` calls. */
  datatype StreamOutcome = HttpError(status: int, text: string) | Finished(delivered: seq<string>)

  /**
   * `sendChatMessageStream` after `fetch`: a non-ok response throws before the body
   * is read, so no callback runs and the id is untouched. Otherwise the body is read
   * to its end; whatever is left in the buffer then is dropped.
   */
  method SendChatMessageStream(response: HttpResponse, parse: Parser, ref: ConversationRef)
    returns (outcome: StreamOutcome)
    modifies ref
    ensures !response.ok ==> outcome == HttpError(response.status, response.text) && ref.current == old(ref.current)
    ensures response.ok ==>
      && outcome == Finished(Run(parse, response.chunks, old(ref.current)).delivered)
      && ref.current == Run(parse, response.chunks, old(ref.current)).conversationId
  {
    if !response.ok {
      return HttpError(response.status, response.text);
    }
    var decoder := new StreamDecoder();
    var delivered := [];
    var chunks := response.chunks;
    for n := 0 to |chunks|
      invariant decoder.Valid()
      invariant var r := Run(parse, chunks[..n], old(ref.current));
        delivered == r.delivered && decoder.buffer == r.buffer && ref.current == r.conversationId
    {
      RunExtend(parse, chunks, n, old(ref.current));
      var calls := decoder.Pump(chunks[n], parse, ref);
      delivered := delivered + calls;
    }
    assert chunks[..|chunks|] == chunks;
    outcome := Finished(delivered);
  }
}
