/**
 The incremental HTTP response parser of the control-plane client, framed by
 Content-Length (section 6.3 of RFC 9112).
 */
module HttpParser {
  import opened Bytes
  import opened Options
  import opened HttpHead
  import FrameCodec

  datatype HttpResult = HttpResult(error: HttpError, status: nat, body: bytes)

  function Failed(error: HttpError, status: nat): HttpResult {
    HttpResult(error, status, [])
  }

  // -------------------------------------------------------------------------
  // The meaning of a byte stream
  // -------------------------------------------------------------------------

  /** What the header section of the stream so far says. */
  datatype Shape = Headless | Bad(error: HttpError, status: nat) | Good(status: nat, offset: nat, length: nat)

  function ShapeOf(s: bytes): (shape: Shape)
    ensures shape.Good? ==> 4 <= shape.offset <= |s| && shape.offset <= MAX_HEADER && shape.length <= MAX_CONTENT
    ensures shape.Headless? ==> |s| <= MAX_HEADER
  {
    match Find(s, END, 0)
    case None => if |s| > MAX_HEADER then Bad(HeaderTooLarge, 0) else Headless
    case Some(e) =>
      if e + 4 > MAX_HEADER then Bad(HeaderTooLarge, 0)
      else
        match HeadOf(s[..e])
        case Rejected(error, status) => Bad(error, status)
        case Accepted(status, length) => Good(status, e + 4, length)
  }

  /** A response whose body has arrived: anything but a 2xx status is an error that keeps its body. */
  function Complete(status: nat, body: bytes): HttpResult {
    HttpResult(if 200 <= status < 300 then NoError else HttpStatusError, status, body)
  }

  /** The parser between chunks: everything received so far, or the result. */
  datatype Progress = Open(received: bytes) | Closed(result: HttpResult)

  /** What a parser that has not finished makes of `s`, given what its header section says. */
  function Judged(shape: Shape, s: bytes): Progress
    requires shape.Good? ==> shape.offset <= |s|
  {
    match shape
    case Headless => Open(s)
    case Bad(error, status) => Closed(Failed(error, status))
    case Good(status, offset, length) =>
      if |s| > offset + length then Closed(Failed(MalformedResponse, status))
      else if |s| < offset + length then Open(s)
      else Closed(Complete(status, s[offset..offset + length]))
  }

  function Judge(s: bytes): Progress {
    Judged(ShapeOf(s), s)
  }

  function Feed(p: Progress, chunk: bytes): Progress {
    if p.Closed? then p else Judge(p.received + chunk)
  }

  function FeedAll(chunks: seq<bytes>): Progress {
    if chunks == [] then Open([]) else Feed(FeedAll(chunks[..|chunks| - 1]), chunks[|chunks| - 1])
  }

  /** The status code known to a parser that has not finished. */
  function StatusKnown(s: bytes): nat {
    if ShapeOf(s).Good? then ShapeOf(s).status else 0
  }

  /** `finishOnEof` */
  function AtEof(p: Progress): HttpResult {
    match p
    case Closed(r) => r
    case Open(s) => Failed(if ShapeOf(s).Good? then PrematureEof else MalformedResponse, StatusKnown(s))
  }

  /** `finishOnTransportError` */
  function AtError(p: Progress, error: HttpError): HttpResult {
    match p
    case Closed(r) => r
    case Open(s) => Failed(error, StatusKnown(s))
  }

  // -------------------------------------------------------------------------
  // Chunking
  // -------------------------------------------------------------------------

  lemma AtPrefix(p: bytes, s: bytes, pattern: bytes, i: nat)
    requires p <= s && i + |pattern| <= |p|
    ensures At(p, pattern, i) <==> At(s, pattern, i)
  {
    AtSlice(s, 0, |p|, pattern, i);
    assert s[0..|p|] == p;
  }

  /** The end of the header section does not move as bytes arrive. */
  lemma FindPrefix(p: bytes, s: bytes)
    requires p <= s
    ensures var f, g := Find(p, END, 0), Find(s, END, 0);
            if f.Some? then g == f else g.Some? ==> g.value + 4 > |p|
  {
    var f, g := Find(p, END, 0), Find(s, END, 0);
    forall i: nat | i + 4 <= |p| ensures At(p, END, i) <==> At(s, END, i) {
      AtPrefix(p, s, END, i);
    }
    FindSpec(p, END, 0);
    FindSpec(s, END, 0);
    if f.Some? {
      FindIs(s, END, 0, f.value);
    }
  }

  /** A header section, once judged, is judged the same ever after; one still missing ends beyond the prefix. */
  lemma ShapeStable(p: bytes, s: bytes)
    requires p <= s
    ensures !ShapeOf(p).Headless? ==> ShapeOf(s) == ShapeOf(p)
    ensures ShapeOf(p).Headless? && ShapeOf(s).Good? ==> ShapeOf(s).offset > |p|
  {
    FindPrefix(p, s);
    var f := Find(p, END, 0);
    if f.Some? {
      assert s[..f.value] == p[..f.value];
    }
  }

  /** Some read ended exactly at byte `n` of the stream. */
  ghost predicate Boundary(chunks: seq<bytes>, n: nat) {
    exists k :: 0 <= k <= |chunks| && |FrameCodec.Concat(chunks[..k])| == n
  }

  lemma {:induction false} PrefixShort(chunks: seq<bytes>, k: nat)
    requires k <= |chunks|
    ensures |FrameCodec.Concat(chunks[..k])| <= |FrameCodec.Concat(chunks)|
    decreases |chunks|
  {
    if k == |chunks| {
      assert chunks[..k] == chunks;
    } else {
      var front := chunks[..|chunks| - 1];
      PrefixShort(front, k);
      assert front[..k] == chunks[..k];
    }
  }

  lemma BoundaryWithin(chunks: seq<bytes>, n: nat)
    ensures Boundary(chunks, n) ==> n <= |FrameCodec.Concat(chunks)|
    ensures n == |FrameCodec.Concat(chunks)| ==> Boundary(chunks, n)
  {
    assert chunks[..|chunks|] == chunks;
    if Boundary(chunks, n) {
      var k :| 0 <= k <= |chunks| && |FrameCodec.Concat(chunks[..k])| == n;
      PrefixShort(chunks, k);
    }
  }

  /** The boundaries of a longer run of reads are those of its front and its end. */
  lemma BoundaryNext(chunks: seq<bytes>, n: nat)
    requires chunks != []
    ensures Boundary(chunks, n) <==> Boundary(chunks[..|chunks| - 1], n) || n == |FrameCodec.Concat(chunks)|
  {
    var front := chunks[..|chunks| - 1];
    forall k | 0 <= k <= |front| ensures front[..k] == chunks[..k] {
    }
    assert chunks[..|chunks|] == chunks;
    if Boundary(front, n) {
      var k :| 0 <= k <= |front| && |FrameCodec.Concat(front[..k])| == n;
      assert |FrameCodec.Concat(chunks[..k])| == n;
    }
    if n == |FrameCodec.Concat(chunks)| {
      assert |FrameCodec.Concat(chunks[..|chunks|])| == n;
    }
    if Boundary(chunks, n) {
      var k :| 0 <= k <= |chunks| && |FrameCodec.Concat(chunks[..k])| == n;
      if k <= |front| {
        assert |FrameCodec.Concat(front[..k])| == n;
      }
    }
  }

  /** What any reads come to; `cut` says that one of them ended at the last byte of the declared body. */
  function Outcome(shape: Shape, s: bytes, cut: bool): Progress
    requires shape.Good? ==> shape.offset <= |s| && (cut ==> shape.offset + shape.length <= |s|)
  {
    match shape
    case Headless => Open(s)
    case Bad(error, status) => Closed(Failed(error, status))
    case Good(status, offset, length) =>
      if cut then Closed(Complete(status, s[offset..offset + length]))
      else if offset + length < |s| then Closed(Failed(MalformedResponse, status))
      else Open(s)
  }

  ghost predicate Cut(shape: Shape, chunks: seq<bytes>) {
    shape.Good? && Boundary(chunks, shape.offset + shape.length)
  }

  lemma CutWithin(shape: Shape, chunks: seq<bytes>)
    ensures Cut(shape, chunks) ==> shape.offset + shape.length <= |FrameCodec.Concat(chunks)|
    ensures shape.Good? && shape.offset + shape.length == |FrameCodec.Concat(chunks)| ==> Cut(shape, chunks)
  {
    if shape.Good? {
      BoundaryWithin(chunks, shape.offset + shape.length);
    }
  }

  lemma CutNext(shape: Shape, chunks: seq<bytes>)
    requires chunks != []
    ensures Cut(shape, chunks) <==>
              || Cut(shape, chunks[..|chunks| - 1])
              || (shape.Good? && shape.offset + shape.length == |FrameCodec.Concat(chunks)|)
  {
    if shape.Good? {
      BoundaryNext(chunks, shape.offset + shape.length);
    }
  }

  /**
   Every chunking of every stream. The parser succeeds exactly when some read
   ended at the last byte of the declared body; nothing else about the cuts
   matters.
   */
  lemma {:induction false} ChunkOutcome(chunks: seq<bytes>)
    ensures var s := FrameCodec.Concat(chunks);
            var shape := ShapeOf(s);
            && (Cut(shape, chunks) ==> shape.offset + shape.length <= |s|)
            && FeedAll(chunks) == Outcome(shape, s, Cut(shape, chunks))
    decreases |chunks|
  {
    var s := FrameCodec.Concat(chunks);
    var shape := ShapeOf(s);
    CutWithin(shape, chunks);
    if chunks != [] {
      var front, last := chunks[..|chunks| - 1], chunks[|chunks| - 1];
      var t := FrameCodec.Concat(front);
      ChunkOutcome(front);
      ShapeStable(t, s);
      CutWithin(shape, front);
      CutNext(shape, chunks);
      OutcomeNext(ShapeOf(t), shape, t, s, Cut(ShapeOf(t), front), Cut(shape, chunks));
      assert FeedAll(chunks) == Feed(FeedAll(front), last);
    }
  }

  /** One more read, in terms of shapes and cuts alone. */
  lemma OutcomeNext(before: Shape, after: Shape, t: bytes, s: bytes, cut: bool, cut': bool)
    requires (before.Good? ==> before.offset <= |t|) && (after.Good? ==> after.offset <= |s|) && t <= s
    requires !before.Headless? ==> after == before
    requires before.Headless? && after.Good? ==> after.offset > |t|
    requires cut ==> before.Good? && before.offset + before.length <= |t|
    requires before.Good? && before.offset + before.length == |t| ==> cut
    requires cut' <==> cut || (after.Good? && after.offset + after.length == |s|)
    ensures var p := Outcome(before, t, cut);
            Outcome(after, s, cut') == if p.Closed? then p else Judged(after, s)
  {
    if cut {
      assert s[after.offset..after.offset + after.length] == t[after.offset..after.offset + after.length];
    }
  }

  /** More bytes follow the declared body. */
  predicate Overlong(s: bytes) {
    ShapeOf(s).Good? && |s| > ShapeOf(s).offset + ShapeOf(s).length
  }

  /** Chunk independence: unless the body is overlong, every chunking gives what one read of the whole gives. */
  lemma ChunkIndependence(chunks: seq<bytes>)
    requires !Overlong(FrameCodec.Concat(chunks))
    ensures FeedAll(chunks) == Judge(FrameCodec.Concat(chunks))
    ensures AtEof(FeedAll(chunks)) == AtEof(Judge(FrameCodec.Concat(chunks)))
  {
    ChunkOutcome(chunks);
    CutWithin(ShapeOf(FrameCodec.Concat(chunks)), chunks);
  }

  /** An overlong body is cut off or refused, depending on one thing only: whether a read ended where it should. */
  lemma OverlongOutcome(chunks: seq<bytes>)
    requires Overlong(FrameCodec.Concat(chunks))
    ensures var s := FrameCodec.Concat(chunks);
            var shape := ShapeOf(s);
            var n := shape.offset + shape.length;
            FeedAll(chunks) == Closed(if Boundary(chunks, n) then Complete(shape.status, s[shape.offset..n])
                                      else Failed(MalformedResponse, shape.status))
  {
    ChunkOutcome(chunks);
  }

  /** A parser that has not finished holds the whole stream so far, and less than both limits together. */
  lemma {:induction false} UnfinishedIsSmall(chunks: seq<bytes>)
    requires FeedAll(chunks).Open?
    ensures FeedAll(chunks).received == FrameCodec.Concat(chunks)
    ensures |FeedAll(chunks).received| < MAX_HEADER + MAX_CONTENT
  {
    ChunkOutcome(chunks);
    CutWithin(ShapeOf(FrameCodec.Concat(chunks)), chunks);
  }

  lemma {:induction false} NonEmptyAddUp(chunks: seq<bytes>)
    requires forall c :: c in chunks ==> c != []
    ensures |FrameCodec.Concat(chunks)| >= |chunks|
    decreases |chunks|
  {
    if chunks != [] {
      var front := chunks[..|chunks| - 1];
      forall c | c in front ensures c != [] {
        assert c in chunks;
      }
      NonEmptyAddUp(front);
      assert chunks[|chunks| - 1] in chunks;
    }
  }

  /** No peer can keep the receive loop going: so many non-empty reads always finish the parser. */
  lemma EnoughReadsFinish(chunks: seq<bytes>)
    requires (forall c :: c in chunks ==> c != []) && |chunks| >= MAX_HEADER + MAX_CONTENT
    ensures FeedAll(chunks).Closed?
  {
    NonEmptyAddUp(chunks);
    if FeedAll(chunks).Open? {
      UnfinishedIsSmall(chunks);
      assert false;
    }
  }

  // -------------------------------------------------------------------------
  // The parser as written
  // -------------------------------------------------------------------------

  class HttpResponseParser {
    var received: bytes
    var contentLength: Option<nat>
    var bodyOffset: nat
    var statusCode: nat
    var headersParsed: bool
    var done: bool
    var result: HttpResult

    ghost function View(): Progress
      reads this
    {
      if done then Closed(result) else Open(received)
    }

    /** The cached header facts are those of what was received. */
    ghost predicate Valid()
      reads this
    {
      !done ==>
        var shape := ShapeOf(received);
        if headersParsed then
          shape == Good(statusCode, bodyOffset, Unwrapped()) && contentLength.Some?
          && |received| < bodyOffset + contentLength.value
        else
          shape == Headless && statusCode == 0 && contentLength == None
    }

    ghost function Unwrapped(): nat
      reads this
    {
      if contentLength.Some? then contentLength.value else 0
    }

    constructor ()
      ensures Valid() && View() == Open([])
    {
      received, contentLength, bodyOffset, statusCode := [], None, 0, 0;
      headersParsed, done, result := false, false, HttpResult(NoError, 0, []);
      new;
      assert Find(received, END, 0) == None;
    }

    method Fail(error: HttpError, status: nat)
      modifies this`result, this`done
      ensures done && result == Failed(error, status)
    {
      result := HttpResult(error, status, []);
      done := true;
    }

    /** `consume` */
    method Consume(chunk: bytes)
      requires Valid()
      modifies this
      ensures Valid() && View() == Feed(old(View()), chunk)
    {
      if done {
        return;
      }
      ShapeStable(received, received + chunk);
      received := received + chunk;
      if !headersParsed {
        var headerEnd := Find(received, END, 0);
        FindSpec(received, END, 0);
        if headerEnd.None? {
          if |received| > MAX_HEADER {
            Fail(HeaderTooLarge, 0);
          }
          return;
        }
        if headerEnd.value + 4 > MAX_HEADER {
          Fail(HeaderTooLarge, 0);
          return;
        }
        var parsed := ParseHeaders(headerEnd.value);
        if !parsed {
          return;
        }
        bodyOffset := headerEnd.value + 4;
        headersParsed := true;
      }
      FinishBodyIfComplete();
    }

    /** `parseHeaders`: a cursor runs over the lines of the header section. */
    method ParseHeaders(headerEnd: nat) returns (ok: bool)
      requires !done && EndsAt(received, headerEnd) && contentLength == None
      modifies this`statusCode, this`contentLength, this`done, this`result
      ensures ok ==> !done && contentLength.Some?
                     && HeadOf(received[..headerEnd]) == Accepted(statusCode, contentLength.value)
      ensures !ok ==> done && HeadOf(received[..headerEnd]).Rejected?
                      && var h := HeadOf(received[..headerEnd]); result == Failed(h.error, h.status)
    {
      ghost var head := received[..headerEnd];
      assert received[0..headerEnd] == head;
      if headerEnd > 0 {
        var _ := NextLine(received, headerEnd, 0);
        CursorFindsLines(received, headerEnd, 0);
      }
      var statusEnd := Find(received, CRLF, 0);
      if statusEnd.None? || statusEnd.value >= headerEnd {
        Fail(MalformedResponse, 0);
        return false;
      }
      var statusLine := received[..statusEnd.value];
      assert received[0..statusEnd.value] == statusLine;
      if !SaneStatusLine(statusLine) {
        Fail(MalformedResponse, 0);
        return false;
      }
      statusCode := StatusOf(statusLine);
      var cursor := statusEnd.value + 2;
      assert Lines(head)[1..] == LinesFrom(received, cursor, headerEnd);
      ok := ParseFields(cursor, headerEnd);
    }

    /** The loop of `parseHeaders` over the header fields, and the checks after it. */
    method ParseFields(start: nat, headerEnd: nat) returns (ok: bool)
      requires !done && EndsAt(received, headerEnd) && contentLength == None && start < headerEnd
      modifies this`contentLength, this`done, this`result
      ensures var h := Fields(LinesFrom(received, start, headerEnd), statusCode, None, false);
              if ok then !done && contentLength.Some? && h == Accepted(statusCode, contentLength.value)
              else done && h.Rejected? && result == Failed(h.error, h.status)
    {
      var hasTransferEncoding := false;
      var cursor := start;
      ghost var h := Fields(LinesFrom(received, start, headerEnd), statusCode, None, false);
      while cursor < headerEnd
        invariant cursor < headerEnd || cursor == headerEnd + 2
        invariant !done
        invariant h == Fields(LinesFrom(received, cursor, headerEnd), statusCode, contentLength, hasTransferEncoding)
        decreases headerEnd + 2 - cursor
      {
        ok, cursor, hasTransferEncoding := ReadLine(cursor, headerEnd, hasTransferEncoding);
        if !ok {
          return;
        }
      }
      ok := CheckFields(hasTransferEncoding);
    }

    /** One turn of that loop: the line at `cursor`, and where the next one starts. */
    method ReadLine(cursor: nat, headerEnd: nat, transferSeen: bool) returns (ok: bool, next: nat, transfer: bool)
      requires !done && EndsAt(received, headerEnd) && cursor < headerEnd
      modifies this`contentLength, this`done, this`result
      ensures cursor < next && (next < headerEnd || next == headerEnd + 2)
      ensures var h := Fields(LinesFrom(received, cursor, headerEnd), statusCode, old(contentLength), transferSeen);
              if ok then !done && h == Fields(LinesFrom(received, next, headerEnd), statusCode, contentLength, transfer)
              else done && h.Rejected? && result == Failed(h.error, h.status)
    {
      var _ := NextLine(received, headerEnd, cursor);
      var found := Find(received, CRLF, cursor);
      var lineEnd := if found.None? || found.value > headerEnd then headerEnd else found.value;
      next := lineEnd + 2;
      ok, transfer := ReadField(received[cursor..lineEnd], transferSeen, LinesFrom(received, next, headerEnd));
    }

    method CheckFields(hasTransferEncoding: bool) returns (ok: bool)
      requires !done
      modifies this`done, this`result
      ensures var h := FieldsDone(statusCode, contentLength, hasTransferEncoding);
              if ok then !done && contentLength.Some? && h == Accepted(statusCode, contentLength.value)
              else done && h.Rejected? && result == Failed(h.error, h.status)
    {
      if hasTransferEncoding && contentLength.Some? {
        Fail(MalformedResponse, statusCode);
        return false;
      }
      if hasTransferEncoding {
        Fail(UnsupportedTransferEncoding, statusCode);
        return false;
      }
      if contentLength.None? {
        Fail(MissingContentLength, statusCode);
        return false;
      }
      return true;
    }

    /** One line; `rest` is the lines still to come. */
    method ReadField(line: bytes, transferSeen: bool, ghost rest: seq<bytes>) returns (ok: bool, transfer: bool)
      requires !done
      modifies this`contentLength, this`done, this`result
      ensures var h := Fields([line] + rest, statusCode, old(contentLength), transferSeen);
              if ok then !done && h == Fields(rest, statusCode, contentLength, transfer)
              else done && h.Rejected? && result == Failed(h.error, h.status)
    {
      FieldsCons(line, rest, statusCode, contentLength, transferSeen);
      ok, transfer := false, transferSeen;
      if line == [] {
        Fail(MalformedResponse, statusCode);
        return;
      }
      var separator := Find(line, COLON, 0);
      if separator.None? || separator.value == 0 {
        Fail(MalformedResponse, statusCode);
        return;
      }
      var name := Lower(line[..separator.value]);
      var value := line[separator.value + 1..];
      if name == CONTENT_LENGTH {
        if contentLength.Some? {
          Fail(DuplicateContentLength, statusCode);
          return;
        }
        var parsed := ParseContentLength(value);
        if parsed.None? {
          Fail(MalformedResponse, statusCode);
          return;
        }
        if parsed.value > MAX_CONTENT {
          Fail(BodyTooLarge, statusCode);
          return;
        }
        contentLength := parsed;
      } else if name == TRANSFER_ENCODING {
        transfer := true;
      } else if name == UPGRADE || name == CONTENT_ENCODING {
        Fail(MalformedResponse, statusCode);
        return;
      }
      ok := true;
    }

    /** `finishBodyIfComplete` */
    method FinishBodyIfComplete()
      requires !done && headersParsed && contentLength.Some?
      requires ShapeOf(received) == Good(statusCode, bodyOffset, contentLength.value)
      modifies this`result, this`done
      ensures Valid() && View() == Judge(received)
    {
      var bodyBytes := |received| - bodyOffset;
      if bodyBytes > contentLength.value {
        Fail(MalformedResponse, statusCode);
        return;
      }
      if bodyBytes < contentLength.value {
        return;
      }
      result := HttpResult(if statusCode < 200 || statusCode >= 300 then HttpStatusError else NoError, statusCode,
                           received[bodyOffset..bodyOffset + contentLength.value]);
      done := true;
    }

    method FinishOnTransportError(error: HttpError)
      requires Valid()
      modifies this`result, this`done
      ensures Valid() && View() == Closed(AtError(old(View()), error))
    {
      if !done {
        Fail(error, statusCode);
      }
    }

    method FinishOnEof()
      requires Valid()
      modifies this`result, this`done
      ensures Valid() && View() == Closed(AtEof(old(View())))
    {
      if !done {
        Fail(if headersParsed then PrematureEof else MalformedResponse, statusCode);
      }
    }
  }

  // -------------------------------------------------------------------------
  // The receive loop
  // -------------------------------------------------------------------------

  /** What one `receive` call brings. */
  datatype Event = Chunk(data: bytes) | PeerClosed | Fault(error: HttpError)

  function Chunks(socket: nat -> Event, n: nat): (chunks: seq<bytes>)
    requires forall i :: 0 <= i < n ==> socket(i).Chunk?
    ensures |chunks| == n
  {
    if n == 0 then [] else Chunks(socket, n - 1) + [socket(n - 1).data]
  }

  /** The result of a receive loop that stopped after `n` chunks. */
  function Received(socket: nat -> Event, n: nat): HttpResult
    requires forall i :: 0 <= i < n ==> socket(i).Chunk?
  {
    var p := FeedAll(Chunks(socket, n));
    match socket(n)
    case Fault(error) => AtError(p, error)
    case _ => AtEof(p)
  }

  lemma FeedNext(socket: nat -> Event, n: nat)
    requires forall i :: 0 <= i <= n ==> socket(i).Chunk?
    ensures FeedAll(Chunks(socket, n + 1)) == Feed(FeedAll(Chunks(socket, n)), socket(n).data)
  {
    var chunks := Chunks(socket, n + 1);
    assert chunks[..|chunks| - 1] == Chunks(socket, n);
  }

  /**
   The receive loop of `requestJsonOnce` against any peer, even one that never
   stops sending. A read brings at least one byte. It stops at the first event
   that settles the result.
   */
  method ReceiveResponse(socket: nat -> Event) returns (r: HttpResult, n: nat)
    requires forall i: nat :: socket(i).Chunk? ==> socket(i).data != []
    ensures n <= MAX_HEADER + MAX_CONTENT
    ensures forall i :: 0 <= i < n ==> socket(i).Chunk?
    ensures FeedAll(Chunks(socket, n)).Closed? || !socket(n).Chunk?
    ensures r == Received(socket, n)
  {
    var parser := new HttpResponseParser();
    n := 0;
    while !parser.done
      invariant fresh(parser) && parser.Valid()
      invariant forall i :: 0 <= i < n ==> socket(i).Chunk?
      invariant parser.View() == FeedAll(Chunks(socket, n))
      invariant n <= MAX_HEADER + MAX_CONTENT
      invariant !parser.done ==> n < MAX_HEADER + MAX_CONTENT
      decreases MAX_HEADER + MAX_CONTENT - n, !parser.done
    {
      var event := socket(n);
      match event {
        case Fault(error) =>
          parser.FinishOnTransportError(error);
          break;
        case PeerClosed =>
          parser.FinishOnEof();
          break;
        case Chunk(data) =>
          FeedNext(socket, n);
          parser.Consume(data);
          n := n + 1;
          StillSmall(socket, n);
      }
    }
    r := parser.result;
  }

  lemma {:induction false} ChunksNonEmpty(socket: nat -> Event, n: nat)
    requires forall i: nat :: socket(i).Chunk? ==> socket(i).data != []
    requires forall i :: 0 <= i < n ==> socket(i).Chunk?
    ensures forall c :: c in Chunks(socket, n) ==> c != []
  {
    if n > 0 {
      ChunksNonEmpty(socket, n - 1);
    }
  }

  lemma StillSmall(socket: nat -> Event, n: nat)
    requires forall i: nat :: socket(i).Chunk? ==> socket(i).data != []
    requires forall i :: 0 <= i < n ==> socket(i).Chunk?
    ensures FeedAll(Chunks(socket, n)).Open? ==> n < MAX_HEADER + MAX_CONTENT
  {
    ChunksNonEmpty(socket, n);
    if n >= MAX_HEADER + MAX_CONTENT {
      EnoughReadsFinish(Chunks(socket, n));
    }
  }
}
