/**
 Which byte streams are responses: exactly the well-formed ones, however they are
 cut up in transit, are read back whole, and a truncated one never is.
 */
module HttpRoundTrip {
  import opened Bytes
  import opened Options
  import opened HttpHead
  import opened HttpParser
  import FrameCodec

  // -------------------------------------------------------------------------
  // Lines on the wire
  // -------------------------------------------------------------------------

  /** Text without a line end inside. */
  predicate OneLine(line: bytes) {
    Find(line, CRLF, 0) == None
  }

  /** Lines that can follow each other in a header section: an empty one after the first would end it. */
  predicate Listing(lines: seq<bytes>) {
    && |lines| > 0
    && (forall i :: 0 <= i < |lines| ==> OneLine(lines[i]))
    && (forall i :: 1 <= i < |lines| ==> lines[i] != [])
  }

  /** A response, or the beginning of one: a header section and what follows it. */
  function Message(lines: seq<bytes>, tail: bytes): bytes
    requires |lines| > 0
  {
    Joined(lines) + END + tail
  }

  /** No line end starts within a line that a return follows. */
  lemma NoneWithin(a: bytes, b: bytes, i: nat)
    requires OneLine(a) && |b| > 0 && b[0] == 13 && i < |a|
    ensures !At(a + b, CRLF, i)
  {
    FindSpec(a, CRLF, 0);
    var s := a + b;
    if i + 2 <= |a| {
      AtSlice(s, 0, |a|, CRLF, i);
      assert s[0..|a|] == a;
    } else if i + 2 <= |s| {
      assert s[i..i + 2][1] == b[0];
    }
  }

  lemma FirstLineEnd(a: bytes, b: bytes)
    requires OneLine(a) && |b| >= 2 && b[..2] == CRLF
    ensures Find(a + b, CRLF, 0) == Some(|a|)
  {
    forall i: nat | i < |a| ensures !At(a + b, CRLF, i) {
      NoneWithin(a, b, i);
    }
    assert (a + b)[|a|..|a| + 2] == b[..2];
    FindIs(a + b, CRLF, 0, |a|);
  }

  /** Splitting undoes joining. */
  lemma {:induction false} JoinedLines(lines: seq<bytes>)
    requires Listing(lines)
    ensures Lines(Joined(lines)) == lines
    decreases |lines|
  {
    var a := lines[0];
    assert OneLine(a);
    if |lines| == 1 {
      assert lines == [a];
    } else {
      var rest := CRLF + Joined(lines[1..]);
      var s := Joined(lines);
      assert s == a + rest;
      FirstLineEnd(a, rest);
      assert s[..|a|] == a && s[|a| + 2..] == Joined(lines[1..]);
      assert Listing(lines[1..]);
      JoinedLines(lines[1..]);
      assert lines == [a] + lines[1..];
    }
  }

  /** A header section that starts with a return starts with a line end only if its first line is empty. */
  lemma StartsWithLine(lines: seq<bytes>, tail: bytes)
    requires Listing(lines) && lines[0] != []
    ensures !At(Message(lines, tail), CRLF, 0)
  {
    var a := lines[0];
    var b := if |lines| == 1 then END + tail else CRLF + Message(lines[1..], tail);
    assert OneLine(a);
    assert Message(lines, tail) == a + b by {
      MessageSplit(lines, tail);
    }
    NoneWithin(a, b, 0);
  }

  lemma MessageSplit(lines: seq<bytes>, tail: bytes)
    requires |lines| > 0
    ensures Message(lines, tail)
            == lines[0] + if |lines| == 1 then END + tail else CRLF + Message(lines[1..], tail)
  {
    if |lines| == 1 {
      assert lines[0] + END + tail == lines[0] + (END + tail);
    } else {
      var j := Joined(lines[1..]);
      assert lines[0] + CRLF + j + END + tail == lines[0] + (CRLF + (j + END + tail));
    }
  }

  /** The end of a header section is two line ends. */
  lemma EndNeedsTwo(s: bytes, i: nat)
    ensures !At(s, CRLF, i) || !At(s, CRLF, i + 2) ==> !At(s, END, i)
  {
    if At(s, END, i) {
      EndStartsWithLineEnd(s, i);
      assert s[i..i + 4][2..4] == s[i + 2..i + 4];
      assert END[2..4] == CRLF;
    }
  }

  /** The header section ends where its lines do. */
  lemma {:induction false} MessageEnds(lines: seq<bytes>, tail: bytes)
    requires Listing(lines)
    ensures EndsAt(Message(lines, tail), |Joined(lines)|)
    decreases |lines|
  {
    var s, a := Message(lines, tail), lines[0];
    assert OneLine(a);
    MessageSplit(lines, tail);
    var e := |Joined(lines)|;
    assert s[e..e + 4] == END;
    if |lines| == 1 {
      forall i: nat | i < e ensures !At(s, END, i) {
        NoneWithin(a, END + tail, i);
        EndNeedsTwo(s, i);
      }
    } else {
      assert Listing(lines[1..]);
      MessageEnds(lines[1..], tail);
      StartsWithLine(lines[1..], tail);
      forall i: nat | i < e ensures !At(s, END, i) {
        NoEndBefore(a, Message(lines[1..], tail), |Joined(lines[1..])|, i);
      }
    }
  }

  /** After one more line in front, the header section ends that much later. */
  lemma NoEndBefore(a: bytes, t: bytes, e: nat, i: nat)
    requires OneLine(a) && EndsAt(t, e) && !At(t, CRLF, 0) && i < |a| + 2 + e
    ensures !At(a + (CRLF + t), END, i)
  {
    var s := a + (CRLF + t);
    EndNeedsTwo(s, i);
    if i < |a| {
      NoneWithin(a, CRLF + t, i);
    } else if i == |a| {
      Behind(a, t, CRLF, 0);
    } else if i == |a| + 1 {
      if i + 4 <= |s| {
        assert s[i..i + 4][0] == s[i] == 10;
      }
    } else {
      Behind(a, t, END, i - |a| - 2);
    }
  }

  lemma Behind(a: bytes, t: bytes, pattern: bytes, i: nat)
    ensures At(a + (CRLF + t), pattern, |a| + 2 + i) <==> At(t, pattern, i)
  {
    var s, n := a + (CRLF + t), |a| + 2;
    assert s[n..] == t;
    if i + |pattern| <= |t| {
      AtSlice(s, n, |s|, pattern, i);
      assert s[n..|s|] == t;
    }
  }

  // -------------------------------------------------------------------------
  // Well-formed responses
  // -------------------------------------------------------------------------

  /**
   The header section of a response of `n` body bytes: a status line with any
   reason phrase, then any header fields that the client tolerates, in any order,
   with one Content-Length among them, spelled in any way that means `n`.
   */
  predicate WellFormed(lines: seq<bytes>, status: nat, n: nat) {
    && Listing(lines) && |Joined(lines)| + 4 <= MAX_HEADER
    && SaneStatusLine(lines[0]) && StatusOf(lines[0]) == status
    && Harmless(lines[1..])
    && |Lengths(lines[1..])| == 1 && ContentLength(Lengths(lines[1..])[0]) == Some(n)
    && n <= MAX_CONTENT
  }

  lemma HeadOfLines(lines: seq<bytes>)
    requires Listing(lines)
    ensures HeadOf(Joined(lines))
            == if |lines| == 1 || !SaneStatusLine(lines[0]) then Rejected(MalformedResponse, 0)
               else Fields(lines[1..], StatusOf(lines[0]), None, false)
  {
    JoinedLines(lines);
  }

  lemma MessageShape(lines: seq<bytes>, tail: bytes)
    requires Listing(lines) && |Joined(lines)| + 4 <= MAX_HEADER
    ensures var h := HeadOf(Joined(lines));
            ShapeOf(Message(lines, tail))
            == if h.Accepted? then Good(h.status, |Joined(lines)| + 4, h.length) else Bad(h.error, h.status)
  {
    var s, head := Message(lines, tail), Joined(lines);
    MessageEnds(lines, tail);
    FindIs(s, END, 0, |head|);
    assert s[..|head|] == head;
  }

  lemma WellFormedShape(lines: seq<bytes>, status: nat, n: nat, tail: bytes)
    requires WellFormed(lines, status, n)
    ensures ShapeOf(Message(lines, tail)) == Good(status, |Joined(lines)| + 4, n)
  {
    MessageShape(lines, tail);
    HeadOfLines(lines);
    FieldsAccept(lines[1..], status, None, false);
  }

  /** Completeness: every chunking of every well-formed response gives back its status and its body. */
  lemma ResponseIsRead(lines: seq<bytes>, status: nat, body: bytes, chunks: seq<bytes>)
    requires WellFormed(lines, status, |body|)
    requires FrameCodec.Concat(chunks) == Message(lines, body)
    ensures FeedAll(chunks) == Closed(Complete(status, body))
  {
    WellFormedShape(lines, status, |body|, body);
    var s := Message(lines, body);
    ChunkIndependence(chunks);
    assert s[|s| - |body|..|s|] == body;
  }

  /**
   A response cut short anywhere is never taken for a response, nor is any of its
   body handed out. The error says whether the header section had arrived.
   */
  lemma TruncationIsNoticed(lines: seq<bytes>, status: nat, body: bytes, chunks: seq<bytes>)
    requires WellFormed(lines, status, |body|)
    requires FrameCodec.Concat(chunks) < Message(lines, body)
    ensures AtEof(FeedAll(chunks))
            == if |FrameCodec.Concat(chunks)| < |Joined(lines)| + 4 then Failed(MalformedResponse, 0)
               else Failed(PrematureEof, status)
    ensures forall error :: AtError(FeedAll(chunks), error)
                            == Failed(error, if |FrameCodec.Concat(chunks)| < |Joined(lines)| + 4 then 0 else status)
  {
    var s, p := Message(lines, body), FrameCodec.Concat(chunks);
    WellFormedShape(lines, status, |body|, body);
    ShapeStable(p, s);
    ChunkIndependence(chunks);
  }

  /** Soundness: whatever is read as a complete response began with a well-formed one of that status and body. */
  lemma OnlyResponsesAreRead(chunks: seq<bytes>, status: nat, body: bytes) returns (lines: seq<bytes>)
    requires FeedAll(chunks) == Closed(Complete(status, body))
    ensures WellFormed(lines, status, |body|)
    ensures Message(lines, body) <= FrameCodec.Concat(chunks)
  {
    var s := FrameCodec.Concat(chunks);
    CompleteIsNoFailure(chunks, status, body);
    lines := GoodIsWellFormed(s);
    PrefixOf(s, Joined(lines) + END, body);
  }

  lemma PrefixOf(s: bytes, a: bytes, b: bytes)
    requires |a| + |b| <= |s| && s[..|a|] == a && s[|a|..|a| + |b|] == b
    ensures a + b <= s
  {
    assert s[..|a| + |b|] == s[..|a|] + s[|a|..|a| + |b|];
  }

  /** No failure looks like a complete response. */
  lemma {:induction false} CompleteIsNoFailure(chunks: seq<bytes>, status: nat, body: bytes)
    requires FeedAll(chunks) == Closed(Complete(status, body))
    ensures var s := FrameCodec.Concat(chunks);
            && ShapeOf(s).Good? && Cut(ShapeOf(s), chunks)
            && ShapeOf(s).status == status && ShapeOf(s).length == |body|
            && ShapeOf(s).offset + |body| <= |s|
            && body == s[ShapeOf(s).offset..ShapeOf(s).offset + |body|]
  {
    ChunkOutcome(chunks);
    HeadErrors(FrameCodec.Concat(chunks));
  }

  lemma HeadErrors(s: bytes)
    ensures ShapeOf(s).Bad? ==> ShapeOf(s).error != NoError && ShapeOf(s).error != HttpStatusError
    ensures Find(s, END, 0).Some? && Find(s, END, 0).value + 4 <= MAX_HEADER && ShapeOf(s).Bad? ==>
              ShapeOf(s).error != HeaderTooLarge
  {
    var f := Find(s, END, 0);
    if f.Some? {
      var lines := Lines(s[..f.value]);
      if |lines| > 1 && SaneStatusLine(lines[0]) {
        FieldErrors(lines[1..], StatusOf(lines[0]), None, false);
      }
    }
  }

  /** More than 16 KiB have come, and no empty line ends within the first 16 KiB. */
  predicate BeyondLimit(s: bytes) {
    && |s| > 16384
    && forall i :: 0 <= i <= 16380 ==> !(s[i] == 13 && s[i + 1] == 10 && s[i + 2] == 13 && s[i + 3] == 10)
  }

  lemma EndByBytes(s: bytes, i: nat)
    requires i + 4 <= |s|
    ensures At(s, END, i) <==> s[i] == 13 && s[i + 1] == 10 && s[i + 2] == 13 && s[i + 3] == 10
  {
    assert s[i..i + 4] == [s[i], s[i + 1], s[i + 2], s[i + 3]];
  }

  lemma BeyondIsUnfound(s: bytes)
    ensures BeyondLimit(s) <==>
              |s| > MAX_HEADER && (Find(s, END, 0).None? || Find(s, END, 0).value + 4 > MAX_HEADER)
  {
    var f := Find(s, END, 0);
    FindSpec(s, END, 0);
    if |s| > MAX_HEADER {
      if f.Some? && f.value <= 16380 {
        EndByBytes(s, f.value);
      } else {
        forall i: nat | i <= 16380
          ensures !(s[i] == 13 && s[i + 1] == 10 && s[i + 2] == 13 && s[i + 3] == 10)
        {
          EndByBytes(s, i);
        }
      }
    }
  }

  lemma TooLargeIsUnfound(s: bytes)
    ensures ShapeOf(s).Bad? && ShapeOf(s).error == HeaderTooLarge <==> BeyondLimit(s)
    ensures BeyondLimit(s) ==> ShapeOf(s) == Bad(HeaderTooLarge, 0)
  {
    HeadErrors(s);
    BeyondIsUnfound(s);
    var f := Find(s, END, 0);
    FindSpec(s, END, 0);
    assert f.Some? ==> f.value + 4 <= |s|;
  }

  /** HeaderTooLarge exactly when 16 KiB have passed without the end of a header section. */
  lemma HeaderTooLargeExactly(chunks: seq<bytes>)
    ensures FeedAll(chunks) == Closed(Failed(HeaderTooLarge, 0)) <==> BeyondLimit(FrameCodec.Concat(chunks))
  {
    ChunkOutcome(chunks);
    TooLargeIsUnfound(FrameCodec.Concat(chunks));
  }

  lemma {:induction false} FieldErrors(lines: seq<bytes>, status: nat, length: Option<nat>, transfer: bool)
    ensures var h := Fields(lines, status, length, transfer);
            h.Rejected? ==> h.error != NoError && h.error != HttpStatusError && h.error != HeaderTooLarge
    decreases |lines|
  {
    if lines != [] {
      match FieldOf(lines[0]) {
        case Plain => FieldErrors(lines[1..], status, length, transfer);
        case Transfer => FieldErrors(lines[1..], status, length, true);
        case Length(raw) => FieldErrors(lines[1..], status, ContentLength(raw), transfer);
        case _ =>
      }
    }
  }

  /** A header section that is accepted is well-formed. */
  lemma GoodIsWellFormed(s: bytes) returns (lines: seq<bytes>)
    requires ShapeOf(s).Good?
    ensures WellFormed(lines, ShapeOf(s).status, ShapeOf(s).length)
    ensures |Joined(lines)| + 4 == ShapeOf(s).offset
    ensures s[..|Joined(lines)| + 4] == Joined(lines) + END
  {
    var e := Find(s, END, 0).value;
    FindSpec(s, END, 0);
    lines := Lines(s[..e]);
    LinesJoin(s[..e]);
    assert s[..e + 4] == s[..e] + s[e..e + 4];
    FieldsAccept(lines[1..], StatusOf(lines[0]), None, false);
    HarmlessIsListing(lines);
  }

  lemma HarmlessIsListing(lines: seq<bytes>)
    requires |lines| > 0 && Harmless(lines[1..]) && forall line :: line in lines ==> Find(line, CRLF, 0) == None
    ensures Listing(lines)
  {
    forall i | 1 <= i < |lines| ensures lines[i] != [] {
      assert lines[i] == lines[1..][i - 1];
      EmptyIsBroken();
    }
  }

  lemma EmptyIsBroken()
    ensures FieldOf([]) == Broken
  {
  }

  /** A header section that is refused is refused with its error and status, whatever follows it. */
  lemma HeadErrorIsReported(lines: seq<bytes>, tail: bytes, chunks: seq<bytes>)
    requires Listing(lines) && |Joined(lines)| + 4 <= MAX_HEADER
    requires FrameCodec.Concat(chunks) == Message(lines, tail) && HeadOf(Joined(lines)).Rejected?
    ensures var h := HeadOf(Joined(lines)); FeedAll(chunks) == Closed(Failed(h.error, h.status))
  {
    MessageShape(lines, tail);
    ChunkOutcome(chunks);
  }

  /** The errors that only the header fields can cause. */
  predicate ByFields(error: HttpError) {
    error.BodyTooLarge? || error.DuplicateContentLength? || error.MissingContentLength?
    || error.UnsupportedTransferEncoding?
  }

  /** The parser reports such an error exactly when the fields call for it, whatever the chunking and the rest. */
  lemma FieldErrorIsReported(lines: seq<bytes>, tail: bytes, chunks: seq<bytes>, error: HttpError)
    requires Listing(lines) && |lines| > 1 && |Joined(lines)| + 4 <= MAX_HEADER && SaneStatusLine(lines[0])
    requires FrameCodec.Concat(chunks) == Message(lines, tail) && ByFields(error)
    ensures var status := StatusOf(lines[0]);
            FeedAll(chunks) == Closed(Failed(error, status)) <==>
              Fields(lines[1..], status, None, false) == Rejected(error, status)
  {
    HeadOfLines(lines);
    HeadVerdict(lines, tail, chunks, error, StatusOf(lines[0]));
  }

  lemma HeadVerdict(lines: seq<bytes>, tail: bytes, chunks: seq<bytes>, error: HttpError, status: nat)
    requires Listing(lines) && |Joined(lines)| + 4 <= MAX_HEADER
    requires FrameCodec.Concat(chunks) == Message(lines, tail) && ByFields(error)
    ensures FeedAll(chunks) == Closed(Failed(error, status)) <==> HeadOf(Joined(lines)) == Rejected(error, status)
  {
    MessageShape(lines, tail);
    if HeadOf(Joined(lines)).Rejected? {
      HeadErrorIsReported(lines, tail, chunks);
    } else {
      GoodIsNoFieldError(chunks, error, status);
    }
  }

  lemma {:induction false} GoodIsNoFieldError(chunks: seq<bytes>, error: HttpError, status: nat)
    requires ShapeOf(FrameCodec.Concat(chunks)).Good? && ByFields(error)
    ensures FeedAll(chunks) != Closed(Failed(error, status))
  {
    ChunkOutcome(chunks);
  }

  /** BodyTooLarge is reported exactly for a first Content-Length over the limit that no offence precedes. */
  lemma TooLargeIsReported(lines: seq<bytes>, tail: bytes, chunks: seq<bytes>)
    requires Listing(lines) && |lines| > 1 && |Joined(lines)| + 4 <= MAX_HEADER && SaneStatusLine(lines[0])
    requires FrameCodec.Concat(chunks) == Message(lines, tail)
    ensures FeedAll(chunks) == Closed(Failed(BodyTooLarge, StatusOf(lines[0]))) <==>
              exists i :: 1 <= i < |lines| && TooLong(lines[i]) && forall j :: 1 <= j < i ==> Passing(lines[j])
  {
    FieldErrorIsReported(lines, tail, chunks, BodyTooLarge);
    BodyTooLargeExactly(lines[1..], StatusOf(lines[0]));
    ShiftTooLong(lines);
  }

  lemma ShiftTooLong(lines: seq<bytes>)
    requires |lines| > 0
    ensures (exists i :: 1 <= i < |lines| && TooLong(lines[i]) && forall j :: 1 <= j < i ==> Passing(lines[j]))
            <==> (var fields := lines[1..];
                  exists i :: 0 <= i < |fields| && TooLong(fields[i]) && forall j :: 0 <= j < i ==> Passing(fields[j]))
  {
    var fields := lines[1..];
    if i :| 1 <= i < |lines| && TooLong(lines[i]) && forall j :: 1 <= j < i ==> Passing(lines[j]) {
      assert fields[i - 1] == lines[i];
      assert forall j :: 0 <= j < i - 1 ==> fields[j] == lines[j + 1];
    }
    if i :| 0 <= i < |fields| && TooLong(fields[i]) && forall j :: 0 <= j < i ==> Passing(fields[j]) {
      assert lines[i + 1] == fields[i];
      assert forall j :: 1 <= j < i + 1 ==> lines[j] == fields[j - 1];
    }
  }

  // -------------------------------------------------------------------------
  // Numerals
  // -------------------------------------------------------------------------

  function DigitOf(d: nat): (b: byte)
    requires d < 10
    ensures Digit(b) && Value(b) == d
  {
    48 + d
  }

  function DecimalText(n: nat): (text: bytes)
    ensures text != [] && forall i :: 0 <= i < |text| ==> Digit(text[i])
  {
    (if n < 10 then [] else DecimalText(n / 10)) + [DigitOf(n % 10)]
  }

  lemma {:induction false} DecimalRoundTrip(n: nat)
    ensures Decimal(DecimalText(n)) == n
  {
    var text := DecimalText(n);
    if n < 10 {
      assert text[..|text| - 1] == [];
    } else {
      DecimalRoundTrip(n / 10);
      assert text[..|text| - 1] == DecimalText(n / 10);
    }
  }

  lemma NumeralIsShort(n: nat)
    requires n < 10000000
    ensures |DecimalText(n)| <= 7
  {
    assert |DecimalText(n / 1000000)| <= 1;
    assert n / 100000 >= 10 ==> n / 100000 / 10 == n / 1000000;
    assert |DecimalText(n / 100000)| <= 2;
    assert n / 10000 >= 10 ==> n / 10000 / 10 == n / 100000;
    assert |DecimalText(n / 10000)| <= 3;
    assert n / 1000 >= 10 ==> n / 1000 / 10 == n / 10000;
    assert |DecimalText(n / 1000)| <= 4;
    assert n / 100 >= 10 ==> n / 100 / 10 == n / 1000;
    assert |DecimalText(n / 100)| <= 5;
    assert n / 10 >= 10 ==> n / 10 / 10 == n / 100;
    assert |DecimalText(n / 10)| <= 6;
  }

  /** A numeral after one blank is read as its value. */
  lemma NumeralIsRead(n: nat)
    requires n <= MAX_CONTENT
    ensures ContentLength([32] + DecimalText(n)) == Some(n)
  {
    var text := DecimalText(n);
    var raw := [32] + text;
    assert raw[1..] == text;
    assert TrimFront(raw) == TrimFront(text) == text;
    assert TrimBack(text) == text;
    DecimalRoundTrip(n);
    ContentLengthOfDigits(raw);
  }

  // -------------------------------------------------------------------------
  // The shortest response of every status and body
  // -------------------------------------------------------------------------

  function StatusLine(status: nat): (line: bytes)
    requires 100 <= status < 600
    ensures |line| == 12
  {
    Ascii("HTTP/1.1 ") + [DigitOf(status / 100), DigitOf(status / 10 % 10), DigitOf(status % 10)]
  }

  function LengthLine(n: nat): bytes {
    Ascii("Content-Length:") + ([32] + DecimalText(n))
  }

  function Shortest(status: nat, n: nat): (lines: seq<bytes>)
    requires 100 <= status < 600
    ensures |lines| == 2
  {
    [StatusLine(status), LengthLine(n)]
  }

  function Render(status: nat, body: bytes): bytes
    requires 100 <= status < 600
  {
    Message(Shortest(status, |body|), body)
  }

  lemma NoReturnIsOneLine(s: bytes)
    requires forall i :: 0 <= i < |s| ==> s[i] != 13
    ensures OneLine(s)
  {
    forall i: nat ensures !At(s, CRLF, i) {
      if i + 2 <= |s| {
        assert s[i..i + 2][0] == s[i];
      }
    }
    FindNothing(s, CRLF, 0);
  }

  lemma StatusLineIsSane(status: nat)
    requires 100 <= status < 600
    ensures SaneStatusLine(StatusLine(status)) && StatusOf(StatusLine(status)) == status
    ensures OneLine(StatusLine(status))
  {
    assert StatusLine(status)[..8] == Ascii("HTTP/1.1");
    NoReturnIsOneLine(StatusLine(status));
  }

  lemma LengthLineIsRead(n: nat)
    ensures FieldOf(LengthLine(n)) == Length([32] + DecimalText(n))
    ensures OneLine(LengthLine(n))
  {
    var line := LengthLine(n);
    NoReturnIsOneLine(line);
    var name := Ascii("Content-Length");
    assert Ascii("Content-Length:") == name + COLON;
    assert line == FieldLine(name, [32] + DecimalText(n));
    assert Spells(name, "content-length");
    LengthName(name);
    FieldByName(name, [32] + DecimalText(n));
  }

  lemma ShortestIsWellFormed(status: nat, n: nat)
    requires 100 <= status < 600 && n <= MAX_CONTENT
    ensures WellFormed(Shortest(status, n), status, n)
  {
    StatusLineIsSane(status);
    LengthLineIsRead(n);
    NumeralIsRead(n);
    NumeralIsShort(n);
    var lines, line := Shortest(status, n), LengthLine(n);
    assert lines[1..] == [line];
    var none: seq<bytes> := [];
    assert [line][1..] == none;
    assert Lengths([line]) == [[32] + DecimalText(n)];
    assert Joined([line]) == line;
  }

  /** Round trip: any chunking of a rendered response gives back its status and its body. */
  lemma RenderedIsRead(status: nat, body: bytes, chunks: seq<bytes>)
    requires 100 <= status < 600 && |body| <= MAX_CONTENT
    requires FrameCodec.Concat(chunks) == Render(status, body)
    ensures FeedAll(chunks) == Closed(Complete(status, body))
  {
    ShortestIsWellFormed(status, |body|);
    ResponseIsRead(Shortest(status, |body|), status, body, chunks);
  }

  // -------------------------------------------------------------------------
  // Responses with any fields, as they are written
  // -------------------------------------------------------------------------

  datatype Entry = Entry(name: bytes, value: bytes)

  /** A field with a name, and not one of the four that mean something to the parser. */
  predicate Ordinary(e: Entry) {
    && e.name != [] && NoColon(e.name) && OneLine(FieldLine(e.name, e.value))
    && !Spells(e.name, "content-length") && !Spells(e.name, "transfer-encoding")
    && !Spells(e.name, "upgrade") && !Spells(e.name, "content-encoding")
  }

  function EntryLines(es: seq<Entry>): (lines: seq<bytes>)
    ensures |lines| == |es| && forall i :: 0 <= i < |es| ==> lines[i] == FieldLine(es[i].name, es[i].value)
  {
    seq(|es|, i requires 0 <= i < |es| => FieldLine(es[i].name, es[i].value))
  }

  ghost predicate AllOrdinary(es: seq<Entry>) {
    forall i :: 0 <= i < |es| ==> Ordinary(es[i])
  }

  lemma {:induction false} OrdinaryHasNoLength(lines: seq<bytes>)
    requires forall i :: 0 <= i < |lines| ==> FieldOf(lines[i]).Plain?
    ensures Lengths(lines) == []
    decreases |lines|
  {
    if lines != [] {
      OrdinaryHasNoLength(lines[1..]);
    }
  }

  lemma {:induction false} LengthsConcat(a: seq<bytes>, b: seq<bytes>)
    ensures Lengths(a + b) == Lengths(a) + Lengths(b)
    decreases |a|
  {
    if a == [] {
      assert a + b == b;
    } else {
      LengthsConcat(a[1..], b);
      assert (a + b)[1..] == a[1..] + b;
    }
  }

  lemma {:induction false} TrimFrontBlanks(pre: bytes, v: bytes)
    requires AllBlank(pre) && v != [] && !Blank(v[0])
    ensures TrimFront(pre + v) == v
    decreases |pre|
  {
    if pre == [] {
      assert pre + v == v;
    } else {
      assert (pre + v)[1..] == pre[1..] + v;
      forall b | b in pre[1..] ensures Blank(b) {
        assert b in pre;
      }
      TrimFrontBlanks(pre[1..], v);
    }
  }

  lemma {:induction false} TrimBackBlanks(v: bytes, post: bytes)
    requires AllBlank(post) && v != [] && !Blank(v[|v| - 1])
    ensures TrimBack(v + post) == v
    decreases |post|
  {
    if post == [] {
      assert v + post == v;
    } else {
      var front := post[..|post| - 1];
      assert (v + post)[..|v + post| - 1] == v + front;
      forall b | b in front ensures Blank(b) {
        assert b in post;
      }
      TrimBackBlanks(v, front);
    }
  }

  lemma TrimmedNumeral(pre: bytes, digits: bytes, post: bytes)
    requires AllBlank(pre) && AllBlank(post) && digits != [] && forall i :: 0 <= i < |digits| ==> Digit(digits[i])
    ensures Trim(pre + digits + post) == digits
  {
    assert pre + digits + post == pre + (digits + post);
    TrimFrontBlanks(pre, digits + post);
    TrimBackBlanks(digits, post);
  }

  /** A numeral with any blanks around it has its decimal value. */
  lemma NumeralBetweenBlanks(pre: bytes, digits: bytes, post: bytes)
    requires AllBlank(pre) && AllBlank(post) && digits != [] && forall i :: 0 <= i < |digits| ==> Digit(digits[i])
    requires Decimal(digits) <= MAX_CONTENT
    ensures ContentLength(pre + digits + post) == Some(Decimal(digits))
  {
    TrimmedNumeral(pre, digits, post);
    ContentLengthOfDigits(pre + digits + post);
  }

  /** Spaces and tabs only. */
  predicate Spacing(v: bytes) {
    forall i :: 0 <= i < |v| ==> v[i] == 32 || v[i] == 9
  }

  predicate Numeral(v: bytes) {
    v != [] && forall i :: 0 <= i < |v| ==> 48 <= v[i] <= 57
  }

  /** `raw` is the numeral `digits` for `n` between spaces and tabs. */
  predicate Spelled(raw: bytes, pre: bytes, digits: bytes, post: bytes, n: nat) {
    raw == pre + digits + post && Spacing(pre) && Spacing(post) && Numeral(digits) && Decimal(digits) == n
  }

  lemma SpacingIsBlank(v: bytes)
    ensures Spacing(v) <==> AllBlank(v)
  {
    if AllBlank(v) {
      forall i | 0 <= i < |v| ensures v[i] == 32 || v[i] == 9 {
        assert v[i] in v;
      }
    }
  }

  /** A Content-Length within the limit is read exactly from the values that spell it, and only from those. */
  lemma LengthBySpelling(raw: bytes, n: nat)
    requires n <= 1048576
    ensures ContentLength(raw) == Some(n) <==> exists pre, digits, post :: Spelled(raw, pre, digits, post, n)
  {
    if ContentLength(raw) == Some(n) {
      var pre, post := TrimIs(raw);
      SpacingIsBlank(pre);
      SpacingIsBlank(post);
      var text := Trim(raw);
      assert text[..Leading(text)] == text;
      assert Spelled(raw, pre, text, post, n);
    }
    if pre, digits, post :| Spelled(raw, pre, digits, post, n) {
      SpacingIsBlank(pre);
      SpacingIsBlank(post);
      NumeralBetweenBlanks(pre, digits, post);
    }
  }

  /** The lines of a response with one Content-Length among ordinary fields. */
  function Written(status: bytes, before: seq<Entry>, length: Entry, after: seq<Entry>): (lines: seq<bytes>)
    ensures |lines| == |before| + |after| + 2
  {
    [status] + (EntryLines(before) + [FieldLine(length.name, length.value)] + EntryLines(after))
  }

  lemma WrittenFields(before: seq<Entry>, length: Entry, after: seq<Entry>)
    requires AllOrdinary(before) && AllOrdinary(after) && Spells(length.name, "content-length")
    ensures var fields := EntryLines(before) + [FieldLine(length.name, length.value)] + EntryLines(after);
            Harmless(fields) && Lengths(fields) == [length.value] && forall i :: 0 <= i < |fields| ==> fields[i] != []
  {
    var a, l, b := EntryLines(before), FieldLine(length.name, length.value), EntryLines(after);
    forall i | 0 <= i < |before| ensures FieldOf(a[i]).Plain? && a[i] != [] {
      assert Ordinary(before[i]);
      FieldByName(before[i].name, before[i].value);
    }
    forall i | 0 <= i < |after| ensures FieldOf(b[i]).Plain? && b[i] != [] {
      assert Ordinary(after[i]);
      FieldByName(after[i].name, after[i].value);
    }
    LengthName(length.name);
    FieldByName(length.name, length.value);
    OrdinaryHasNoLength(a);
    OrdinaryHasNoLength(b);
    LengthsConcat(a + [l], b);
    LengthsConcat(a, [l]);
    var none: seq<bytes> := [];
    assert [l][1..] == none;
    assert Lengths([l]) == [length.value];
  }

  lemma LengthName(name: bytes)
    requires Spells(name, "content-length")
    ensures name != [] && NoColon(name)
  {
    forall i | 0 <= i < |name| ensures name[i] != 58 {
      assert SameLetter(name[i], "content-length"[i]);
    }
  }

  /**
   Every response of any status and reason, with any fields of other names in any
   order and one Content-Length in any case and any blanks, is read back under
   every chunking; only a 2xx status is a success.
   */
  lemma AnyFieldsAreRead(minor: nat, a: nat, b: nat, c: nat, reason: bytes, before: seq<Entry>, length: Entry,
                         after: seq<Entry>, pre: bytes, digits: bytes, post: bytes, body: bytes, chunks: seq<bytes>)
    requires minor < 2 && 1 <= a <= 5 && b < 10 && c < 10 && (reason != [] ==> reason[0] == 32)
    requires AllOrdinary(before) && AllOrdinary(after) && Spells(length.name, "content-length")
    requires Spelled(length.value, pre, digits, post, |body|) && |body| <= 1048576
    requires OneLine(StatusText(minor, a, b, c, reason)) && OneLine(FieldLine(length.name, length.value))
    requires var lines := Written(StatusText(minor, a, b, c, reason), before, length, after);
             |Joined(lines)| + 4 <= 16384 && FrameCodec.Concat(chunks) == Message(lines, body)
    ensures FeedAll(chunks)
            == Closed(HttpResult(if a == 2 then NoError else HttpStatusError, 100 * a + 10 * b + c, body))
  {
    var status := StatusText(minor, a, b, c, reason);
    var lines := Written(status, before, length, after);
    StatusTextIsSane(minor, a, b, c, reason);
    WrittenFields(before, length, after);
    LengthBySpelling(length.value, |body|);
    WrittenIsListing(status, before, length, after);
    assert lines[1..] == EntryLines(before) + [FieldLine(length.name, length.value)] + EntryLines(after);
    ResponseIsRead(lines, 100 * a + 10 * b + c, body, chunks);
  }

  lemma WrittenIsListing(status: bytes, before: seq<Entry>, length: Entry, after: seq<Entry>)
    requires AllOrdinary(before) && AllOrdinary(after) && Spells(length.name, "content-length")
    requires OneLine(status) && OneLine(FieldLine(length.name, length.value))
    ensures Listing(Written(status, before, length, after))
  {
    var lines := Written(status, before, length, after);
    WrittenFields(before, length, after);
    forall i | 0 <= i < |lines| ensures OneLine(lines[i]) {
      if 1 <= i <= |before| {
        assert Ordinary(before[i - 1]);
      } else if i > |before| + 1 {
        assert Ordinary(after[i - |before| - 2]);
      }
    }
    var fields := EntryLines(before) + [FieldLine(length.name, length.value)] + EntryLines(after);
    forall i | 1 <= i < |lines| ensures lines[i] != [] {
      assert lines[i] == fields[i - 1];
    }
  }

  // -------------------------------------------------------------------------
  // Inputs at which a natural reading fails
  // -------------------------------------------------------------------------

  /** One stream, two outcomes: a byte too many is ignored after a read that ended in time, and fatal otherwise. */
  lemma OneByteTooMany(status: nat, body: bytes, x: byte)
    requires 100 <= status < 600 && |body| <= MAX_CONTENT
    ensures FeedAll([Render(status, body), [x]]) == Closed(Complete(status, body))
    ensures FeedAll([Render(status, body) + [x]]) == Closed(Failed(MalformedResponse, status))
  {
    var s, t := Render(status, body), Render(status, body) + [x];
    OneRead(s);
    RenderedIsRead(status, body, [s]);
    assert [s, [x]][..1] == [s];
    OneRead(t);
    ShortestIsWellFormed(status, |body|);
    assert t == Message(Shortest(status, |body|), body + [x]);
    WellFormedShape(Shortest(status, |body|), status, |body|, body + [x]);
  }

  lemma OneRead(s: bytes)
    ensures FrameCodec.Concat([s]) == s && FeedAll([s]) == Judge(s)
  {
    var none: seq<bytes> := [];
    assert [s][..0] == none;
    assert [] + s == s;
  }

  /** Digits that pass the limit are too large whatever follows them, even text that is no numeral. */
  lemma TooLargeBeforeMalformed(digits: bytes, rest: bytes)
    requires digits != [] && rest != []
    requires forall i :: 0 <= i < |digits| ==> Digit(digits[i])
    requires !Digit(rest[0]) && !Blank(rest[|rest| - 1])
    ensures ContentLength(digits + rest) == if Decimal(digits) > MAX_CONTENT then Some(MAX_CONTENT + 1) else None
  {
    var v := digits + rest;
    assert v[..|digits|] == digits && v[|digits|] == rest[0];
    TrimKeeps(v);
    LeadingIs(v, digits);
  }

  lemma TrimKeeps(v: bytes)
    requires v != [] && !Blank(v[0]) && !Blank(v[|v| - 1])
    ensures Trim(v) == v
  {
  }

  lemma LeadingIs(v: bytes, digits: bytes)
    requires digits < v && !Digit(v[|digits|]) && forall i :: 0 <= i < |digits| ==> Digit(digits[i])
    ensures Leading(v) == |digits| && v[..Leading(v)] == digits
  {
    forall i | 0 <= i < |digits| ensures Digit(v[i]) {
      assert v[i] == digits[i];
    }
  }

  const NINES: bytes := [57, 57, 57, 57, 57, 57, 57]

  lemma NinesAreMany()
    ensures (forall i :: 0 <= i < |NINES| ==> Digit(NINES[i])) && Decimal(NINES) == 9999999
  {
    assert NINES[..0] == [];
    DecimalNext(NINES, 0);
    DecimalNext(NINES, 1);
    DecimalNext(NINES, 2);
    DecimalNext(NINES, 3);
    DecimalNext(NINES, 4);
    DecimalNext(NINES, 5);
    DecimalNext(NINES, 6);
    assert NINES[..7] == NINES;
  }

  /** The Content-Length "9999999x" is too large; "x" is malformed. */
  lemma NinesThenLetter()
    ensures ContentLength(NINES + [120]) == Some(MAX_CONTENT + 1)
    ensures ContentLength([120]) == None
  {
    NinesAreMany();
    TooLargeBeforeMalformed(NINES, [120]);
    assert Trim([120]) == [120];
  }
}
