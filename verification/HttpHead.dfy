/**
 The header section of an HTTP response, as the control-plane client reads it:
 the status line, the header fields, and the Content-Length of section 8.6 of
 RFC 9110.
 */
module HttpHead {
  import opened Bytes
  import opened Options

  const MAX_HEADER: nat := 16 * 1024
  const MAX_CONTENT: nat := 1024 * 1024

  datatype HttpError =
    | NoError | ResolveFailed | DeadlineExceeded | ConnectFailed | SendFailed | ReceiveFailed
    | HeaderTooLarge | BodyTooLarge | MalformedResponse | MissingContentLength | DuplicateContentLength
    | UnsupportedTransferEncoding | PrematureEof | HttpStatusError | InvalidJson

  // -------------------------------------------------------------------------
  // Text
  // -------------------------------------------------------------------------

  const CRLF: bytes := [13, 10]
  const END: bytes := [13, 10, 13, 10]
  const COLON: bytes := [58]

  function Ascii(s: string): (b: bytes)
    requires forall i :: 0 <= i < |s| ==> s[i] as int < 128
    ensures |b| == |s| && forall i :: 0 <= i < |s| ==> b[i] == s[i] as int
  {
    seq(|s|, i requires 0 <= i < |s| => s[i] as int)
  }

  predicate At(s: bytes, pattern: bytes, i: nat) {
    i + |pattern| <= |s| && s[i..i + |pattern|] == pattern
  }

  /** `std::string::find`: the first occurrence at or after `from`. */
  function Find(s: bytes, pattern: bytes, from: nat): (r: Option<nat>)
    ensures r.Some? ==> from <= r.value && r.value + |pattern| <= |s|
    decreases |s| - from
  {
    if from + |pattern| > |s| then None
    else if At(s, pattern, from) then Some(from)
    else Find(s, pattern, from + 1)
  }

  lemma {:induction false} FindSpec(s: bytes, pattern: bytes, from: nat)
    ensures var r := Find(s, pattern, from);
            && (r.Some? ==> At(s, pattern, r.value) && forall i: nat :: from <= i < r.value ==> !At(s, pattern, i))
            && (r.None? ==> forall i: nat :: from <= i ==> !At(s, pattern, i))
    decreases |s| - from
  {
    if from + |pattern| <= |s| && !At(s, pattern, from) {
      FindSpec(s, pattern, from + 1);
    }
  }

  /** A first occurrence is what `Find` finds. */
  lemma FindIs(s: bytes, pattern: bytes, from: nat, k: nat)
    requires from <= k && At(s, pattern, k) && forall i: nat :: from <= i < k ==> !At(s, pattern, i)
    ensures Find(s, pattern, from) == Some(k)
  {
    FindSpec(s, pattern, from);
  }

  lemma FindNothing(s: bytes, pattern: bytes, from: nat)
    requires forall i: nat :: from <= i ==> !At(s, pattern, i)
    ensures Find(s, pattern, from) == None
  {
    FindSpec(s, pattern, from);
  }

  lemma FoundBy(s: bytes, pattern: bytes, from: nat, k: nat)
    requires from <= k && At(s, pattern, k)
    ensures Find(s, pattern, from).Some? && Find(s, pattern, from).value <= k
  {
    FindSpec(s, pattern, from);
  }

  predicate Blank(b: byte) {
    b == 32 || b == 9
  }

  function TrimFront(v: bytes): bytes {
    if v != [] && Blank(v[0]) then TrimFront(v[1..]) else v
  }

  function TrimBack(v: bytes): bytes {
    if v != [] && Blank(v[|v| - 1]) then TrimBack(v[..|v| - 1]) else v
  }

  function Trim(v: bytes): bytes {
    TrimBack(TrimFront(v))
  }

  predicate AllBlank(v: bytes) {
    forall b :: b in v ==> Blank(b)
  }

  lemma {:induction false} TrimFrontIs(v: bytes) returns (a: bytes)
    ensures v == a + TrimFront(v) && AllBlank(a)
    ensures TrimFront(v) == [] || !Blank(TrimFront(v)[0])
  {
    if v != [] && Blank(v[0]) {
      var a' := TrimFrontIs(v[1..]);
      a := [v[0]] + a';
    } else {
      a := [];
    }
  }

  lemma {:induction false} TrimBackIs(v: bytes) returns (b: bytes)
    ensures v == TrimBack(v) + b && AllBlank(b)
    ensures TrimBack(v) == [] || (!Blank(TrimBack(v)[|TrimBack(v)| - 1]) && TrimBack(v)[0] == v[0])
  {
    if v != [] && Blank(v[|v| - 1]) {
      var b' := TrimBackIs(v[..|v| - 1]);
      b := b' + [v[|v| - 1]];
    } else {
      b := [];
    }
  }

  /** Trimming takes blanks, all of them, and nothing else, off both ends. */
  lemma TrimIs(v: bytes) returns (a: bytes, b: bytes)
    ensures v == a + Trim(v) + b && AllBlank(a) && AllBlank(b)
    ensures Trim(v) == [] || (!Blank(Trim(v)[0]) && !Blank(Trim(v)[|Trim(v)| - 1]))
  {
    a := TrimFrontIs(v);
    b := TrimBackIs(TrimFront(v));
  }

  lemma TrimFrontStep(v: bytes, first: nat)
    requires first < |v| && Blank(v[first])
    ensures TrimFront(v[first..]) == TrimFront(v[first + 1..])
  {
    assert v[first..][1..] == v[first + 1..];
  }

  lemma TrimBackStep(v: bytes, first: nat, last: nat)
    requires first < last <= |v| && Blank(v[last - 1])
    ensures TrimBack(v[first..last]) == TrimBack(v[first..last - 1])
  {
    assert v[first..last][..last - first - 1] == v[first..last - 1];
  }

  /** `trimAsciiWhitespace` as written: two cursors close in on the text. */
  method TrimText(v: bytes) returns (text: bytes)
    ensures text == Trim(v)
  {
    var first := 0;
    while first < |v| && Blank(v[first])
      invariant first <= |v| && TrimFront(v) == TrimFront(v[first..])
    {
      TrimFrontStep(v, first);
      first := first + 1;
    }
    var last := |v|;
    assert v[first..last] == v[first..];
    while last > first && Blank(v[last - 1])
      invariant first <= last <= |v| && Trim(v) == TrimBack(v[first..last])
    {
      TrimBackStep(v, first, last);
      last := last - 1;
    }
    text := v[first..last];
  }

  /** `lowerAscii` in the C locale. */
  function Lower(v: bytes): (r: bytes)
    ensures |r| == |v|
  {
    seq(|v|, i requires 0 <= i < |v| => if 65 <= v[i] <= 90 then v[i] + 32 else v[i])
  }

  // -------------------------------------------------------------------------
  // Content-Length
  // -------------------------------------------------------------------------

  predicate Digit(b: byte) {
    48 <= b <= 57
  }

  function Value(b: byte): nat
    requires Digit(b)
  {
    b as int - 48
  }

  /** The number spelled by the digits of `v`. */
  function Decimal(v: bytes): nat
    requires forall i :: 0 <= i < |v| ==> Digit(v[i])
  {
    if v == [] then 0 else 10 * Decimal(v[..|v| - 1]) + Value(v[|v| - 1])
  }

  /** How many digits `v` starts with. */
  function Leading(v: bytes): (n: nat)
    ensures n <= |v| && (forall i :: 0 <= i < n ==> Digit(v[i])) && (n < |v| ==> !Digit(v[n]))
  {
    if v == [] || !Digit(v[0]) then 0 else 1 + Leading(v[1..])
  }

  /**
   What the field value means to the parser: a number, one more than the limit
   for anything larger, or nothing. A numeral that exceeds the limit before its
   first non-digit counts as too large, not as malformed.
   */
  function ContentLength(raw: bytes): Option<nat> {
    var text := Trim(raw);
    var digits := text[..Leading(text)];
    if text == [] then None
    else if Decimal(digits) > MAX_CONTENT then Some(MAX_CONTENT + 1)
    else if |digits| < |text| then None
    else Some(Decimal(digits))
  }

  lemma {:induction false} DecimalGrows(v: bytes, k: nat)
    requires k <= |v| && forall i :: 0 <= i < |v| ==> Digit(v[i])
    ensures Decimal(v[..k]) <= Decimal(v)
    decreases |v|
  {
    if k == |v| {
      assert v[..k] == v;
    } else {
      var front := v[..|v| - 1];
      DecimalGrows(front, k);
      assert front[..k] == v[..k];
    }
  }

  lemma DecimalNext(v: bytes, k: nat)
    requires k < |v| && forall i :: 0 <= i <= k ==> Digit(v[i])
    ensures Decimal(v[..k + 1]) == 10 * Decimal(v[..k]) + Value(v[k])
  {
    assert v[..k + 1][..k] == v[..k];
  }

  /** `parseContentLength` as written; the accumulator never nears the width of `size_t`. */
  method ParseContentLength(raw: bytes) returns (r: Option<nat>)
    ensures r == ContentLength(raw)
  {
    var text := TrimText(raw);
    if text == [] {
      return None;
    }
    var parsed: nat := 0;
    var k := 0;
    while k < |text|
      invariant k <= Leading(text)
      invariant parsed == Decimal(text[..k]) && parsed <= MAX_CONTENT
    {
      if text[k] < 48 || text[k] > 57 {
        return None;
      }
      var digit := Value(text[k]);
      DecimalNext(text, k);
      if parsed > (MAX_CONTENT - digit) / 10 {
        DecimalGrows(text[..Leading(text)], k + 1);
        assert text[..Leading(text)][..k + 1] == text[..k + 1];
        return Some(MAX_CONTENT + 1);
      }
      assert parsed * 10 + digit < 0x1_0000_0000_0000_0000;
      parsed := parsed * 10 + digit;
      k := k + 1;
    }
    assert text[..k] == text;
    return Some(parsed);
  }

  /** For every all-digit text the value is the numeral, capped just above the limit. */
  lemma ContentLengthOfDigits(raw: bytes)
    requires Trim(raw) != [] && forall i :: 0 <= i < |Trim(raw)| ==> Digit(Trim(raw)[i])
    ensures ContentLength(raw)
            == Some(if Decimal(Trim(raw)) <= MAX_CONTENT then Decimal(Trim(raw)) else MAX_CONTENT + 1)
  {
    var text := Trim(raw);
    assert text[..Leading(text)] == text;
  }

  /** Exactly when the field value is refused outright. */
  lemma ContentLengthRefused(raw: bytes)
    ensures ContentLength(raw).None? <==>
              || Trim(raw) == []
              || exists k ::
                   && 0 <= k < |Trim(raw)|
                   && !Digit(Trim(raw)[k]) && (forall i :: 0 <= i < k ==> Digit(Trim(raw)[i]))
                   && Decimal(Trim(raw)[..k]) <= MAX_CONTENT
  {
    var text := Trim(raw);
    var n := Leading(text);
    assert forall k :: 0 <= k < |text| && !Digit(text[k]) && (forall i :: 0 <= i < k ==> Digit(text[i])) ==> k == n;
  }

  // -------------------------------------------------------------------------
  // Lines
  // -------------------------------------------------------------------------

  /** The text between line ends. */
  function Lines(s: bytes): (lines: seq<bytes>)
    ensures |lines| > 0
    decreases |s|
  {
    match Find(s, CRLF, 0)
    case None => [s]
    case Some(i) => [s[..i]] + Lines(s[i + 2..])
  }

  function Joined(lines: seq<bytes>): bytes
    requires |lines| > 0
  {
    if |lines| == 1 then lines[0] else lines[0] + CRLF + Joined(lines[1..])
  }

  /** Splitting into lines loses nothing and leaves no line end inside a line. */
  lemma {:induction false} LinesJoin(s: bytes)
    ensures Joined(Lines(s)) == s
    ensures forall line :: line in Lines(s) ==> Find(line, CRLF, 0) == None
    decreases |s|
  {
    var f := Find(s, CRLF, 0);
    if f.Some? {
      var i := f.value;
      FindSpec(s, CRLF, 0);
      LinesJoin(s[i + 2..]);
      assert Lines(s)[1..] == Lines(s[i + 2..]);
      assert s == s[..i] + CRLF + s[i + 2..];
      forall j: nat ensures !At(s[..i], CRLF, j) {
        if j + 2 <= i {
          AtSlice(s, 0, i, CRLF, j);
          assert s[0..i] == s[..i];
        }
      }
      FindNothing(s[..i], CRLF, 0);
    }
  }

  /** The header section of `s`, when its end is at `e`. */
  ghost predicate EndsAt(s: bytes, e: nat) {
    At(s, END, e) && forall i: nat :: i < e ==> !At(s, END, i)
  }

  lemma AtSlice(s: bytes, a: nat, b: nat, pattern: bytes, i: nat)
    requires a + i + |pattern| <= b <= |s|
    ensures At(s[a..b], pattern, i) <==> At(s, pattern, a + i)
  {
    var n := |pattern|;
    var u, w := s[a..b][i..i + n], s[a + i..a + i + n];
    forall k | 0 <= k < n ensures u[k] == w[k] {
      assert s[a..b][i + k] == s[a + i + k];
    }
    assert u == w;
  }

  lemma LastLine(s: bytes, e: nat, cursor: nat)
    requires cursor <= e <= |s| && Find(s, CRLF, cursor) == Some(e)
    ensures Lines(s[cursor..e]) == [s[cursor..e]]
  {
    var t := s[cursor..e];
    FindSpec(s, CRLF, cursor);
    forall i: nat ensures !At(t, CRLF, i) {
      if cursor + i + 2 <= e {
        AtSlice(s, cursor, e, CRLF, i);
      }
    }
    FindNothing(t, CRLF, 0);
  }

  lemma FindInSlice(s: bytes, e: nat, cursor: nat, k: nat)
    requires cursor <= k && k + 2 <= e <= |s| && Find(s, CRLF, cursor) == Some(k)
    ensures Find(s[cursor..e], CRLF, 0) == Some(k - cursor)
  {
    var t := s[cursor..e];
    FindSpec(s, CRLF, cursor);
    forall i: nat | cursor + i <= k ensures At(t, CRLF, i) <==> At(s, CRLF, cursor + i) {
      AtSlice(s, cursor, e, CRLF, i);
    }
    FindIs(t, CRLF, 0, k - cursor);
  }

  lemma InnerLine(s: bytes, e: nat, cursor: nat, k: nat)
    requires cursor <= k && k + 2 <= e <= |s| && Find(s, CRLF, cursor) == Some(k)
    ensures Lines(s[cursor..e]) == [s[cursor..k]] + Lines(s[k + 2..e])
  {
    var t := s[cursor..e];
    FindInSlice(s, e, cursor, k);
    assert t[..k - cursor] == s[cursor..k];
    assert t[k - cursor + 2..] == s[k + 2..e];
  }

  /** The lines of a header section that ends at `e`, as a cursor finds them; past its end there are none. */
  function LinesFrom(s: bytes, cursor: nat, e: nat): seq<bytes>
    requires e <= |s|
    decreases e - cursor
  {
    if cursor >= e then []
    else
      var f := Find(s, CRLF, cursor);
      if f.None? || f.value >= e then [s[cursor..e]] else [s[cursor..f.value]] + LinesFrom(s, f.value + 2, e)
  }

  /** What the cursor of `parseHeaders` finds: a line that ends within the header section, and no empty last line. */
  lemma NextLine(s: bytes, e: nat, cursor: nat) returns (k: nat)
    requires EndsAt(s, e) && cursor < e
    ensures Find(s, CRLF, cursor) == Some(k) && cursor <= k <= e
    ensures k == e || k + 2 < e
    ensures LinesFrom(s, cursor, e) == [s[cursor..k]] + LinesFrom(s, k + 2, e)
  {
    k := LineEndBy(s, e, cursor);
    if k < e {
      FindSpec(s, CRLF, cursor);
      BeforeEnd(s, e, k);
    } else {
      assert [s[cursor..k]] + [] == [s[cursor..k]];
    }
  }

  /** No line of a header section but possibly its first is empty: two line ends in a row would end it. */
  lemma NoEmptyLine(s: bytes, e: nat, k: nat)
    requires EndsAt(s, e) && k < e && At(s, CRLF, k)
    ensures Find(s, CRLF, k + 2) != Some(k + 2)
  {
    FindSpec(s, CRLF, k + 2);
    if At(s, CRLF, k + 2) {
      TwoLineEnds(s, k);
      assert false;
    }
  }

  lemma LineEndBy(s: bytes, e: nat, cursor: nat) returns (k: nat)
    requires At(s, END, e) && cursor <= e
    ensures Find(s, CRLF, cursor) == Some(k) && cursor <= k <= e
  {
    EndStartsWithLineEnd(s, e);
    FoundBy(s, CRLF, cursor, e);
    k := Find(s, CRLF, cursor).value;
  }

  /** The cursor's lines are the lines of the text. */
  lemma {:induction false} CursorFindsLines(s: bytes, e: nat, cursor: nat)
    requires EndsAt(s, e) && cursor < e
    ensures LinesFrom(s, cursor, e) == Lines(s[cursor..e])
    decreases e - cursor
  {
    var k := NextLine(s, e, cursor);
    if k < e {
      CursorFindsLines(s, e, k + 2);
      InnerLine(s, e, cursor, k);
    } else {
      LastLine(s, e, cursor);
    }
  }

  lemma EndStartsWithLineEnd(s: bytes, e: nat)
    requires At(s, END, e)
    ensures At(s, CRLF, e)
  {
    assert s[e..e + 4][..2] == s[e..e + 2];
    assert END[..2] == CRLF;
  }

  lemma TwoLineEnds(s: bytes, i: nat)
    requires At(s, CRLF, i) && At(s, CRLF, i + 2)
    ensures At(s, END, i)
  {
    assert s[i..i + 4] == s[i..i + 2] + s[i + 2..i + 4];
    assert CRLF + CRLF == END;
  }

  /** A line end before the end of the header section leaves room for a non-empty line. */
  lemma BeforeEnd(s: bytes, e: nat, i: nat)
    requires EndsAt(s, e) && i < e && At(s, CRLF, i)
    ensures i + 2 < e
  {
    assert s[e] == 13 && s[e + 1] == 10 by {
      assert s[e..e + 4][0] == 13 && s[e..e + 4][1] == 10;
    }
    assert s[i + 1] == 10 by {
      assert s[i..i + 2][1] == 10;
    }
    if i + 2 == e {
      EndStartsWithLineEnd(s, e);
      TwoLineEnds(s, i);
      assert false;
    }
  }

  // -------------------------------------------------------------------------
  // Fields
  // -------------------------------------------------------------------------

  const CONTENT_LENGTH: bytes := Ascii("content-length")
  const TRANSFER_ENCODING: bytes := Ascii("transfer-encoding")
  const UPGRADE: bytes := Ascii("upgrade")
  const CONTENT_ENCODING: bytes := Ascii("content-encoding")

  datatype Field = Broken | Length(value: bytes) | Transfer | Refused | Plain

  function FieldOf(line: bytes): Field {
    match Find(line, COLON, 0)
    case None => Broken
    case Some(i) =>
      var name := Lower(line[..i]);
      if i == 0 then Broken
      else if name == CONTENT_LENGTH then Length(line[i + 1..])
      else if name == TRANSFER_ENCODING then Transfer
      else if name == UPGRADE || name == CONTENT_ENCODING then Refused
      else Plain
  }

  datatype Head = Rejected(error: HttpError, status: nat) | Accepted(status: nat, length: nat)

  /** The verdict on the fields once all are read. */
  function FieldsDone(status: nat, length: Option<nat>, transfer: bool): Head {
    if transfer && length.Some? then Rejected(MalformedResponse, status)
    else if transfer then Rejected(UnsupportedTransferEncoding, status)
    else if length.None? then Rejected(MissingContentLength, status)
    else Accepted(status, length.value)
  }

  /** The verdict on the fields, given what earlier fields said; the first offence decides. */
  function Fields(lines: seq<bytes>, status: nat, length: Option<nat>, transfer: bool): Head {
    if lines == [] then FieldsDone(status, length, transfer)
    else
      match FieldOf(lines[0])
      case Broken => Rejected(MalformedResponse, status)
      case Refused => Rejected(MalformedResponse, status)
      case Plain => Fields(lines[1..], status, length, transfer)
      case Transfer => Fields(lines[1..], status, length, true)
      case Length(raw) =>
        if length.Some? then Rejected(DuplicateContentLength, status)
        else
          match ContentLength(raw)
          case None => Rejected(MalformedResponse, status)
          case Some(n) =>
            if n > MAX_CONTENT then Rejected(BodyTooLarge, status) else Fields(lines[1..], status, Some(n), transfer)
  }

  lemma FieldsCons(line: bytes, rest: seq<bytes>, status: nat, length: Option<nat>, transfer: bool)
    ensures var h := Fields([line] + rest, status, length, transfer);
            match FieldOf(line)
            case Broken => h == Rejected(MalformedResponse, status)
            case Refused => h == Rejected(MalformedResponse, status)
            case Plain => h == Fields(rest, status, length, transfer)
            case Transfer => h == Fields(rest, status, length, true)
            case Length(raw) =>
              if length.Some? then h == Rejected(DuplicateContentLength, status)
              else if ContentLength(raw).None? then h == Rejected(MalformedResponse, status)
              else if ContentLength(raw).value > MAX_CONTENT then h == Rejected(BodyTooLarge, status)
              else h == Fields(rest, status, ContentLength(raw), transfer)
  {
    assert ([line] + rest)[1..] == rest;
  }

  predicate SaneStatusLine(line: bytes) {
    && |line| >= 12
    && (line[..8] == Ascii("HTTP/1.0") || line[..8] == Ascii("HTTP/1.1"))
    && line[8] == 32
    && 49 <= line[9] <= 53 && Digit(line[10]) && Digit(line[11])
    && (|line| > 12 ==> line[12] == 32)
  }

  function StatusOf(line: bytes): (status: nat)
    requires SaneStatusLine(line)
    ensures 100 <= status < 600
  {
    Value(line[9]) * 100 + Value(line[10]) * 10 + Value(line[11])
  }

  /** The verdict on a header section without its final empty line. */
  function HeadOf(head: bytes): (h: Head)
    ensures h.Accepted? ==> h.length <= MAX_CONTENT && 100 <= h.status < 600
  {
    var lines := Lines(head);
    if |lines| == 1 || !SaneStatusLine(lines[0]) then Rejected(MalformedResponse, 0)
    else FieldsAccept(lines[1..], StatusOf(lines[0]), None, false); Fields(lines[1..], StatusOf(lines[0]), None, false)
  }

  /** The Content-Length values, in order. */
  function Lengths(lines: seq<bytes>): seq<bytes> {
    if lines == [] then []
    else (if FieldOf(lines[0]).Length? then [FieldOf(lines[0]).value] else []) + Lengths(lines[1..])
  }

  predicate Harmless(lines: seq<bytes>) {
    forall line :: line in lines ==> FieldOf(line).Plain? || FieldOf(line).Length?
  }

  /** Exactly which field lists are accepted: only harmless fields, one Content-Length, and it is within the limit. */
  lemma {:induction false} FieldsAccept(lines: seq<bytes>, status: nat, length: Option<nat>, transfer: bool)
    requires length.Some? ==> length.value <= MAX_CONTENT
    ensures var h := Fields(lines, status, length, transfer);
            && h.status == status
            && (h.Accepted? ==> h.length <= MAX_CONTENT)
            && (h.Accepted? <==>
                  && !transfer && Harmless(lines)
                  && if length.Some? then Lengths(lines) == []
                     else |Lengths(lines)| == 1 && ContentLength(Lengths(lines)[0]).Some?
                          && ContentLength(Lengths(lines)[0]).value <= MAX_CONTENT)
            && (h.Accepted? ==>
                  h.length == if length.Some? then length.value else ContentLength(Lengths(lines)[0]).value)
    decreases |lines|
  {
    if lines != [] {
      var f := FieldOf(lines[0]);
      assert lines == [lines[0]] + lines[1..];
      assert Harmless(lines) <==> (f.Plain? || f.Length?) && Harmless(lines[1..]);
      match f {
        case Plain =>
          assert Lengths(lines) == Lengths(lines[1..]);
          FieldsAccept(lines[1..], status, length, transfer);
        case Transfer =>
          FieldsAccept(lines[1..], status, length, true);
        case Length(raw) =>
          assert Lengths(lines)[0] == raw;
          var n := ContentLength(raw);
          if length.None? && n.Some? && n.value <= MAX_CONTENT {
            FieldsAccept(lines[1..], status, n, transfer);
            assert Lengths(lines) == [raw] + Lengths(lines[1..]);
          }
        case _ =>
      }
    }
  }

  // -------------------------------------------------------------------------
  // Field names and status lines, byte by byte
  // -------------------------------------------------------------------------

  /** The byte is the letter `c`, in either case, or just `c`. */
  predicate SameLetter(b: byte, c: char) {
    b == c as int || ('a' <= c <= 'z' && b == c as int - 32)
  }

  /** `name` spells `word`, in any mixture of cases. */
  predicate Spells(name: bytes, word: string) {
    |name| == |word| && forall i :: 0 <= i < |name| ==> SameLetter(name[i], word[i])
  }

  /** A word in lower-case letters and other characters, but no upper-case ones. */
  predicate LowerWord(word: string) {
    forall i :: 0 <= i < |word| ==> word[i] as int < 128 && !('A' <= word[i] <= 'Z')
  }

  lemma LowerSpells(name: bytes, word: string)
    requires LowerWord(word)
    ensures Lower(name) == Ascii(word) <==> Spells(name, word)
  {
    if Lower(name) == Ascii(word) {
      forall i | 0 <= i < |name| ensures SameLetter(name[i], word[i]) {
        assert Lower(name)[i] == Ascii(word)[i];
      }
    }
    if Spells(name, word) {
      forall i | 0 <= i < |name| ensures Lower(name)[i] == Ascii(word)[i] {
        assert SameLetter(name[i], word[i]);
      }
    }
  }

  /** A header line as it is written. */
  function FieldLine(name: bytes, value: bytes): bytes {
    name + COLON + value
  }

  predicate NoColon(name: bytes) {
    forall i :: 0 <= i < |name| ==> name[i] != 58
  }

  lemma FirstColon(name: bytes, value: bytes)
    requires NoColon(name)
    ensures Find(FieldLine(name, value), COLON, 0) == Some(|name|)
  {
    var line := FieldLine(name, value);
    forall i: nat | i < |name| ensures !At(line, COLON, i) {
      assert line[i..i + 1][0] == name[i];
    }
    assert line[|name|..|name| + 1] == COLON;
    FindIs(line, COLON, 0, |name|);
  }

  /**
   What a header field means, by its name alone and in any case: only
   Content-Length, Transfer-Encoding, Upgrade and Content-Encoding are special.
   */
  lemma FieldByName(name: bytes, value: bytes)
    requires name != [] && NoColon(name)
    ensures FieldOf(FieldLine(name, value))
            == if Spells(name, "content-length") then Length(value)
               else if Spells(name, "transfer-encoding") then Transfer
               else if Spells(name, "upgrade") || Spells(name, "content-encoding") then Refused
               else Plain
  {
    var line := FieldLine(name, value);
    FirstColon(name, value);
    assert line[..|name|] == name && line[|name| + 1..] == value;
    LowerSpells(name, "content-length");
    LowerSpells(name, "transfer-encoding");
    LowerSpells(name, "upgrade");
    LowerSpells(name, "content-encoding");
  }

  /** A line is no field exactly when it has no colon or nothing before its first one. */
  lemma BrokenExactly(line: bytes)
    ensures FieldOf(line) == Broken <==> NoColon(line) || line[0] == 58
  {
    FindSpec(line, COLON, 0);
    var f := Find(line, COLON, 0);
    forall i: nat | i < |line| ensures At(line, COLON, i) <==> line[i] == 58 {
      assert line[i..i + 1] == [line[i]];
    }
    if f.Some? {
      assert line[f.value] == 58;
    }
  }

  /** A status line as it is written: minor version 0 or 1, three digits, and perhaps a space and any reason. */
  function StatusText(minor: nat, a: nat, b: nat, c: nat, reason: bytes): bytes
    requires minor < 2 && 1 <= a <= 5 && b < 10 && c < 10
  {
    [72, 84, 84, 80, 47, 49, 46, 48 + minor, 32, 48 + a, 48 + b, 48 + c] + reason
  }

  /** Every such line is accepted, with the status its digits spell. */
  lemma StatusTextIsSane(minor: nat, a: nat, b: nat, c: nat, reason: bytes)
    requires minor < 2 && 1 <= a <= 5 && b < 10 && c < 10 && (reason != [] ==> reason[0] == 32)
    ensures var line := StatusText(minor, a, b, c, reason);
            SaneStatusLine(line) && StatusOf(line) == 100 * a + 10 * b + c
  {
    var line := StatusText(minor, a, b, c, reason);
    assert line[..8] == [72, 84, 84, 80, 47, 49, 46, 48 + minor];
    assert Ascii("HTTP/1.0") == [72, 84, 84, 80, 47, 49, 46, 48];
    assert Ascii("HTTP/1.1") == [72, 84, 84, 80, 47, 49, 46, 49];
  }

  /** And no other line is. */
  lemma SaneIsStatusText(line: bytes) returns (minor: nat, a: nat, b: nat, c: nat, reason: bytes)
    requires SaneStatusLine(line)
    ensures minor < 2 && 1 <= a <= 5 && b < 10 && c < 10 && (reason != [] ==> reason[0] == 32)
    ensures line == StatusText(minor, a, b, c, reason)
  {
    assert Ascii("HTTP/1.0") == [72, 84, 84, 80, 47, 49, 46, 48];
    assert Ascii("HTTP/1.1") == [72, 84, 84, 80, 47, 49, 46, 49];
    minor := if line[..8] == Ascii("HTTP/1.0") then 0 else 1;
    a, b, c, reason := Value(line[9]), Value(line[10]), Value(line[11]), line[12..];
    assert line[..8] == [72, 84, 84, 80, 47, 49, 46, 48 + minor];
    assert line == line[..8] + [line[8], line[9], line[10], line[11]] + line[12..];
  }

  // -------------------------------------------------------------------------
  // Which error is reported
  // -------------------------------------------------------------------------

  predicate LengthBefore(lines: seq<bytes>, i: nat)
    requires i <= |lines|
  {
    exists j :: 0 <= j < i && FieldOf(lines[j]).Length?
  }

  predicate TransferBefore(lines: seq<bytes>, i: nat)
    requires i <= |lines|
  {
    exists j :: 0 <= j < i && FieldOf(lines[j]).Transfer?
  }

  /** What is wrong with the `i`th field, given the fields before it. */
  function Offence(lines: seq<bytes>, i: nat): Option<HttpError>
    requires i < |lines|
  {
    match FieldOf(lines[i])
    case Broken => Some(MalformedResponse)
    case Refused => Some(MalformedResponse)
    case Plain => None
    case Transfer => None
    case Length(raw) =>
      if LengthBefore(lines, i) then Some(DuplicateContentLength)
      else if ContentLength(raw).None? then Some(MalformedResponse)
      else if ContentLength(raw).value > MAX_CONTENT then Some(BodyTooLarge)
      else None
  }

  /** The fields before the `k`th give no offence. */
  ghost predicate CleanTo(lines: seq<bytes>, k: nat)
    requires k <= |lines|
  {
    forall i :: 0 <= i < k ==> Offence(lines, i) == None
  }

  /** The Content-Length found before the `k`th field. */
  function LengthTo(lines: seq<bytes>, k: nat): (r: Option<nat>)
    requires k <= |lines|
    ensures r.Some? ==> LengthBefore(lines, k)
  {
    if k == 0 then None
    else
      var f := FieldOf(lines[k - 1]);
      if f.Length? then ContentLength(f.value) else LengthTo(lines, k - 1)
  }

  lemma {:induction false} LengthToIs(lines: seq<bytes>, k: nat)
    requires k <= |lines| && CleanTo(lines, k)
    ensures LengthTo(lines, k).Some? <==> LengthBefore(lines, k)
  {
    if k > 0 {
      assert Offence(lines, k - 1) == None;
      LengthToIs(lines, k - 1);
    }
  }

  /** Reading up to an inoffensive point leaves the rest to be read with what was found. */
  lemma {:induction false} FieldsFrom(lines: seq<bytes>, k: nat, status: nat)
    requires k <= |lines| && CleanTo(lines, k)
    ensures Fields(lines, status, None, false)
            == Fields(lines[k..], status, LengthTo(lines, k), TransferBefore(lines, k))
  {
    if k == 0 {
      assert lines[0..] == lines;
    } else {
      FieldsFrom(lines, k - 1, status);
      LengthToIs(lines, k - 1);
      assert Offence(lines, k - 1) == None;
      assert lines[k - 1..] == [lines[k - 1]] + lines[k..];
      FieldsCons(lines[k - 1], lines[k..], status, LengthTo(lines, k - 1), TransferBefore(lines, k - 1));
    }
  }

  /** The first offence decides the error. */
  lemma FirstOffenceDecides(lines: seq<bytes>, k: nat, status: nat)
    requires k < |lines| && CleanTo(lines, k) && Offence(lines, k).Some?
    ensures Fields(lines, status, None, false) == Rejected(Offence(lines, k).value, status)
  {
    FieldsFrom(lines, k, status);
    LengthToIs(lines, k);
    assert lines[k..] == [lines[k]] + lines[k + 1..];
    FieldsCons(lines[k], lines[k + 1..], status, LengthTo(lines, k), TransferBefore(lines, k));
  }

  /** Without an offence, what was found as a whole decides. */
  lemma NoOffenceDecides(lines: seq<bytes>, status: nat)
    requires CleanTo(lines, |lines|)
    ensures Fields(lines, status, None, false)
            == if TransferBefore(lines, |lines|) then
                 Rejected(if LengthBefore(lines, |lines|) then MalformedResponse else UnsupportedTransferEncoding,
                          status)
               else
                 match LengthTo(lines, |lines|)
                 case Some(n) => Accepted(status, n)
                 case None => Rejected(MissingContentLength, status)
    ensures LengthTo(lines, |lines|).Some? <==> LengthBefore(lines, |lines|)
  {
    FieldsFrom(lines, |lines|, status);
    LengthToIs(lines, |lines|);
    assert lines[|lines|..] == [];
  }

  /** Either some field is the first to offend, or none does. */
  lemma {:induction false} OffenceSearch(lines: seq<bytes>, k: nat) returns (i: nat)
    requires k <= |lines|
    ensures i <= k && CleanTo(lines, i) && (i < k ==> Offence(lines, i).Some?)
  {
    if k == 0 {
      i := 0;
    } else {
      i := OffenceSearch(lines, k - 1);
      if i == k - 1 && Offence(lines, i) == None {
        i := k;
      }
    }
  }

  /**
   Exactly when each error is reported. The errors about single fields are those
   of the first offence. The errors about the list as a whole come only when no
   field offends.
   */
  lemma ErrorExactly(lines: seq<bytes>, status: nat, error: HttpError)
    ensures Fields(lines, status, None, false) == Rejected(error, status) <==>
              || (exists i :: 0 <= i < |lines| && CleanTo(lines, i) && Offence(lines, i) == Some(error))
              || (CleanTo(lines, |lines|) && TransferBefore(lines, |lines|)
                  && error == if LengthBefore(lines, |lines|) then MalformedResponse else UnsupportedTransferEncoding)
              || (CleanTo(lines, |lines|) && !TransferBefore(lines, |lines|) && !LengthBefore(lines, |lines|)
                  && error == MissingContentLength)
  {
    var k := OffenceSearch(lines, |lines|);
    if k < |lines| {
      FirstOffenceDecides(lines, k, status);
      assert !CleanTo(lines, |lines|);
      assert forall i :: 0 <= i < |lines| && CleanTo(lines, i) && Offence(lines, i).Some? ==> i == k;
    } else {
      NoOffenceDecides(lines, status);
    }
  }

  /** The field is harmless to what follows: it carries no length and no offence. */
  predicate Passing(line: bytes) {
    FieldOf(line).Plain? || FieldOf(line).Transfer?
  }

  /** A field whose Content-Length is over the limit. */
  predicate TooLong(line: bytes) {
    FieldOf(line).Length? && ContentLength(FieldOf(line).value) == Some(MAX_CONTENT + 1)
  }

  lemma TooLongOffends(lines: seq<bytes>, i: nat)
    requires i < |lines|
    ensures CleanTo(lines, i) && Offence(lines, i) == Some(BodyTooLarge) <==>
              TooLong(lines[i]) && forall j :: 0 <= j < i ==> Passing(lines[j])
  {
    if CleanTo(lines, i) && Offence(lines, i) == Some(BodyTooLarge) {
      forall j | 0 <= j < i ensures Passing(lines[j]) {
        assert Offence(lines, j) == None;
      }
    } else if TooLong(lines[i]) && forall j :: 0 <= j < i ==> Passing(lines[j]) {
      assert CleanTo(lines, i);
    }
  }

  /** BodyTooLarge exactly when the first Content-Length exceeds the limit and nothing before it offends. */
  lemma BodyTooLargeExactly(lines: seq<bytes>, status: nat)
    ensures Fields(lines, status, None, false) == Rejected(BodyTooLarge, status) <==>
              exists i :: 0 <= i < |lines| && TooLong(lines[i]) && forall j :: 0 <= j < i ==> Passing(lines[j])
  {
    ErrorExactly(lines, status, BodyTooLarge);
    forall i | 0 <= i < |lines|
      ensures CleanTo(lines, i) && Offence(lines, i) == Some(BodyTooLarge) <==>
                TooLong(lines[i]) && forall j :: 0 <= j < i ==> Passing(lines[j])
    {
      TooLongOffends(lines, i);
    }
  }

  /** For an all-digit value, over the limit means that the numeral is. */
  lemma TooLongByNumeral(line: bytes)
    requires FieldOf(line).Length? && Trim(FieldOf(line).value) != []
    requires forall i :: 0 <= i < |Trim(FieldOf(line).value)| ==> Digit(Trim(FieldOf(line).value)[i])
    ensures TooLong(line) <==> Decimal(Trim(FieldOf(line).value)) > MAX_CONTENT
  {
    ContentLengthOfDigits(FieldOf(line).value);
  }
}
