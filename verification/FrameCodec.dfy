/**
 The length-prefixed frame codec of the data plane: `ProtocolCodec::encode` and
 `ProtocolCodec::decode`.

 A frame is a 4-byte big-endian body length, then the body: one version byte,
 one message-type byte, an 8-byte big-endian request id and the payload.
 */
module FrameCodec {
  import opened Bytes

  const FIXED_BODY: nat := 10
  const MAX_PAYLOAD: nat := 4 * 1024 * 1024
  const MAX_BODY: nat := MAX_PAYLOAD + FIXED_BODY

  type u64 = n: nat | n < 0x1_0000_0000_0000_0000

  datatype Frame = Frame(version: byte, kind: byte, requestId: u64, payload: bytes)

  datatype Status = Ok | NeedMore | Invalid

  /** `encode`: the body length is computed in 32 bits. */
  function Encode(f: Frame): (b: bytes)
    ensures |b| == 14 + |f.payload|
  {
    BigEndian((10 + |f.payload|) % 0x1_0000_0000, 4)
    + ([f.version, f.kind] + BigEndian(f.requestId, 8) + f.payload)
  }

  function EncodeAll(fs: seq<Frame>): bytes {
    if fs == [] then [] else EncodeAll(fs[..|fs| - 1]) + Encode(fs[|fs| - 1])
  }

  lemma EncodeAllAppend(fs: seq<Frame>, f: Frame)
    ensures EncodeAll(fs + [f]) == EncodeAll(fs) + Encode(f)
  {
    assert (fs + [f])[..|fs|] == fs;
  }

  /** What the front of a buffer holds. */
  datatype Front = Short | Bad | Whole(frame: Frame, size: nat)

  predicate LengthAllowed(n: nat, limit: nat) {
    FIXED_BODY <= n <= MAX_BODY && n <= limit
  }

  function ReadFrame(b: bytes): (f: Frame)
    requires |b| >= 14
  {
    Widths();
    Frame(b[4], b[5], FromBigEndian(b[6..14]), b[14..])
  }

  /** One turn of `decode`'s loop on a non-empty buffer. */
  function Look(b: bytes, limit: nat): (r: Front)
    ensures r.Whole? ==> 14 <= r.size <= |b|
  {
    if |b| < 4 then Short
    else
      var n := FromBigEndian(b[..4]);
      if !LengthAllowed(n, limit) then Bad
      else if |b| < 4 + n then Short
      else Whole(ReadFrame(b[..4 + n]), 4 + n)
  }

  datatype Decoded = Decoded(frames: seq<Frame>, rest: bytes, status: Status)

  /**
   The meaning of `decode`: the frames found, the bytes kept, the verdict.
   */
  function Decode(b: bytes, limit: nat): (d: Decoded)
    decreases |b|
  {
    if b == [] then Decoded([], [], Ok)
    else
      match Look(b, limit)
      case Short => Decoded([], b, NeedMore)
      case Bad => Decoded([], b, Invalid)
      case Whole(f, n) =>
        var d := Decode(b[n..], limit);
        Decoded([f] + d.frames, d.rest, d.status)
  }

  /** The outcome of a decode that already holds `frames` and has `b` left to read. */
  function Onward(frames: seq<Frame>, b: bytes, limit: nat): Decoded {
    var d := Decode(b, limit);
    Decoded(frames + d.frames, d.rest, d.status)
  }

  lemma OnwardWhole(frames: seq<Frame>, b: bytes, limit: nat)
    requires Look(b, limit).Whole?
    ensures var w := Look(b, limit);
            Onward(frames, b, limit) == Onward(frames + [w.frame], b[w.size..], limit)
  {
    var w := Look(b, limit);
    var d := Decode(b[w.size..], limit);
    assert frames + ([w.frame] + d.frames) == frames + [w.frame] + d.frames;
  }

  /** One turn of the loop at `index`, in terms of the whole buffer. */
  lemma Turn(frames: seq<Frame>, buffer: bytes, index: nat, limit: nat)
    requires index + 4 <= |buffer|
    ensures var size := 4 + FromBigEndian(buffer[index..index + 4]);
            if !LengthAllowed(size - 4, limit) then Look(buffer[index..], limit) == Bad
            else if |buffer| < index + size then Look(buffer[index..], limit) == Short
            else Onward(frames, buffer[index..], limit)
                 == Onward(frames + [ReadFrame(buffer[index..index + size])], buffer[index + size..], limit)
  {
    var tail := buffer[index..];
    assert tail[..4] == buffer[index..index + 4];
    var size := 4 + FromBigEndian(buffer[index..index + 4]);
    if LengthAllowed(size - 4, limit) && index + size <= |buffer| {
      assert tail[..size] == buffer[index..index + size];
      assert tail[size..] == buffer[index + size..];
      OnwardWhole(frames, tail, limit);
    }
  }

  /**
   `decode` as written: a read index runs over the buffer, frames are appended
   to `frames`, and the consumed prefix is erased at the end. An illegal length
   returns at once and leaves the buffer alone.
   */
  method DecodeBuffer(buffer: bytes, limit: nat) returns (frames: seq<Frame>, rest: bytes, status: Status)
    ensures frames == Decode(buffer, limit).frames
    ensures status == Decode(buffer, limit).status
    ensures rest == if status == Invalid then buffer else Decode(buffer, limit).rest
  {
    var index := 0;
    var needMore := false;
    frames := [];
    ghost var all := Decode(buffer, limit);
    assert buffer[0..] == buffer;
    while true
      invariant 0 <= index <= |buffer|
      invariant !needMore
      invariant all == Onward(frames, buffer[index..], limit)
      decreases |buffer| - index
    {
      var remaining := |buffer| - index;
      if remaining == 0 {
        break;
      }
      if remaining < 4 {
        needMore := true;
        break;
      }
      Turn(frames, buffer, index, limit);
      var size := 4 + FromBigEndian(buffer[index..index + 4]);
      if size < 4 + FIXED_BODY || size > 4 + MAX_BODY || size > 4 + limit {
        return frames, buffer, Invalid;
      }
      if remaining < size {
        needMore := true;
        break;
      }
      frames := frames + [ReadFrame(buffer[index..index + size])];
      index := index + size;
    }
    rest := buffer[index..];
    status := if needMore then NeedMore else Ok;
  }

  // -------------------------------------------------------------------------
  // Chunking
  // -------------------------------------------------------------------------

  lemma LookExtend(a: bytes, b: bytes, limit: nat)
    requires !Look(a, limit).Short?
    ensures Look(a + b, limit) == Look(a, limit)
  {
    assert (a + b)[..4] == a[..4];
    var n := FromBigEndian(a[..4]);
    if LengthAllowed(n, limit) {
      assert (a + b)[..4 + n] == a[..4 + n];
    }
  }

  /** The outcome of decoding more bytes `b` after outcome `d`. */
  function Resume(d: Decoded, b: bytes, limit: nat): Decoded {
    var e := Decode(d.rest + b, limit);
    Decoded(d.frames + e.frames, e.rest, e.status)
  }

  lemma DecodeWhole(a: bytes, limit: nat)
    requires Look(a, limit).Whole?
    ensures var look := Look(a, limit);
            var d := Decode(a[look.size..], limit);
            Decode(a, limit) == Decoded([look.frame] + d.frames, d.rest, d.status)
  {
  }

  /** A frame in front of `d` stays in front of what follows. */
  lemma ResumeBehind(f: Frame, d: Decoded, b: bytes, limit: nat)
    ensures var r := Resume(d, b, limit);
            Resume(Decoded([f] + d.frames, d.rest, d.status), b, limit) == Decoded([f] + r.frames, r.rest, r.status)
  {
    var e := Decode(d.rest + b, limit);
    assert [f] + (d.frames + e.frames) == [f] + d.frames + e.frames;
  }

  /** Decoding `a + b` is decoding `a`, then what `a` left over followed by `b`. */
  lemma {:induction false} DecodeSplit(a: bytes, b: bytes, limit: nat)
    ensures var d := Decode(a, limit);
            var w := Decode(a + b, limit);
            if d.status == Invalid then w.status == Invalid && w.frames == d.frames
            else w == Resume(d, b, limit)
    decreases |a|
  {
    var look := Look(a, limit);
    if a == [] {
      assert a + b == b;
    } else if look.Bad? {
      LookExtend(a, b, limit);
    } else if look.Whole? {
      LookExtend(a, b, limit);
      DecodeWhole(a, limit);
      DecodeWhole(a + b, limit);
      assert (a + b)[look.size..] == a[look.size..] + b;
      DecodeSplit(a[look.size..], b, limit);
      ResumeBehind(look.frame, Decode(a[look.size..], limit), b, limit);
    }
  }

  /** One connection's input side: the retained tail, the frames so far, the verdict. */
  datatype Input = Input(tail: bytes, frames: seq<Frame>, status: Status)

  /** A read: append the chunk, decode, keep the rest. A rejected stream stays rejected. */
  function Feed(s: Input, chunk: bytes, limit: nat): Input {
    if s.status == Invalid then s
    else
      var d := Decode(s.tail + chunk, limit);
      Input(d.rest, s.frames + d.frames, d.status)
  }

  function FeedAll(chunks: seq<bytes>, limit: nat): Input {
    if chunks == [] then Input([], [], Ok)
    else Feed(FeedAll(chunks[..|chunks| - 1], limit), chunks[|chunks| - 1], limit)
  }

  function Concat(chunks: seq<bytes>): bytes {
    if chunks == [] then [] else Concat(chunks[..|chunks| - 1]) + chunks[|chunks| - 1]
  }

  /**
   However the stream is cut into reads, the frames and the verdict are those of
   one decode of the whole stream, and so is the retained tail unless the stream
   was rejected.
   */
  lemma {:induction false} ChunkIndependence(chunks: seq<bytes>, limit: nat)
    ensures var s := FeedAll(chunks, limit);
            var d := Decode(Concat(chunks), limit);
            && s.frames == d.frames
            && s.status == d.status
            && (d.status != Invalid ==> s.tail == d.rest)
    decreases |chunks|
  {
    if chunks != [] {
      var front, last := chunks[..|chunks| - 1], chunks[|chunks| - 1];
      ChunkIndependence(front, limit);
      DecodeSplit(Concat(front), last, limit);
    }
  }

  /** After an accepted decode less than one whole frame is retained. */
  lemma {:induction false} TailBound(b: bytes, limit: nat)
    requires Decode(b, limit).status != Invalid
    ensures |Decode(b, limit).rest| < 4 + limit
    ensures |Decode(b, limit).rest| < 4 + MAX_BODY
    ensures Decode(b, limit).status == Ok <==> Decode(b, limit).rest == []
    decreases |b|
  {
    if b != [] {
      var look := Look(b, limit);
      if look.Whole? {
        TailBound(b[look.size..], limit);
      }
    }
  }

  /** A limit only decides how far a stream is decoded: what one limit accepts, the hard limit decodes the same. */
  lemma {:induction false} LimitOnlyRejects(b: bytes, limit: nat)
    ensures Decode(b, limit).frames <= Decode(b, MAX_BODY).frames
    ensures Decode(b, limit).status != Invalid ==> Decode(b, MAX_BODY) == Decode(b, limit)
    decreases |b|
  {
    if b != [] {
      var look := Look(b, limit);
      if look.Whole? {
        LimitOnlyRejects(b[look.size..], limit);
      }
    }
  }

  // -------------------------------------------------------------------------
  // Round trip
  // -------------------------------------------------------------------------

  predicate Fits(f: Frame, limit: nat) {
    LengthAllowed(10 + |f.payload|, limit)
  }

  lemma ReadEncoded(f: Frame)
    ensures ReadFrame(Encode(f)) == f
  {
    Widths();
    var e := Encode(f);
    BigEndianRoundTrip(f.requestId, 8);
    assert e[6..14] == BigEndian(f.requestId, 8);
    assert e[14..] == f.payload;
  }

  lemma Front4(a: bytes, b: bytes, c: bytes)
    requires |a| == 4
    ensures (a + b + c)[..4] == a
  {
  }

  lemma LengthEncoded(f: Frame, tail: bytes)
    requires |f.payload| <= MAX_PAYLOAD
    ensures FromBigEndian((Encode(f) + tail)[..4]) == 10 + |f.payload|
  {
    Widths();
    BigEndianRoundTrip(10 + |f.payload|, 4);
    Front4(BigEndian(10 + |f.payload|, 4), [f.version, f.kind] + BigEndian(f.requestId, 8) + f.payload, tail);
  }

  lemma LookEncoded(f: Frame, tail: bytes, limit: nat)
    requires Fits(f, limit)
    ensures Look(Encode(f) + tail, limit) == Whole(f, 14 + |f.payload|)
  {
    LengthEncoded(f, tail);
    assert (Encode(f) + tail)[..14 + |f.payload|] == Encode(f);
    ReadEncoded(f);
  }

  lemma DecodeOne(f: Frame, limit: nat)
    requires Fits(f, limit)
    ensures Decode(Encode(f), limit) == Decoded([f], [], Ok)
  {
    var e := Encode(f);
    LookEncoded(f, [], limit);
    assert e + [] == e;
    assert e[14 + |f.payload|..] == [];
    assert [f] + [] == [f];
  }

  lemma DecodeNext(b: bytes, fs: seq<Frame>, f: Frame, limit: nat)
    requires Decode(b, limit) == Decoded(fs, [], Ok)
    requires Fits(f, limit)
    ensures Decode(b + Encode(f), limit) == Decoded(fs + [f], [], Ok)
  {
    DecodeSplit(b, Encode(f), limit);
    assert [] + Encode(f) == Encode(f);
    DecodeOne(f, limit);
  }

  predicate AllFit(fs: seq<Frame>, limit: nat) {
    forall f :: f in fs ==> Fits(f, limit)
  }

  /** Decoding a concatenation of encodings returns every frame, with nothing left over. */
  lemma {:induction false} RoundTrip(fs: seq<Frame>, limit: nat)
    requires AllFit(fs, limit)
    ensures Decode(EncodeAll(fs), limit) == Decoded(fs, [], Ok)
    decreases |fs|
  {
    if fs == [] {
      assert EncodeAll(fs) == [];
    } else {
      var front, last := fs[..|fs| - 1], fs[|fs| - 1];
      assert fs == front + [last];
      RoundTrip(front, limit);
      DecodeNext(EncodeAll(front), front, last, limit);
    }
  }

  /** A reader that has received any prefix of an encoded stream has decoded a prefix of its frames. */
  lemma {:induction false} PrefixDecodes(fs: seq<Frame>, p: bytes, limit: nat)
    requires AllFit(fs, limit)
    requires p <= EncodeAll(fs)
    ensures Decode(p, limit).status != Invalid
    ensures Decode(p, limit).frames <= fs
  {
    RoundTrip(fs, limit);
    var q := EncodeAll(fs)[|p|..];
    assert p + q == EncodeAll(fs);
    DecodeSplit(p, q, limit);
  }

  // -------------------------------------------------------------------------
  // The wire, byte by byte
  // -------------------------------------------------------------------------

  /** Where each part of a frame stands on the wire, and what its bytes are worth. */
  lemma WireLayout(f: Frame)
    requires |f.payload| <= MAX_PAYLOAD
    ensures var e := Encode(f);
            && |e| == 14 + |f.payload|
            && Places4(e[..4]) == 10 + |f.payload|
            && e[4] == f.version && e[5] == f.kind
            && Places8(e[6..14]) == f.requestId
            && e[14..] == f.payload
  {
    var e := Encode(f);
    LengthEncoded(f, []);
    assert e + [] == e;
    FourPlaces(e[..4]);
    Widths();
    BigEndianRoundTrip(f.requestId, 8);
    assert e[6..14] == BigEndian(f.requestId, 8);
    EightPlaces(e[6..14]);
    assert e[14..] == f.payload;
  }

  /** The length of a body that is accepted: its fixed part, and at most 4 MiB of payload. */
  predicate LegalLength(n: nat, limit: nat) {
    10 <= n <= 4194314 && n <= limit
  }

  /**
   What the decoder makes of a stream, from its bytes alone: the first four are a
   length; an illegal one is rejected at once, a body that is not all there is
   awaited, and a whole one is read byte for byte before decoding goes on behind it.
   */
  lemma FirstFrame(b: bytes, limit: nat)
    requires b != []
    ensures var d := Decode(b, limit);
            if |b| < 4 then d == Decoded([], b, NeedMore)
            else
              var n := Places4(b[..4]);
              if !LegalLength(n, limit) then d == Decoded([], b, Invalid)
              else if |b| < 4 + n then d == Decoded([], b, NeedMore)
              else
                var rest := Decode(b[4 + n..], limit);
                && d.frames != [] && d.frames[1..] == rest.frames && d.rest == rest.rest && d.status == rest.status
                && d.frames[0].version == b[4] && d.frames[0].kind == b[5]
                && d.frames[0].requestId == Places8(b[6..14])
                && d.frames[0].payload == b[14..4 + n]
  {
    if |b| >= 4 {
      FourPlaces(b[..4]);
      var n := Places4(b[..4]);
      if LegalLength(n, limit) && 4 + n <= |b| {
        FirstIs(b[..4 + n]);
        assert b[..4 + n][6..14] == b[6..14];
        assert b[..4 + n][14..] == b[14..4 + n];
      }
    }
  }

  lemma FirstIs(b: bytes)
    requires |b| >= 14
    ensures var f := ReadFrame(b);
            f.version == b[4] && f.kind == b[5] && f.requestId == Places8(b[6..14]) && f.payload == b[14..]
  {
    EightPlaces(b[6..14]);
  }
}
