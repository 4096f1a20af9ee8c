/** The requests decoded on a connection are those its peer sent, however the bytes arrived. */
module ServerInput {
  import opened Bytes
  import opened FrameCodec
  import opened Server
  import opened ServerSteps
  import opened ServerRuns
  import opened ServerHistory

  // -------------------------------------------------------------------------
  // Bytes received
  // -------------------------------------------------------------------------

  function ReadBy(s: State, p: Step, k: Key): bytes {
    if Reads(p) && Live(s.conns, k) && p.decode.fd == k.fd then p.decode.chunk else []
  }

  /** The bytes read on generation `k` in the first `i` steps of a run. */
  ghost function Received(r: Run, i: nat, k: Key): bytes
    requires r.Valid() && i < |r.states|
  {
    if i == 0 then [] else Received(r, i - 1, k) + ReadBy(r.states[i - 1], r.steps[i - 1], k)
  }

  /** The connection's input is over: end of file was seen or is being handled, or its framing was rejected. */
  ghost predicate Ended(s: State, k: Key) {
    (Live(s.conns, k) && s.conns[k.fd].readEof) || PcEnded(s.pc, k)
  }

  predicate PcEnded(pc: Pc, k: Key) {
    match pc
    case Classify(key, _, _, _, eof, doomed) => key == k && (eof || doomed)
    case Admit(key, _, eof) => key == k && eof
    case Credit(key, _, eof) => key == k && eof
    case Answer(key, _, eof) => key == k && eof
    case PeerEof(key) => key == k
    case _ => false
  }

  /** The last read on `k` was rejected, and `k` is about to be closed for it. */
  predicate Doomed(pc: Pc, k: Key) {
    pc.Classify? && pc.key == k && pc.doomed
  }

  /**
   What was asked is what the decoding `d` of the bytes says, and what is kept is
   what it keeps of them. Unless `strict`, a rejected read may have stopped short.
   */
  ghost predicate Heard(s: State, k: Key, d: Decoded, strict: bool) {
    Live(s.conns, k) ==>
      var c := s.conns[k.fd];
      && c.asked <= d.frames
      && (strict || !Doomed(s.pc, k) ==> c.asked == d.frames)
      && (!Ended(s, k) ==> d.status != Invalid && c.input == d.rest)
  }

  // -------------------------------------------------------------------------
  // Steps
  // -------------------------------------------------------------------------

  lemma PcEndedStays(s: State, p: Step, k: Key)
    requires Enabled(s, p) && PcEnded(s.pc, k) && Live(s.conns, k) && Live(Next(s, p).conns, k)
    ensures Ended(Next(s, p), k)
  {
    match p
    case DecodeMoves(d) => DecodeEndedStays(s, d, k);
    case ConnMoves(c) => assert c.Eof?;
    case _ =>
  }

  lemma DecodeEndedStays(s: State, d: DecodeStep, k: Key)
    requires DecodeEnabled(s, d) && PcEnded(s.pc, k) && Live(s.conns, k) && Live(Decoding(s, d).conns, k)
    ensures Ended(Decoding(s, d), k)
  {
    match d
    case Sort(now, text) => SortEndedStays(s, now, text, k);
    case Reply(refusal, ok) => ReplyKeepsPlace(s, refusal, ok);
    case _ =>
  }

  lemma SortEndedStays(s: State, now: int, text: bytes, k: Key)
    requires s.pc.Classify? && s.pc.todo != [] && Live(s.conns, s.pc.key) && PcEnded(s.pc, k)
    requires Live(SortTurn(s, now, text).conns, k)
    ensures PcEnded(SortTurn(s, now, text).pc, k)
    ensures Doomed(s.pc, k) ==> Doomed(SortTurn(s, now, text).pc, k)
  {
  }

  lemma DoomedStays(s: State, p: Step, k: Key)
    requires Enabled(s, p) && Doomed(s.pc, k) && Live(s.conns, k) && Live(Next(s, p).conns, k)
    ensures Doomed(Next(s, p).pc, k)
  {
    match p
    case DecodeMoves(d) =>
      if d.Sort? {
        SortEndedStays(s, d.now, d.text, k);
      }
    case _ =>
  }

  lemma ReplyKeepsPlace(s: State, refusal: bytes, ok: bool)
    requires s.pc.Answer? && s.pc.batch.locals != []
    ensures var pc := ReplyOne(s, refusal, ok).pc; pc.Answer? && pc.key == s.pc.key && pc.eof == s.pc.eof
  {
  }

  /** A step that reads nothing on `k` leaves what was heard on it. */
  lemma QuietStepHeard(s: State, p: Step, k: Key, d: Decoded, strict: bool)
    requires Enabled(s, p) && Evolves(s, Next(s, p)) && Quiet(s, Next(s, p)) && k.cid < s.nextId
    requires Heard(s, k, d, strict)
    ensures Heard(Next(s, p), k, d, strict)
  {
    var s' := Next(s, p);
    if Live(s'.conns, k) {
      assert Stems(s, s', k.fd);
      assert Live(s.conns, k);
      if PcEnded(s.pc, k) {
        PcEndedStays(s, p, k);
      }
      if Doomed(s.pc, k) {
        DoomedStays(s, p, k);
      }
    }
  }

  lemma OtherReadHeard(s: State, fd: int, chunk: bytes, eof: bool, k: Key, d: Decoded, strict: bool)
    requires DecodeEnabled(s, Read(fd, chunk, eof)) && fd != k.fd && Heard(s, k, d, strict)
    ensures Heard(ReadAndDecode(s, fd, chunk, eof), k, d, strict)
  {
  }

  /** The step reads on `k`. */
  predicate ReadsOn(s: State, p: Step, k: Key) {
    Reads(p) && Live(s.conns, k) && p.decode.fd == k.fd
  }

  /** Reading `chunk` under `limit` after `d` goes on as `d'` says. */
  ghost predicate Continues(d: Decoded, chunk: bytes, limit: nat, d': Decoded, strict: bool) {
    d.status != Invalid ==>
      var e := Decode(d.rest + chunk, limit);
      && d.frames + e.frames <= d'.frames
      && (strict || e.status != Invalid ==> d'.frames == d.frames + e.frames)
      && (e.status != Invalid ==> d'.status == e.status && d'.rest == e.rest)
  }

  /** A read on `k` whose decoding continues `d` as `d'` says. */
  lemma OwnReadHeard(s: State, chunk: bytes, eof: bool, k: Key, d: Decoded, d': Decoded, strict: bool)
    requires DecodeEnabled(s, Read(k.fd, chunk, eof)) && Live(s.conns, k) && Heard(s, k, d, strict)
    requires Continues(d, chunk, s.config.maxBody, d', strict)
    ensures Heard(ReadAndDecode(s, k.fd, chunk, eof), k, d', strict)
  {
  }

  /** Under one limit, reading is decoding the longer stream. */
  lemma OneLimitContinues(got: bytes, chunk: bytes, limit: nat)
    ensures Continues(Decode(got, limit), chunk, limit, Decode(got + chunk, limit), true)
  {
    DecodeSplit(got, chunk, limit);
  }

  /** Under any limit, a read that is accepted continues the decoding by the hard limit. */
  lemma AnyLimitContinues(got: bytes, chunk: bytes, limit: nat)
    ensures Continues(Decode(got, MAX_BODY), chunk, limit, Decode(got + chunk, MAX_BODY), false)
  {
    DecodeSplit(got, chunk, MAX_BODY);
    LimitOnlyRejects(Decode(got, MAX_BODY).rest + chunk, limit);
  }

  /** A read of a stream of frames that fit the limit of the moment is accepted. */
  lemma FittingContinues(got: bytes, chunk: bytes, limit: nat, fs: seq<Frame>)
    requires AllFit(fs, limit) && got + chunk <= EncodeAll(fs)
    ensures Continues(Decode(got, MAX_BODY), chunk, limit, Decode(got + chunk, MAX_BODY), true)
  {
    AnyLimitContinues(got, chunk, limit);
    PrefixDecodes(fs, got + chunk, limit);
    DecodeSplit(got, chunk, limit);
    LimitOnlyRejects(got, limit);
  }

  // -------------------------------------------------------------------------
  // Runs
  // -------------------------------------------------------------------------

  /** Nothing is heard of a generation before it is handed out. */
  lemma {:induction false} NotYetHeard(r: Run, i: nat, k: Key)
    requires r.Valid() && i < |r.states| && k.cid >= r.states[i].nextId
    ensures Received(r, i, k) == []
  {
    if i > 0 {
      OneStepEvolves(r, i - 1);
      NotYetHeard(r, i - 1, k);
      NotYetLive(r, i - 1, k);
    }
  }

  lemma NotYetLive(r: Run, i: nat, k: Key)
    requires r.Valid() && i < |r.states| && k.cid >= r.states[i].nextId
    ensures !Live(r.states[i].conns, k)
  {
    AlwaysWork(r, i);
  }

  /** Any step but a read on `k` leaves what was heard on it. */
  lemma OtherStepHeard(r: Run, i: nat, k: Key, limit: nat, strict: bool)
    requires r.Valid() && i < |r.steps| && !ReadsOn(r.states[i], r.steps[i], k)
    requires Heard(r.states[i], k, Decode(Received(r, i, k), limit), strict)
    ensures Heard(r.states[i + 1], k, Decode(Received(r, i + 1, k), limit), strict)
  {
    var s, p, got := r.states[i], r.steps[i], Received(r, i, k);
    assert r.Follows(i);
    OneStepEvolves(r, i);
    assert got + [] == got;
    if Reads(p) {
      if Live(s.conns, k) {
        var Read(fd, chunk, eof) := p.decode;
        OtherReadHeard(s, fd, chunk, eof, k, Decode(got, limit), strict);
      }
    } else if k.cid < s.nextId {
      QuietStepHeard(s, p, k, Decode(got, limit), strict);
    } else {
      NotYetHeard(r, i, k);
      NotYetLive(r, i, k);
    }
  }

  lemma OwnStepHeard(r: Run, i: nat, k: Key, limit: nat, strict: bool)
    requires r.Valid() && i < |r.steps| && ReadsOn(r.states[i], r.steps[i], k)
    requires Heard(r.states[i], k, Decode(Received(r, i, k), limit), strict)
    requires Continues(Decode(Received(r, i, k), limit), r.steps[i].decode.chunk, r.states[i].config.maxBody,
                       Decode(Received(r, i + 1, k), limit), strict)
    ensures Heard(r.states[i + 1], k, Decode(Received(r, i + 1, k), limit), strict)
  {
    var s, p := r.states[i], r.steps[i];
    assert r.Follows(i);
    OwnReadHeard(s, p.decode.chunk, p.decode.eof, k, Decode(Received(r, i, k), limit),
                 Decode(Received(r, i + 1, k), limit), strict);
  }

  lemma NobodyAtFirst(r: Run, k: Key)
    requires r.Valid()
    ensures !Live(r.states[0].conns, k)
  {
  }

  lemma ReceivedNext(r: Run, i: nat, k: Key)
    requires r.Valid() && i < |r.steps| && ReadsOn(r.states[i], r.steps[i], k)
    ensures Received(r, i + 1, k) == Received(r, i, k) + r.steps[i].decode.chunk
  {
  }

  lemma ReceivedBefore(r: Run, i: nat, k: Key, all: bytes)
    requires r.Valid() && 0 < i < |r.states| && Received(r, i, k) <= all
    ensures Received(r, i - 1, k) <= all
  {
  }

  lemma AnyLimitNext(r: Run, i: nat, j: nat, k: Key, hard: nat)
    requires hard == MAX_BODY && r.Valid() && i < |r.steps| && j == i + 1
    requires Heard(r.states[i], k, Decode(Received(r, i, k), hard), false)
    ensures Heard(r.states[j], k, Decode(Received(r, j, k), hard), false)
  {
    if ReadsOn(r.states[i], r.steps[i], k) {
      ReceivedNext(r, i, k);
      AnyLimitContinues(Received(r, i, k), r.steps[i].decode.chunk, r.states[i].config.maxBody);
      OwnStepHeard(r, i, k, hard, false);
    } else {
      OtherStepHeard(r, i, k, hard, false);
    }
  }

  lemma {:induction false} HeardUnderAnyLimit(r: Run, i: nat, k: Key, hard: nat)
    requires hard == MAX_BODY && r.Valid() && i < |r.states|
    ensures Heard(r.states[i], k, Decode(Received(r, i, k), hard), false)
  {
    if i == 0 {
      NobodyAtFirst(r, k);
    } else {
      HeardUnderAnyLimit(r, i - 1, k, hard);
      AnyLimitNext(r, i - 1, i, k, hard);
    }
  }

  /** Every read on `k` in the first `i` steps was made under the limit `limit`. */
  ghost predicate ReadUnder(r: Run, i: nat, k: Key, limit: nat)
    requires r.Valid() && i < |r.states|
  {
    forall j :: 0 <= j < i && ReadsOn(r.states[j], r.steps[j], k) ==> r.states[j].config.maxBody == limit
  }

  lemma OneLimitNext(r: Run, i: nat, j: nat, k: Key, limit: nat)
    requires r.Valid() && i < |r.steps| && j == i + 1
    requires Heard(r.states[i], k, Decode(Received(r, i, k), limit), true)
    requires ReadsOn(r.states[i], r.steps[i], k) ==> r.states[i].config.maxBody == limit
    ensures Heard(r.states[j], k, Decode(Received(r, j, k), limit), true)
  {
    if ReadsOn(r.states[i], r.steps[i], k) {
      ReceivedNext(r, i, k);
      OneLimitContinues(Received(r, i, k), r.steps[i].decode.chunk, limit);
      OwnStepHeard(r, i, k, limit, true);
    } else {
      OtherStepHeard(r, i, k, limit, true);
    }
  }

  lemma {:induction false} HeardUnderOneLimit(r: Run, i: nat, k: Key, limit: nat)
    requires r.Valid() && i < |r.states| && ReadUnder(r, i, k, limit)
    ensures Heard(r.states[i], k, Decode(Received(r, i, k), limit), true)
  {
    if i == 0 {
      NobodyAtFirst(r, k);
    } else {
      HeardUnderOneLimit(r, i - 1, k, limit);
      OneLimitNext(r, i - 1, i, k, limit);
    }
  }

  /** The frames fit the limit in force at every read on `k` in the first `i` steps. */
  ghost predicate FitAtReads(r: Run, i: nat, k: Key, fs: seq<Frame>)
    requires r.Valid() && i < |r.states|
  {
    forall j :: 0 <= j < i && ReadsOn(r.states[j], r.steps[j], k) ==> AllFit(fs, r.states[j].config.maxBody)
  }

  lemma FittingNext(r: Run, i: nat, j: nat, k: Key, hard: nat, fs: seq<Frame>)
    requires hard == MAX_BODY && r.Valid() && i < |r.steps| && j == i + 1
    requires Heard(r.states[i], k, Decode(Received(r, i, k), hard), true)
    requires ReadsOn(r.states[i], r.steps[i], k) ==> AllFit(fs, r.states[i].config.maxBody)
    requires Received(r, j, k) <= EncodeAll(fs)
    ensures Heard(r.states[j], k, Decode(Received(r, j, k), hard), true)
  {
    if ReadsOn(r.states[i], r.steps[i], k) {
      ReceivedNext(r, i, k);
      FittingContinues(Received(r, i, k), r.steps[i].decode.chunk, r.states[i].config.maxBody, fs);
      OwnStepHeard(r, i, k, hard, true);
    } else {
      OtherStepHeard(r, i, k, hard, true);
    }
  }

  lemma {:induction false} HeardWhenFitting(r: Run, i: nat, k: Key, hard: nat, fs: seq<Frame>)
    requires hard == MAX_BODY && r.Valid() && i < |r.states|
    requires FitAtReads(r, i, k, fs) && Received(r, i, k) <= EncodeAll(fs)
    ensures Heard(r.states[i], k, Decode(Received(r, i, k), hard), true)
  {
    if i == 0 {
      NobodyAtFirst(r, k);
    } else {
      ReceivedBefore(r, i, k, EncodeAll(fs));
      HeardWhenFitting(r, i - 1, k, hard, fs);
      FittingNext(r, i - 1, i, k, hard, fs);
    }
  }

  /**
   In every run, however the frame limit is reconfigured, the requests decoded on
   a connection are exactly the frames of the bytes received on it, whatever the
   reads, the reuse of its descriptor and the work of other threads. The one
   exception is a connection about to be closed because its last read was
   rejected: it has a prefix of them.
   */
  lemma InputStream(r: Run, i: nat, fd: int)
    requires r.Valid() && i < |r.states| && fd in r.states[i].conns
    ensures var c := r.states[i].conns[fd];
            var frames := Decode(Received(r, i, KeyOf(fd, c)), MAX_BODY).frames;
            c.asked <= frames && (!Doomed(r.states[i].pc, KeyOf(fd, c)) ==> c.asked == frames)
  {
    HeardUnderAnyLimit(r, i, KeyOf(fd, r.states[i].conns[fd]), MAX_BODY);
  }

  /** If all reads on the connection were made under one limit, decoding by that limit tells the requests always. */
  lemma InputUnderOneLimit(r: Run, i: nat, fd: int, limit: nat)
    requires r.Valid() && i < |r.states| && fd in r.states[i].conns
    requires ReadUnder(r, i, KeyOf(fd, r.states[i].conns[fd]), limit)
    ensures var c := r.states[i].conns[fd];
            c.asked == Decode(Received(r, i, KeyOf(fd, c)), limit).frames
  {
    HeardUnderOneLimit(r, i, KeyOf(fd, r.states[i].conns[fd]), limit);
  }

  /**
   A peer that sends encoded requests has a prefix of them decoded, under any
   reconfiguration, and all of them once all bytes are in, if they fit the limits
   in force when they were read.
   */
  lemma RequestsArrive(r: Run, i: nat, fd: int, fs: seq<Frame>)
    requires r.Valid() && i < |r.states| && fd in r.states[i].conns && AllFit(fs, MAX_BODY)
    requires Received(r, i, KeyOf(fd, r.states[i].conns[fd])) <= EncodeAll(fs)
    ensures var c := r.states[i].conns[fd];
            var k := KeyOf(fd, c);
            && c.asked <= fs
            && (Received(r, i, k) == EncodeAll(fs) && FitAtReads(r, i, k, fs) ==> c.asked == fs)
  {
    var k := KeyOf(fd, r.states[i].conns[fd]);
    InputStream(r, i, fd);
    PrefixDecodes(fs, Received(r, i, k), MAX_BODY);
    RoundTrip(fs, MAX_BODY);
    if FitAtReads(r, i, k, fs) {
      HeardWhenFitting(r, i, k, MAX_BODY, fs);
    }
  }

  // -------------------------------------------------------------------------
  // Limits are checked by the decoder
  // -------------------------------------------------------------------------

  lemma {:induction false} DecodedFit(b: bytes, limit: nat)
    ensures AllFit(Decode(b, limit).frames, limit)
    decreases |b|
  {
    if b != [] {
      var look := Look(b, limit);
      if look.Whole? {
        DecodedFit(b[look.size..], limit);
      }
    }
  }

  /** Everything still to be sorted fits the limit the decode was given. */
  ghost predicate TodoFits(pc: Pc) {
    pc.Classify? ==> AllFit(pc.todo, pc.config.maxBody)
  }

  lemma StepKeepsTodo(s: State, p: Step)
    requires Enabled(s, p) && TodoFits(s.pc)
    ensures TodoFits(Next(s, p).pc)
  {
    match p
    case DecodeMoves(d) => DecodeKeepsTodo(s, d);
    case ConnMoves(c) => ConnKeepsTodo(s, c);
    case _ =>
  }

  lemma DecodeKeepsTodo(s: State, d: DecodeStep)
    requires DecodeEnabled(s, d) && TodoFits(s.pc)
    ensures TodoFits(Decoding(s, d).pc)
  {
    match d
    case Read(fd, chunk, _) => DecodedFit(s.conns[fd].input + chunk, s.config.maxBody);
    case Sort(now, text) =>
      var pc := SortTurn(s, now, text).pc;
      assert pc.Classify? ==> pc.config == s.pc.config && pc.todo == s.pc.todo[1..];
    case Reply(refusal, ok) => ReplyKeepsPlace(s, refusal, ok);
    case _ =>
  }

  lemma ConnKeepsTodo(s: State, p: ConnStep)
    requires ConnEnabled(s, p)
    ensures !OnConn(s, p).pc.Classify?
  {
  }

  lemma {:induction false} TodoAlwaysFits(r: Run, i: nat)
    requires r.Valid() && i < |r.states|
    ensures TodoFits(r.states[i].pc)
  {
    if i > 0 {
      TodoAlwaysFits(r, i - 1);
      assert r.Follows(i - 1);
      StepKeepsTodo(r.states[i - 1], r.steps[i - 1]);
    }
  }

  /** The second size check of `decodeAndEnqueue` never fires: the decoder has refused such frames already. */
  lemma NoOversizedRequest(r: Run, i: nat)
    requires r.Valid() && i < |r.states| && r.states[i].pc.Classify? && r.states[i].pc.todo != []
    ensures |r.states[i].pc.todo[0].payload| + 10 <= r.states[i].pc.config.maxBody
  {
    TodoAlwaysFits(r, i);
    assert r.states[i].pc.todo[0] in r.states[i].pc.todo;
  }
}
