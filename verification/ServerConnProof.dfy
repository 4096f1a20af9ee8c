/** Every step keeps what holds of each connection. */
module ServerConnProof {
  import opened Bytes
  import opened FrameCodec
  import opened Server
  import opened ServerSteps
  import opened ServerInvariant
  import opened Tallies

  // -------------------------------------------------------------------------
  // The Reactor moves
  // -------------------------------------------------------------------------

  /** The Reactor is not in the middle of a decode or of `beginDraining`. */
  predicate Quiet(pc: Pc) {
    !pc.Classify? && !pc.Admit? && !pc.Credit? && !pc.Answer? && !pc.StopRequests? && !pc.StopAuths? && !pc.Rearm?
  }

  predicate About(pc: Pc, k: Key) {
    || Quiet(pc)
    || (pc.Classify? && pc.key == k)
    || (pc.Admit? && pc.key == k)
    || (pc.Credit? && pc.key == k)
    || (pc.Answer? && pc.key == k)
  }

  /** The part of `ConnOk` that does not speak of epoll. */
  ghost predicate Core(pc: Pc, k: Key, c: Conn) {
    Streams(c) && Lively(c) && Accounted(pc, k, c) && AuthTracked(BatchOf(pc, k), k, c)
  }

  /** The Reactor holds nothing of `k`. */
  predicate Away(pc: Pc, k: Key) {
    !(pc.Classify? && pc.key == k) && !(pc.Admit? && pc.key == k) && !(pc.Credit? && pc.key == k)
    && !(pc.Answer? && pc.key == k)
  }

  lemma AwayKeeps(pc: Pc, pc': Pc, k: Key, c: Conn)
    requires Away(pc, k) && Away(pc', k)
    requires Accounted(pc, k, c)
    ensures Accounted(pc', k, c) && BatchOf(pc, k) == BatchOf(pc', k) == EMPTY
  {
    forall id: nat ensures Desk(pc', k, id) == 0 == Desk(pc, k, id) {
    }
  }

  lemma OtherKeeps(mode: Mode, pc: Pc, pc': Pc, k: Key, other: Key, c: Conn)
    requires ConnOk(mode, pc, other, c) && About(pc, k) && About(pc', k) && other != k
    ensures ConnOk(mode, pc', other, c)
  {
    AwayKeeps(pc, pc', other, c);
  }

  lemma QuietKeeps(mode: Mode, pc: Pc, pc': Pc, k: Key, c: Conn)
    requires ConnOk(mode, pc, k, c) && Quiet(pc) && Quiet(pc')
    ensures ConnOk(mode, pc', k, c)
  {
    AwayKeeps(pc, pc', k, c);
  }

  lemma QuietConns(mode: Mode, pc: Pc, pc': Pc, conns: map<int, Conn>)
    requires ConnsOk(mode, pc, conns) && Quiet(pc) && Quiet(pc')
    ensures ConnsOk(mode, pc', conns)
  {
    forall fd | fd in conns ensures ConnOk(mode, pc', KeyOf(fd, conns[fd]), conns[fd]) {
      QuietKeeps(mode, pc, pc', KeyOf(fd, conns[fd]), conns[fd]);
    }
  }

  lemma RegisteredOk(mode: Mode, pc: Pc, k: Key, c: Conn)
    requires Core(pc, k, c)
    ensures ConnOk(mode, pc, k, Registered(mode, c))
  {
    var c' := Registered(mode, c);
    assert Accounted(pc, k, c');
  }

  // -------------------------------------------------------------------------
  // Steps that touch no connection
  // -------------------------------------------------------------------------

  lemma EnvKeepsConns(s: State, e: EnvStep)
    requires ConnInv(s) && EnvEnabled(s, e)
    ensures ConnInv(Env(s, e))
  {
  }

  lemma WorkKeepsConns(s: State, h: Shared)
    requires ConnInv(s)
    ensures ConnInv(s.(shared := h))
  {
  }

  /** Debts, streams and AUTH state are the same wherever the Reactor is quiet or re-arming. */
  lemma RearmMove(mode: Mode, mode': Mode, pc: Pc, pc': Pc, k: Key, c: Conn)
    requires ConnOk(mode, pc, k, c) && (Quiet(pc) || pc.StopRequests? || pc.StopAuths? || pc.Rearm?)
    requires Quiet(pc') || pc'.StopRequests? || pc'.StopAuths? || pc'.Rearm?
    requires Armed(mode', pc', k.fd, c)
    ensures ConnOk(mode', pc', k, c)
  {
    AwayKeeps(pc, pc', k, c);
  }

  lemma LoopMove(mode: Mode, mode': Mode, pc: Pc, pc': Pc, conns: map<int, Conn>)
    requires ConnsOk(mode, pc, conns) && (Quiet(pc) || pc.StopRequests? || pc.StopAuths? || pc.Rearm?)
    requires Quiet(pc') || pc'.StopRequests? || pc'.StopAuths? || pc'.Rearm?
    requires forall fd :: fd in conns ==> Armed(mode', pc', fd, conns[fd])
    ensures ConnsOk(mode', pc', conns)
  {
    forall fd | fd in conns ensures ConnOk(mode', pc', KeyOf(fd, conns[fd]), conns[fd]) {
      RearmMove(mode, mode', pc, pc', KeyOf(fd, conns[fd]), conns[fd]);
    }
  }

  lemma LoopArmed(s: State, l: LoopStep, fd: int)
    requires ConnInv(s) && LoopEnabled(s, l) && fd in s.conns
    ensures Armed(Loop(s, l).mode, Loop(s, l).pc, fd, s.conns[fd])
  {
    assert ConnOk(s.mode, s.pc, KeyOf(fd, s.conns[fd]), s.conns[fd]);
  }

  lemma LoopKeepsConns(s: State, l: LoopStep)
    requires ConnInv(s) && LoopEnabled(s, l)
    ensures ConnInv(Loop(s, l))
  {
    var s' := Loop(s, l);
    forall fd | fd in s.conns ensures Armed(s'.mode, s'.pc, fd, s.conns[fd]) {
      LoopArmed(s, l, fd);
    }
    LoopMove(s.mode, s'.mode, s.pc, s'.pc, s.conns);
  }

  lemma DrainKeepsConns(s: State, d: DrainStep)
    requires ConnInv(s) && DrainEnabled(s, d)
    ensures ConnInv(Drain(s, d))
  {
    var s' := Drain(s, d);
    if s'.mode == s.mode {
      QuietConns(s.mode, s.pc, s'.pc, s.conns);
    } else {
      LoopMove(s.mode, s'.mode, s.pc, s'.pc, s.conns);
    }
  }

  // -------------------------------------------------------------------------
  // One connection changes or goes
  // -------------------------------------------------------------------------

  lemma PutKeepsConns(s: State, fd: int, c: Conn, fate: Fate)
    requires ConnInv(s) && fd in s.conns && c.cid == s.conns[fd].cid
    requires fate.Keep? ==> ConnOk(s.mode, s.pc, KeyOf(fd, c), c) && Phased(s.mode, s.pc, s.conns[fd := c])
    requires fate.Shut? ==> Phased(s.mode, s.pc, s.conns - {fd})
    requires fate == Shut(true) ==> Clean(c)
    ensures ConnInv(Put(s, fd, c, fate))
  {
  }

  /** A connection the drain test closes has answered every request and sent every byte. */
  lemma ClosesClean(mode: Mode, pc: Pc, k: Key, c: Conn)
    requires Quiet(pc) && Streams(c) && Accounted(pc, k, c) && CanClose(mode, c)
    ensures Clean(c)
  {
    assert c.output[c.offset..] == [];
    assert c.sent + [] == c.sent;
    assert c.outstanding == multiset{};
    forall id: nat ensures Tally(c.asked, FrameId, id) == Tally(c.applied, FrameId, id) {
      assert Desk(pc, k, id) == 0;
    }
  }

  lemma EofKeepsConns(s: State, fd: int, ok: bool)
    requires ConnInv(s) && s.pc.Handling?
    ensures ConnInv(MarkEof(s, fd, ok))
  {
    if fd in s.conns {
      var k := KeyOf(fd, s.conns[fd]);
      assert ConnOk(s.mode, s.pc, k, s.conns[fd]);
      var c := s.conns[fd].(readEof := true);
      assert Accounted(s.pc, k, c);
      if CanClose(s.mode, c) {
        ClosesClean(s.mode, s.pc, k, c);
        PutKeepsConns(s, fd, c, Shut(true));
      } else if !s.conns[fd].readEof {
        assert Core(s.pc, k, c);
        RegisteredOk(s.mode, s.pc, k, c);
        PutKeepsConns(s, fd, Registered(s.mode, c), IfOk(ok));
      }
    }
  }

  lemma SentStreams(c: Conn, n: nat)
    requires Streams(c) && n <= Unsent(c)
    ensures Streams(Sent(c, n))
  {
    var m := c.offset + n;
    assert c.output[c.offset..] == c.output[c.offset..m] + c.output[m..];
    assert c.sent + (c.output[c.offset..m] + c.output[m..]) == (c.sent + c.output[c.offset..m]) + c.output[m..];
    if m == |c.output| {
      assert c.output[m..] == [];
    }
  }

  /** What a turn of `handleWrite` leaves of the connection's record. */
  function Written(c: Conn, n: nat): Conn
    requires 0 < Unsent(c) ==> n <= Unsent(c)
  {
    if 0 < Unsent(c) then Sent(c, n) else c
  }

  lemma WrittenOk(pc: Pc, k: Key, c: Conn, n: nat)
    requires Core(pc, k, c) && (0 < Unsent(c) ==> n <= Unsent(c))
    ensures Streams(Written(c, n)) && Accounted(pc, k, Written(c, n)) && AuthTracked(BatchOf(pc, k), k, Written(c, n))
  {
    if 0 < Unsent(c) {
      SentStreams(c, n);
    }
    assert Accounted(pc, k, Written(c, n));
  }

  lemma StillSending(mode: Mode, pc: Pc, k: Key, c: Conn, n: nat)
    requires ConnOk(mode, pc, k, c) && (0 < Unsent(c) ==> n <= Unsent(c))
    requires Written(c, n).offset < |Written(c, n).output|
    ensures ConnOk(mode, pc, k, Written(c, n))
  {
    WrittenOk(pc, k, c, n);
    assert Events(mode, Written(c, n)) == Events(mode, c);
  }

  lemma WriteKeepsConns(s: State, fd: int, n: nat, ok: bool)
    requires ConnInv(s) && s.pc.Handling? && fd in s.conns
    requires 0 < Unsent(s.conns[fd]) ==> 0 < n <= Unsent(s.conns[fd])
    ensures ConnInv(WriteTurn(s, fd, n, ok))
  {
    var k := KeyOf(fd, s.conns[fd]);
    assert ConnOk(s.mode, s.pc, k, s.conns[fd]);
    var c := Written(s.conns[fd], n);
    if c.offset < |c.output| {
      SendingKeepsConns(s, fd, n);
    } else {
      WrittenOk(s.pc, k, s.conns[fd], n);
      EmptiedKeepsConns(s, fd, c, ok);
    }
  }

  lemma SendingKeepsConns(s: State, fd: int, n: nat)
    requires ConnInv(s) && s.pc.Handling? && fd in s.conns && (0 < Unsent(s.conns[fd]) ==> n <= Unsent(s.conns[fd]))
    requires Written(s.conns[fd], n).offset < |Written(s.conns[fd], n).output|
    ensures ConnInv(Put(s, fd, Written(s.conns[fd], n), Keep))
  {
    var k := KeyOf(fd, s.conns[fd]);
    assert ConnOk(s.mode, s.pc, k, s.conns[fd]);
    StillSending(s.mode, s.pc, k, s.conns[fd], n);
    PutKeepsConns(s, fd, Written(s.conns[fd], n), Keep);
  }

  /** Everything was sent: the connection goes if it may, or is registered anew. */
  lemma EmptiedKeepsConns(s: State, fd: int, c: Conn, ok: bool)
    requires ConnInv(s) && s.pc.Handling? && fd in s.conns && c.cid == s.conns[fd].cid && c.offset >= |c.output|
    requires Streams(c) && Accounted(s.pc, KeyOf(fd, c), c) && AuthTracked(BatchOf(s.pc, KeyOf(fd, c)), KeyOf(fd, c), c)
    ensures ConnInv(if CanClose(s.mode, c) then Put(s, fd, c, Shut(true))
                    else Put(s, fd, Registered(s.mode, c), IfOk(ok)))
  {
    var k := KeyOf(fd, c);
    if CanClose(s.mode, c) {
      ClosesClean(s.mode, s.pc, k, c);
      PutKeepsConns(s, fd, c, Shut(true));
    } else {
      RegisteredOk(s.mode, s.pc, k, c);
      PutKeepsConns(s, fd, Registered(s.mode, c), IfOk(ok));
    }
  }

  lemma RearmOthers(mode: Mode, pc: Pc, fd: int, conns: map<int, Conn>, other: int)
    requires ConnsOk(mode, pc, conns) && pc.Rearm? && other in conns && other != fd
    ensures ConnOk(mode, Rearm(pc.fds - {fd}), KeyOf(other, conns[other]), conns[other])
  {
    RearmMove(mode, mode, pc, Rearm(pc.fds - {fd}), KeyOf(other, conns[other]), conns[other]);
  }

  lemma RearmKeepsConns(s: State, fd: int, ok: bool)
    requires ConnInv(s) && s.pc.Rearm? && fd in s.pc.fds
    ensures ConnInv(DoRearm(s, fd, ok))
  {
    var s' := DoRearm(s, fd, ok);
    forall other | other in s'.conns && other != fd
      ensures ConnOk(s'.mode, s'.pc, KeyOf(other, s'.conns[other]), s'.conns[other])
    {
      RearmOthers(s.mode, s.pc, fd, s.conns, other);
    }
    if fd in s.conns {
      var k := KeyOf(fd, s.conns[fd]);
      AwayKeeps(s.pc, s'.pc, k, s.conns[fd]);
      RegisteredOk(s.mode, s'.pc, k, s.conns[fd]);
    }
  }

  lemma FreshOk(mode: Mode, pc: Pc, fd: int, cid: nat)
    requires Quiet(pc) && mode == Running
    ensures ConnOk(mode, pc, Key(fd, cid), Fresh(cid, mode))
  {
    var c := Fresh(cid, mode);
    forall id: nat ensures Desk(pc, Key(fd, cid), id) == 0 {
    }
    assert c.sent + c.output[c.offset..] == [] == EncodeAll(c.applied);
  }

  lemma AcceptKeepsConns(s: State, fd: int, ok: bool)
    requires ConnInv(s) && s.pc.Handling? && s.mode == Running && fd !in s.conns
    ensures ConnInv(DoAccept(s, fd, ok))
  {
    FreshOk(s.mode, s.pc, fd, s.nextId);
  }

  lemma CloseRejectedKeepsConns(s: State, k: Key)
    requires ConnInv(s) && s.pc.CloseRejected?
    ensures ConnInv(CloseRejectedKey(s, k))
  {
    var s1 := s.(pc := CloseRejected(s.pc.keys - {k}));
    QuietConns(s.mode, s.pc, s1.pc, s.conns);
    if Live(s.conns, k) {
      PutKeepsConns(s1, k.fd, s.conns[k.fd], Shut(false));
    }
  }

  lemma SweepKeepsConns(s: State, fd: int)
    requires ConnInv(s) && s.pc.Sweep? && fd in s.conns && CanClose(s.mode, s.conns[fd])
    ensures ConnInv(Put(s, fd, s.conns[fd], Shut(true)))
  {
    assert ConnOk(s.mode, s.pc, KeyOf(fd, s.conns[fd]), s.conns[fd]);
    ClosesClean(s.mode, s.pc, KeyOf(fd, s.conns[fd]), s.conns[fd]);
    PutKeepsConns(s, fd, s.conns[fd], Shut(true));
  }

  // -------------------------------------------------------------------------
  // Applying a response
  // -------------------------------------------------------------------------

  lemma AppendedStreams(c: Conn, r: Response, limit: nat)
    requires Streams(c) && !Withheld(c, r, limit)
    ensures Streams(Appended(c, r, limit)) && Lively(Appended(c, r, limit))
  {
    var c' := Appended(c, r, limit);
    EncodeAllAppend(c.applied, r.frame);
    assert c'.output[c'.offset..] == c'.output;
    assert c.sent + (c.output[c.offset..] + Encode(r.frame)) == (c.sent + c.output[c.offset..]) + Encode(r.frame);
  }

  lemma TakeOut(m: multiset<Ticket>, t: Ticket)
    requires m[t] > 0
    ensures |m - multiset{t}| == |m| - 1
  {
    assert m == (m - multiset{t}) + multiset{t};
  }

  /** A worker's answer moves one request of its connection from in flight to answered. */
  lemma SettledAccounted(pc: Pc, k: Key, c: Conn, c': Conn, t: Ticket, f: Frame)
    requires Quiet(pc) && Accounted(pc, k, c) && c.outstanding[t] > 0 && t.key == k && f.requestId == t.id
    requires c'.asked == c.asked && c'.applied == c.applied + [f]
    requires c'.outstanding == c.outstanding - multiset{t} && c'.inFlight == c.inFlight - 1
    ensures Accounted(pc, k, c')
  {
    TakeOut(c.outstanding, t);
    forall id: nat
      ensures Tally(c'.asked, FrameId, id)
              == Tally(c'.applied, FrameId, id) + c'.outstanding[Ticket(k, id, true)]
                 + c'.outstanding[Ticket(k, id, false)] + Desk(pc, k, id)
    {
      TallyAppend(c.applied, f, FrameId, id);
    }
  }

  lemma WorkerAccounted(pc: Pc, k: Key, c: Conn, r: Response, ruled: Response, limit: nat)
    requires Quiet(pc) && Accounted(pc, k, c) && r.key == k && c.outstanding[ResponseTicket(r)] > 0
    requires ruled.frame.requestId == r.frame.requestId && c.offset <= |c.output|
    ensures Accounted(pc, k, Appended(Settled(c, r, ruled, true), ruled, limit))
  {
    TakeOut(c.outstanding, ResponseTicket(r));
    SettledAccounted(pc, k, c, Appended(Settled(c, r, ruled, true), ruled, limit), ResponseTicket(r), ruled.frame);
  }

  /** An AUTH answer ends the pending AUTH; a normal answer leaves AUTH state alone. */
  lemma WorkerTracked(k: Key, c: Conn, r: Response, ruled: Response, limit: nat)
    requires AuthTracked(EMPTY, k, c) && AnswerOk(r) && r.key == k && c.outstanding[ResponseTicket(r)] > 0
    requires ruled.client == r.client || ruled.client.None?
    requires c.offset <= |c.output|
    ensures AuthTracked(EMPTY, k, Appended(Settled(c, r, ruled, true), ruled, limit))
  {
    var t := ResponseTicket(r);
    assert t in c.outstanding;
    TakeOut(c.outstanding, t);
    var c' := Appended(Settled(c, r, ruled, true), ruled, limit);
    forall u | u in c'.outstanding ensures u.key == k && (u.auth <==> !c'.authenticated) {
      assert u in c.outstanding;
    }
  }

  lemma WorkerApplied(s: State, r: Response, refusal: bytes)
    requires ConnInv(s) && s.pc.Responses? && Live(s.conns, r.key) && AnswerOk(r)
    requires s.conns[r.key.fd].outstanding[ResponseTicket(r)] > 0
    requires var ruled := Ruled(s, r, refusal);
             !Withheld(Settled(s.conns[r.key.fd], r, ruled, true), ruled, s.config.outputLimit)
    ensures var ruled := Ruled(s, r, refusal);
            var c := Appended(Settled(s.conns[r.key.fd], r, ruled, true), ruled, s.config.outputLimit);
            ConnOk(s.mode, s.pc, r.key, Registered(s.mode, c))
  {
    var c := s.conns[r.key.fd];
    var ruled := Ruled(s, r, refusal);
    assert ConnOk(s.mode, s.pc, KeyOf(r.key.fd, c), c);
    WorkerAccounted(s.pc, r.key, c, r, ruled, s.config.outputLimit);
    WorkerTracked(r.key, c, r, ruled, s.config.outputLimit);
    AppendedStreams(Settled(c, r, ruled, true), ruled, s.config.outputLimit);
    RegisteredOk(s.mode, s.pc, r.key, Appended(Settled(c, r, ruled, true), ruled, s.config.outputLimit));
  }

  lemma ApplyNextKeepsConns(s: State, refusal: bytes, ok: bool)
    requires ConnInv(s) && s.pc.Responses? && s.shared.responses.items != []
    requires var r := s.shared.responses.items[0];
             AnswerOk(r) && (Live(s.conns, r.key) ==> s.conns[r.key.fd].outstanding[ResponseTicket(r)] > 0)
    ensures ConnInv(Apply(Take(s), s.shared.responses.items[0], true, refusal, ok))
  {
    var r := s.shared.responses.items[0];
    var s0 := Take(s);
    assert ConnInv(s0);
    if Live(s.conns, r.key) {
      var ruled := Ruled(s0, r, refusal);
      var c := Settled(s.conns[r.key.fd], r, ruled, true);
      var s1 := if ruled.client.Some? then s0.(book := s0.book.(members := s0.book.members + {r.key})) else s0;
      assert ConnInv(s1);
      if Withheld(c, ruled, s0.config.outputLimit) {
        PutKeepsConns(s1, r.key.fd, c, Shut(false));
      } else {
        WorkerApplied(s0, r, refusal);
        PutKeepsConns(s1, r.key.fd, Registered(s0.mode, Appended(c, ruled, s0.config.outputLimit)), IfOk(ok));
      }
    }
  }

  lemma ConnStepKeepsConns(s: State, p: ConnStep)
    requires ConnInv(s) && ConnEnabled(s, p)
    requires p.ApplyNext? ==>
               var r := s.shared.responses.items[0];
               AnswerOk(r) && (Live(s.conns, r.key) ==> s.conns[r.key.fd].outstanding[ResponseTicket(r)] > 0)
    ensures ConnInv(OnConn(s, p))
  {
    match p
    case RearmOne(fd, ok) => RearmKeepsConns(s, fd, ok);
    case Accept(fd, ok) => AcceptKeepsConns(s, fd, ok);
    case Fail(fd) =>
      if fd in s.conns {
        PutKeepsConns(s, fd, s.conns[fd], Shut(false));
      }
    case HangUp(fd, ok) => EofKeepsConns(s, fd, ok);
    case Write(fd, n, ok) => WriteKeepsConns(s, fd, n, ok);
    case Eof(ok) =>
      QuietConns(s.mode, s.pc, Handling, s.conns);
      EofKeepsConns(s.(pc := Handling), s.pc.key.fd, ok);
    case CloseOne(k) => CloseRejectedKeepsConns(s, k);
    case SweepOne(fd) => SweepKeepsConns(s, fd);
    case ApplyNext(refusal, ok) => ApplyNextKeepsConns(s, refusal, ok);
  }
}
