/** Every step keeps the conservation of work. */
module ServerWorkProof {
  import opened Bytes
  import opened FrameCodec
  import opened Queues
  import opened Server
  import opened ServerSteps
  import opened ServerInvariant
  import opened Tallies

  // -------------------------------------------------------------------------
  // Workers
  // -------------------------------------------------------------------------

  lemma {:induction false} InHandsUpdate(ws: seq<Worker>, i: nat, w: Worker, t: Ticket)
    requires i < |ws|
    ensures InHands(ws[i := w], t) + Held(ws[i], t) == InHands(ws, t) + Held(w, t)
  {
    var front := ws[..|ws| - 1];
    if i == |ws| - 1 {
      assert ws[i := w][..|ws| - 1] == front;
    } else {
      InHandsUpdate(front, i, w, t);
      assert ws[i := w][..|ws| - 1] == front[i := w];
    }
  }

  lemma {:induction false} HeldInHands(ws: seq<Worker>, i: nat, t: Ticket)
    requires i < |ws|
    ensures Held(ws[i], t) <= InHands(ws, t)
  {
    if i < |ws| - 1 {
      HeldInHands(ws[..|ws| - 1], i, t);
    }
  }

  lemma PushKeepsFlight(h: Shared, i: nat, t: Ticket)
    requires i < |h.workers| && h.workers[i].Ready?
    ensures Flight(PushResponse(h, i, h.workers[i].response), t) == Flight(h, t)
  {
    var r := h.workers[i].response;
    var h' := PushResponse(h, i, r);
    InHandsUpdate(h.workers, i, h'.workers[i], t);
    if h.responses.PushResult() == Pushed {
      TallyAppend(h.responses.items, r, ResponseTicket, t);
    } else {
      TallyAppend(h.lost, ResponseTicket(r), Itself, t);
    }
  }

  lemma TakeKeepsFlight(h: Shared, i: nat, t: Ticket)
    requires i < |h.workers| && h.workers[i].Idle?
    ensures h.requests.items != [] ==>
              Flight(h.(workers := h.workers[i := Busy(h.requests.items[0])], requests := h.requests.Pop()), t)
              == Flight(h, t)
    ensures h.auths.items != [] ==>
              Flight(h.(workers := h.workers[i := AuthBusy(h.auths.items[0])], auths := h.auths.Pop()), t)
              == Flight(h, t)
  {
    if h.requests.items != [] {
      TallyHead(h.requests.items, RequestTicket, t);
      InHandsUpdate(h.workers, i, Busy(h.requests.items[0]), t);
    }
    if h.auths.items != [] {
      TallyHead(h.auths.items, AuthTicket, t);
      InHandsUpdate(h.workers, i, AuthBusy(h.auths.items[0]), t);
    }
  }

  /** Workers move work; only a cancelled AUTH task is dropped. */
  lemma WorkKeepsFlight(h: Shared, normals: nat, cancelled: set<nat>, i: nat, w: WorkerStep, t: Ticket)
    requires WorkerEnabled(h, normals, cancelled, i, w)
    ensures Flight(h, t) == Flight(Work(h, normals, cancelled, i, w), t)
                            + if w == DropCancelled && AuthTicket(h.workers[i].task) == t then 1 else 0
  {
    match w
    case TakeRequest => TakeKeepsFlight(h, i, t);
    case TakeAuth => TakeKeepsFlight(h, i, t);
    case Push => PushKeepsFlight(h, i, t);
    case _ => InHandsUpdate(h.workers, i, Work(h, normals, cancelled, i, w).workers[i], t);
  }

  /** A response is lost only by a worker that goes on to record its key. */
  lemma WorkKeepsAwaited(conns: map<int, Conn>, pc: Pc, h: Shared, normals: nat, cancelled: set<nat>, i: nat,
                         w: WorkerStep)
    requires WorkerEnabled(h, normals, cancelled, i, w)
    requires Awaited(conns, h, pc)
    ensures Awaited(conns, Work(h, normals, cancelled, i, w), pc)
  {
    var h' := Work(h, normals, cancelled, i, w);
    forall t: Ticket | t in h'.lost && Live(conns, t.key)
      ensures t.key in h'.rejected || (pc.CloseRejected? && t.key in pc.keys) || IsRejecting(h'.workers, t.key)
    {
      if t !in h.lost {
        assert h'.workers[i] == Rejecting(t.key);
      } else if IsRejecting(h.workers, t.key) {
        var j :| 0 <= j < |h.workers| && h.workers[j] == Rejecting(t.key);
        if j != i {
          assert h'.workers[j] == Rejecting(t.key);
        }
      }
    }
  }

  lemma WorkKeepsWork(s: State, i: nat, w: WorkerStep)
    requires WorkInv(s) && HandsOk(s.shared.workers, s.conns, s.tokens)
    requires WorkerEnabled(s.shared, s.normals, s.tokens.cancelled, i, w)
    ensures WorkInv(s.(shared := Work(s.shared, s.normals, s.tokens.cancelled, i, w)))
  {
    var h' := Work(s.shared, s.normals, s.tokens.cancelled, i, w);
    forall t: Ticket
      ensures Flight(h', t) <= Flight(s.shared, t)
      ensures Live(s.conns, t.key) ==> Flight(h', t) == Flight(s.shared, t)
    {
      WorkKeepsFlight(s.shared, s.normals, s.tokens.cancelled, i, w, t);
    }
    WorkKeepsAwaited(s.conns, s.pc, s.shared, s.normals, s.tokens.cancelled, i, w);
  }

  // -------------------------------------------------------------------------
  // The Reactor
  // -------------------------------------------------------------------------

  /** A connection's record may change in anything but its generation and its debts. */
  lemma PutKeepsWork(s: State, fd: int, c: Conn, fate: Fate)
    requires WorkInv(s) && fd in s.conns
    requires c.cid == s.conns[fd].cid && c.outstanding == s.conns[fd].outstanding
    ensures WorkInv(Put(s, fd, c, fate))
  {
  }

  lemma EnvKeepsWork(s: State, e: EnvStep)
    requires WorkInv(s) && EnvEnabled(s, e)
    ensures WorkInv(Env(s, e))
  {
  }

  /** Work does not depend on where the Reactor is, outside the drain of rejections. */
  lemma MoveKeepsWork(s: State, s': State)
    requires WorkInv(s) && !s.pc.CloseRejected?
    requires s'.conns == s.conns && s'.nextId == s.nextId && s'.book.aborted == s.book.aborted
    requires s'.shared.requests.items == s.shared.requests.items && s'.shared.auths.items == s.shared.auths.items
    requires s'.shared.responses.items == s.shared.responses.items && s'.shared.workers == s.shared.workers
    requires s'.shared.lost == s.shared.lost && s'.shared.rejected == s.shared.rejected
    ensures WorkInv(s')
  {
    forall t: Ticket ensures Flight(s'.shared, t) == Flight(s.shared, t) {
    }
  }

  lemma LoopKeepsWork(s: State, l: LoopStep)
    requires WorkInv(s) && LoopEnabled(s, l)
    ensures WorkInv(Loop(s, l))
  {
    MoveKeepsWork(s, Loop(s, l));
  }

  lemma DrainKeepsWork(s: State, d: DrainStep)
    requires WorkInv(s) && DrainEnabled(s, d)
    requires s.pc.AbortAuths? || s.pc.AbortResponses? ==> s.book.aborted
    ensures WorkInv(Drain(s, d))
  {
  }

  lemma AcceptKeepsWork(s: State, fd: int, ok: bool)
    requires WorkInv(s) && s.mode == Running && fd !in s.conns
    ensures WorkInv(DoAccept(s, fd, ok))
  {
    forall t | t in s.shared.lost ensures t.key.cid < s.nextId {
      var i :| 0 <= i < |s.shared.lost| && s.shared.lost[i] == t;
      TallyMember(s.shared.lost, Itself, i);
    }
  }

  lemma RearmKeepsWork(s: State, fd: int, ok: bool)
    requires WorkInv(s) && s.pc.Rearm?
    ensures WorkInv(DoRearm(s, fd, ok))
  {
    if fd in s.conns {
      PutKeepsWork(s.(pc := Rearm(s.pc.fds - {fd})), fd, Registered(s.mode, s.conns[fd]), IfOk(ok));
    }
  }

  lemma EofKeepsWork(s: State, fd: int, ok: bool)
    requires WorkInv(s)
    ensures WorkInv(MarkEof(s, fd, ok))
  {
    if fd in s.conns {
      var c := s.conns[fd].(readEof := true);
      PutKeepsWork(s, fd, c, Shut(true));
      PutKeepsWork(s, fd, Registered(s.mode, c), IfOk(ok));
    }
  }

  lemma WriteKeepsWork(s: State, fd: int, n: nat, ok: bool)
    requires WorkInv(s) && fd in s.conns && (0 < Unsent(s.conns[fd]) ==> n <= Unsent(s.conns[fd]))
    ensures WorkInv(WriteTurn(s, fd, n, ok))
  {
    var c := if 0 < Unsent(s.conns[fd]) then Sent(s.conns[fd], n) else s.conns[fd];
    PutKeepsWork(s, fd, c, Keep);
    PutKeepsWork(s, fd, c, Shut(true));
    PutKeepsWork(s, fd, Registered(s.mode, c), IfOk(ok));
  }

  lemma CloseRejectedKeepsWork(s: State, k: Key)
    requires WorkInv(s) && s.pc.CloseRejected?
    ensures WorkInv(CloseRejectedKey(s, k))
  {
  }

  /** Settling a response takes it out of flight and off its connection's debts. */
  lemma TakeSettles(s: State, t: Ticket)
    requires s.shared.responses.items != []
    ensures Flight(s.shared, t) == Flight(Take(s).shared, t)
                                   + if ResponseTicket(s.shared.responses.items[0]) == t then 1 else 0
  {
    TallyHead(s.shared.responses.items, ResponseTicket, t);
  }

  /** The same, after the connection's record has been updated too. */
  lemma SettleKeepsWork(s: State, s1: State, fd: int, c: Conn, fate: Fate)
    requires WorkInv(s) && s.shared.responses.items != []
    requires s1.conns == s.conns && s1.shared == Take(s).shared && s1.nextId == s.nextId
    requires s1.book.aborted == s.book.aborted && s1.pc == s.pc
    requires fd in s.conns && KeyOf(fd, s.conns[fd]) == s.shared.responses.items[0].key && c.cid == s.conns[fd].cid
    requires c.outstanding == s.conns[fd].outstanding - multiset{ResponseTicket(s.shared.responses.items[0])}
    ensures WorkInv(Put(s1, fd, c, fate))
  {
    forall t: Ticket {
      TakeSettles(s, t);
    }
  }

  lemma StaleKeepsWork(s: State)
    requires WorkInv(s) && s.shared.responses.items != []
    requires !Live(s.conns, s.shared.responses.items[0].key)
    ensures WorkInv(Take(s))
  {
    forall t: Ticket {
      TakeSettles(s, t);
    }
  }

  lemma ApplyNextKeepsWork(s: State, refusal: bytes, ok: bool)
    requires WorkInv(s) && s.shared.responses.items != []
    ensures WorkInv(Apply(Take(s), s.shared.responses.items[0], true, refusal, ok))
  {
    var r := s.shared.responses.items[0];
    var s0 := Take(s);
    if !Live(s.conns, r.key) {
      StaleKeepsWork(s);
    } else {
      var ruled := Ruled(s0, r, refusal);
      var c := Settled(s.conns[r.key.fd], r, ruled, true);
      var s1 := if ruled.client.Some? then s0.(book := s0.book.(members := s0.book.members + {r.key})) else s0;
      SettleKeepsWork(s, s1, r.key.fd, c, Shut(false));
      if !Withheld(c, ruled, s0.config.outputLimit) {
        var c' := Registered(s0.mode, Appended(c, ruled, s0.config.outputLimit));
        SettleKeepsWork(s, s1, r.key.fd, c', IfOk(ok));
      }
    }
  }

  lemma LocalKeepsWork(s: State, r: Response, refusal: bytes, ok: bool)
    requires WorkInv(s)
    ensures WorkInv(Apply(s, r, false, refusal, ok))
  {
    if Live(s.conns, r.key) {
      var ruled := Ruled(s, r, refusal);
      var c := Settled(s.conns[r.key.fd], r, ruled, false);
      var s1 := if ruled.client.Some? then s.(book := s.book.(members := s.book.members + {r.key})) else s;
      PutKeepsWork(s1, r.key.fd, c, Shut(false));
      if !Withheld(c, ruled, s.config.outputLimit) {
        PutKeepsWork(s1, r.key.fd, Registered(s.mode, Appended(c, ruled, s.config.outputLimit)), IfOk(ok));
      }
    }
  }

  lemma ConnStepKeepsWork(s: State, p: ConnStep)
    requires WorkInv(s) && ConnEnabled(s, p)
    ensures WorkInv(OnConn(s, p))
  {
    match p
    case RearmOne(fd, ok) => RearmKeepsWork(s, fd, ok);
    case Accept(fd, ok) => AcceptKeepsWork(s, fd, ok);
    case Fail(fd) =>
      if fd in s.conns {
        PutKeepsWork(s, fd, s.conns[fd], Shut(false));
      }
    case HangUp(fd, ok) => EofKeepsWork(s, fd, ok);
    case Write(fd, n, ok) => WriteKeepsWork(s, fd, n, ok);
    case Eof(ok) => EofKeepsWork(s.(pc := Handling), s.pc.key.fd, ok);
    case CloseOne(k) => CloseRejectedKeepsWork(s, k);
    case SweepOne(fd) => PutKeepsWork(s, fd, s.conns[fd], Shut(true));
    case ApplyNext(refusal, ok) => ApplyNextKeepsWork(s, refusal, ok);
  }

  /** A push admits one piece of work, and its live connection owes one more answer. */
  lemma OweConserves(conns: map<int, Conn>, h: Shared, h': Shared, t: Ticket)
    requires Live(conns, t.key) && Conserved(conns, h)
    requires forall u: Ticket :: Flight(h', u) == Flight(h, u) + if u == t then 1 else 0
    ensures Conserved(Owe(conns, t), h')
  {
    forall u: Ticket | Live(Owe(conns, t), u.key)
      ensures Owe(conns, t)[u.key.fd].outstanding[u] == Flight(h', u)
    {
      assert Live(conns, u.key);
    }
  }

  lemma OweKeepsAwaited(conns: map<int, Conn>, h: Shared, h': Shared, t: Ticket, pc: Pc, pc': Pc)
    requires Live(conns, t.key) && Awaited(conns, h, pc) && !pc.CloseRejected?
    requires h'.lost == h.lost && h'.rejected == h.rejected && h'.workers == h.workers
    ensures Awaited(Owe(conns, t), h', pc')
  {
    forall u: Ticket | u in h'.lost && Live(Owe(conns, t), u.key)
      ensures u.key in h'.rejected || IsRejecting(h'.workers, u.key)
    {
      assert Live(conns, u.key);
    }
  }

  lemma OweKeepsWork(conns: map<int, Conn>, h: Shared, h': Shared, t: Ticket, nextId: nat, pc: Pc, pc': Pc)
    requires Live(conns, t.key) && Dated(conns, h, nextId) && Awaited(conns, h, pc) && !pc.CloseRejected?
    requires forall u: Ticket :: Flight(h', u) == Flight(h, u) + if u == t then 1 else 0
    requires h'.lost == h.lost && h'.rejected == h.rejected && h'.workers == h.workers
    ensures Dated(Owe(conns, t), h', nextId) && Awaited(Owe(conns, t), h', pc')
    ensures Conserved(conns, h) ==> Conserved(Owe(conns, t), h')
  {
    OweKeepsAwaited(conns, h, h', t, pc, pc');
    if Conserved(conns, h) {
      OweConserves(conns, h, h', t);
    }
  }

  lemma PushAuthKeepsWork(s: State, text: bytes)
    requires WorkInv(s) && s.pc.Admit? && s.pc.batch.auths != [] && Phased(s.mode, s.pc, s.conns)
    ensures WorkInv(PushAuth(s, text))
  {
    var task := s.pc.batch.auths[0];
    assert task in s.pc.batch.auths;
    if s.shared.auths.PushResult() == Pushed {
      var h' := s.shared.(auths := s.shared.auths.Push(task));
      forall t: Ticket ensures Flight(h', t) == Flight(s.shared, t) + if t == AuthTicket(task) then 1 else 0 {
        TallyAppend(s.shared.auths.items, task, AuthTicket, t);
      }
      OweKeepsWork(s.conns, s.shared, h', AuthTicket(task), s.nextId, s.pc, PushAuth(s, text).pc);
    }
  }

  lemma PushRequestKeepsWork(s: State, text: bytes)
    requires WorkInv(s) && s.pc.Admit? && s.pc.batch.requests != [] && Phased(s.mode, s.pc, s.conns)
    ensures WorkInv(PushRequest(s, text))
  {
    var request := s.pc.batch.requests[0].(serial := |s.book.admitted|);
    assert s.pc.batch.requests[0] in s.pc.batch.requests;
    if s.shared.requests.PushResult() == Pushed {
      var h' := s.shared.(requests := s.shared.requests.Push(request));
      forall t: Ticket ensures Flight(h', t) == Flight(s.shared, t) + if t == RequestTicket(request) then 1 else 0 {
        TallyAppend(s.shared.requests.items, request, RequestTicket, t);
      }
      OweKeepsWork(s.conns, s.shared, h', RequestTicket(request), s.nextId, s.pc, PushRequest(s, text).pc);
    }
  }

  lemma ReadKeepsWork(s: State, fd: int, chunk: bytes, eof: bool)
    requires WorkInv(s) && fd in s.conns && s.pc.Handling?
    ensures WorkInv(ReadAndDecode(s, fd, chunk, eof))
  {
    var s' := ReadAndDecode(s, fd, chunk, eof);
    MoveKeepsWork(s, s.(pc := s'.pc));
    PutKeepsWork(s.(pc := s'.pc), fd, s'.conns[fd], Keep);
  }

  lemma AbandonKeepsWork(s: State, fd: int)
    requires WorkInv(s) && !s.pc.CloseRejected?
    ensures WorkInv(Abandon(s, fd))
  {
    if fd in s.conns {
      PutKeepsWork(s.(pc := Handling), fd, s.conns[fd], Shut(false));
    }
  }

  lemma SortAuthKeepsWork(s: State, f: Frame)
    requires WorkInv(s) && s.pc.Classify? && s.pc.todo != [] && Live(s.conns, s.pc.key)
    ensures WorkInv(SortAuth(s, f))
  {
    var s' := SortAuth(s, f);
    var s1 := s.(tokens := s'.tokens, pc := s'.pc);
    MoveKeepsWork(s, s1);
    PutKeepsWork(s1, s.pc.key.fd, s'.conns[s.pc.key.fd], Keep);
  }

  lemma SortKeepsWork(s: State, now: int, text: bytes)
    requires WorkInv(s) && s.pc.Classify? && s.pc.todo != [] && Live(s.conns, s.pc.key)
    ensures WorkInv(SortTurn(s, now, text))
  {
    var f := s.pc.todo[0];
    var c := s.conns[s.pc.key.fd];
    if |f.payload| + 10 > s.pc.config.maxBody || (!c.authenticated && (f.kind != AUTH || c.pending)) {
      AbandonKeepsWork(s, s.pc.key.fd);
    } else if !c.authenticated {
      SortAuthKeepsWork(s, f);
    } else if f.kind == AUTH {
      MoveKeepsWork(s, SortTurn(s, now, text));
    } else {
      MoveKeepsWork(s, SortNormal(s, f, now, text));
    }
  }

  lemma RaiseKeepsWork(s: State)
    requires WorkInv(s) && s.pc.Credit?
    ensures WorkInv(RaiseCount(s))
  {
    var s1 := s.(pc := Admit(s.pc.key, s.pc.batch, s.pc.eof));
    MoveKeepsWork(s, s1);
    if Live(s.conns, s.pc.key) {
      PutKeepsWork(s1, s.pc.key.fd, RaiseCount(s).conns[s.pc.key.fd], Keep);
    }
  }

  lemma ReplyKeepsWork(s: State, refusal: bytes, ok: bool)
    requires WorkInv(s) && s.pc.Answer? && s.pc.batch.locals != []
    ensures WorkInv(ReplyOne(s, refusal, ok))
  {
    var rest := s.pc.batch.(locals := s.pc.batch.locals[1..]);
    LocalKeepsWork(s.(pc := Answer(s.pc.key, rest, s.pc.eof)), s.pc.batch.locals[0], refusal, ok);
  }

  lemma DecodeStepKeepsWork(s: State, d: DecodeStep)
    requires WorkInv(s) && Phased(s.mode, s.pc, s.conns) && DecodeEnabled(s, d)
    ensures WorkInv(Decoding(s, d))
  {
    match d
    case Read(fd, chunk, eof) => ReadKeepsWork(s, fd, chunk, eof);
    case Sort(now, text) => SortKeepsWork(s, now, text);
    case SortDone => AbandonKeepsWork(s, s.pc.key.fd);
    case AdmitAuth(text) => PushAuthKeepsWork(s, text);
    case AdmitRequest(text) => PushRequestKeepsWork(s, text);
    case Raise => RaiseKeepsWork(s);
    case Reply(refusal, ok) => ReplyKeepsWork(s, refusal, ok);
    case _ =>
  }
}
