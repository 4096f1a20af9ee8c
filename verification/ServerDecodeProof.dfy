/** Decoding keeps what holds of each connection: no decoded request is lost or counted twice. */
module ServerDecodeProof {
  import opened Bytes
  import opened FrameCodec
  import opened Options
  import opened Queues
  import opened RateLimit
  import opened Server
  import opened ServerSteps
  import opened ServerInvariant
  import opened ServerConnProof
  import opened Tallies

  /** The Reactor moves on with one connection, whose record may change. */
  lemma FocusKeepsConns(s: State, s': State, k: Key)
    requires ConnInv(s) && About(s.pc, k) && About(s'.pc, k) && s'.mode == s.mode
    requires forall fd :: fd in s'.conns && fd != k.fd ==> fd in s.conns && s'.conns[fd] == s.conns[fd]
    requires k.fd in s'.conns ==> ConnOk(s'.mode, s'.pc, KeyOf(k.fd, s'.conns[k.fd]), s'.conns[k.fd])
    requires Phased(s'.mode, s'.pc, s'.conns) && s'.book.finished == s.book.finished
    ensures ConnInv(s')
  {
    forall fd | fd in s'.conns ensures ConnOk(s'.mode, s'.pc, KeyOf(fd, s'.conns[fd]), s'.conns[fd]) {
      if fd != k.fd {
        assert ConnOk(s.mode, s.pc, KeyOf(fd, s.conns[fd]), s.conns[fd]);
        OtherKeeps(s.mode, s.pc, s'.pc, k, KeyOf(fd, s.conns[fd]), s.conns[fd]);
      }
    }
  }

  lemma AbandonKeepsConns(s: State, k: Key)
    requires ConnInv(s) && About(s.pc, k) && Live(s.conns, k) && s.mode != Halted
    ensures ConnInv(Abandon(s, k.fd))
  {
    FocusKeepsConns(s, Abandon(s, k.fd), k);
  }

  // -------------------------------------------------------------------------
  // Batches
  // -------------------------------------------------------------------------

  function AddAuth(b: Batch, t: AuthTask): Batch {
    b.(auths := b.auths + [t])
  }

  function AddRequest(b: Batch, r: Request): Batch {
    b.(requests := b.requests + [r])
  }

  function AddLocal(b: Batch, r: Response): Batch {
    b.(locals := b.locals + [r])
  }

  lemma AddIds(b: Batch, t: AuthTask, q: Request, r: Response, id: nat)
    ensures BatchIds(AddAuth(b, t), id) == BatchIds(b, id) + if TaskId(t) == id then 1 else 0
    ensures BatchIds(AddRequest(b, q), id) == BatchIds(b, id) + if RequestId(q) == id then 1 else 0
    ensures BatchIds(AddLocal(b, r), id) == BatchIds(b, id) + if ResponseId(r) == id then 1 else 0
  {
    TallyAppend(b.auths, t, TaskId, id);
    TallyAppend(b.requests, q, RequestId, id);
    TallyAppend(b.locals, r, ResponseId, id);
  }

  /** An item added to a batch adds its id, once. */
  lemma AddedIds(b: Batch, t: AuthTask, q: Request, r: Response)
    ensures forall id: nat :: BatchIds(AddAuth(b, t), id) == BatchIds(b, id) + if TaskId(t) == id then 1 else 0
    ensures forall id: nat :: BatchIds(AddRequest(b, q), id) == BatchIds(b, id) + if RequestId(q) == id then 1 else 0
    ensures forall id: nat :: BatchIds(AddLocal(b, r), id) == BatchIds(b, id) + if ResponseId(r) == id then 1 else 0
  {
    forall id: nat
      ensures BatchIds(AddAuth(b, t), id) == BatchIds(b, id) + if TaskId(t) == id then 1 else 0
      ensures BatchIds(AddRequest(b, q), id) == BatchIds(b, id) + if RequestId(q) == id then 1 else 0
      ensures BatchIds(AddLocal(b, r), id) == BatchIds(b, id) + if ResponseId(r) == id then 1 else 0
    {
      AddIds(b, t, q, r, id);
    }
  }

  lemma DropIds(b: Batch, id: nat)
    ensures b.auths != [] ==>
              BatchIds(b, id) == BatchIds(b.(auths := b.auths[1..]), id) + if TaskId(b.auths[0]) == id then 1 else 0
    ensures b.requests != [] ==>
              BatchIds(b, id)
              == BatchIds(b.(requests := b.requests[1..]), id) + if RequestId(b.requests[0]) == id then 1 else 0
    ensures b.locals != [] ==>
              BatchIds(b, id)
              == BatchIds(b.(locals := b.locals[1..]), id) + if ResponseId(b.locals[0]) == id then 1 else 0
  {
    if b.auths != [] {
      TallyHead(b.auths, TaskId, id);
    }
    if b.requests != [] {
      TallyHead(b.requests, RequestId, id);
    }
    if b.locals != [] {
      TallyHead(b.locals, ResponseId, id);
    }
  }

  lemma AddLocalDesk(b: Batch, r: Response)
    ensures AuthDesk(AddLocal(b, r)) == AuthDesk(b) + if r.close then 1 else 0
  {
    TallyAppend(b.locals, r, Closes, true);
  }

  lemma NoBatchIds(id: nat)
    ensures BatchIds(EMPTY, id) == 0
  {
  }

  /** Everything decoded goes on the Reactor's desk. */
  lemma ReadAccounted(k: Key, c: Conn, c': Conn, frames: seq<Frame>, config: Config, eof: bool, doomed: bool)
    requires Accounted(Handling, k, c) && c'.asked == c.asked + frames
    requires c'.applied == c.applied && c'.outstanding == c.outstanding && c'.inFlight == c.inFlight
    ensures Accounted(Classify(k, frames, config, EMPTY, eof, doomed), k, c')
  {
    var pc' := Classify(k, frames, config, EMPTY, eof, doomed);
    forall id: nat
      ensures Tally(c'.asked, FrameId, id)
              == Tally(c'.applied, FrameId, id) + c'.outstanding[Ticket(k, id, true)]
                 + c'.outstanding[Ticket(k, id, false)] + Desk(pc', k, id)
    {
      TallyConcat(c.asked, frames, FrameId, id);
      NoBatchIds(id);
      assert Desk(Handling, k, id) == 0;
    }
  }

  lemma ReadOk(mode: Mode, k: Key, c: Conn, c': Conn, frames: seq<Frame>, config: Config, eof: bool, doomed: bool)
    requires ConnOk(mode, Handling, k, c) && c' == c.(input := c'.input, asked := c.asked + frames)
    ensures ConnOk(mode, Classify(k, frames, config, EMPTY, eof, doomed), k, c')
  {
    ReadAccounted(k, c, c', frames, config, eof, doomed);
  }

  lemma ReadKeepsConns(s: State, fd: int, chunk: bytes, eof: bool)
    requires ConnInv(s) && s.pc.Handling? && CanRead(s, fd)
    ensures ConnInv(ReadAndDecode(s, fd, chunk, eof))
  {
    var c := s.conns[fd];
    var k := KeyOf(fd, c);
    var s' := ReadAndDecode(s, fd, chunk, eof);
    assert ConnOk(s.mode, s.pc, k, c);
    ReadOk(s.mode, k, c, s'.conns[fd], s'.pc.todo, s'.pc.config, eof, s'.pc.doomed);
    FocusKeepsConns(s, s', k);
  }

  // -------------------------------------------------------------------------
  // Sorting
  // -------------------------------------------------------------------------

  /** Accounts depend on the desk only through what it holds. */
  lemma DeskAccounted(pc: Pc, pc': Pc, k: Key, c: Conn, c': Conn)
    requires Accounted(pc, k, c) && !(pc.Credit? && pc.key == k) && !(pc'.Credit? && pc'.key == k)
    requires c'.asked == c.asked && c'.applied == c.applied && c'.outstanding == c.outstanding
    requires c'.inFlight == c.inFlight
    requires forall id: nat :: Desk(pc', k, id) == Desk(pc, k, id)
    ensures Accounted(pc', k, c')
  {
  }

  /** The first decoded frame leaves the list for its place in the batch. */
  lemma SortedDesk(pc: Pc, b: Batch, id: nat)
    requires pc.Classify? && pc.todo != []
    requires BatchIds(b, id) == BatchIds(pc.batch, id) + if pc.todo[0].requestId == id then 1 else 0
    ensures Desk(pc.(todo := pc.todo[1..], batch := b), pc.key, id) == Desk(pc, pc.key, id)
  {
    TallyHead(pc.todo, FrameId, id);
  }

  lemma SortedKeepsConns(s: State, s': State, b: Batch, pending: bool, cancel: Option<nat>)
    requires ConnInv(s) && s.pc.Classify? && s.pc.todo != [] && Live(s.conns, s.pc.key)
    requires s'.pc == s.pc.(todo := s.pc.todo[1..], batch := b) && s'.mode == s.mode
    requires s'.book.finished == s.book.finished && BatchOk(s.pc.key, b)
    requires forall id: nat ::
               BatchIds(b, id) == BatchIds(s.pc.batch, id) + if s.pc.todo[0].requestId == id then 1 else 0
    requires s'.conns == s.conns[s.pc.key.fd := s.conns[s.pc.key.fd].(pending := pending, cancel := cancel)]
    requires AuthTracked(b, s.pc.key, s'.conns[s.pc.key.fd])
    ensures ConnInv(s')
  {
    var k := s.pc.key;
    assert ConnOk(s.mode, s.pc, k, s.conns[k.fd]);
    SortedOk(s.mode, s.pc, b, s.conns[k.fd], s'.conns[k.fd]);
    FocusKeepsConns(s, s', k);
  }

  lemma SortedOk(mode: Mode, pc: Pc, b: Batch, c: Conn, c': Conn)
    requires pc.Classify? && pc.todo != [] && ConnOk(mode, pc, pc.key, c) && AuthTracked(b, pc.key, c')
    requires forall id: nat :: BatchIds(b, id) == BatchIds(pc.batch, id) + if pc.todo[0].requestId == id then 1 else 0
    requires c' == c.(pending := c'.pending, cancel := c'.cancel)
    ensures ConnOk(mode, pc.(todo := pc.todo[1..], batch := b), pc.key, c')
  {
    SortedAccounted(pc, b, c, c');
  }

  lemma SortedAccounted(pc: Pc, b: Batch, c: Conn, c': Conn)
    requires pc.Classify? && pc.todo != [] && Accounted(pc, pc.key, c)
    requires forall id: nat :: BatchIds(b, id) == BatchIds(pc.batch, id) + if pc.todo[0].requestId == id then 1 else 0
    requires c' == c.(pending := c'.pending, cancel := c'.cancel)
    ensures Accounted(pc.(todo := pc.todo[1..], batch := b), pc.key, c')
  {
    var pc' := pc.(todo := pc.todo[1..], batch := b);
    forall id: nat ensures Desk(pc', pc.key, id) == Desk(pc, pc.key, id) {
      SortedDesk(pc, b, id);
    }
    DeskAccounted(pc, pc', pc.key, c, c');
  }

  lemma SortAuthKeepsConns(s: State, f: Frame)
    requires ConnInv(s) && s.pc.Classify? && s.pc.todo != [] && f == s.pc.todo[0] && f.kind == AUTH
    requires Live(s.conns, s.pc.key) && !s.conns[s.pc.key.fd].authenticated && !s.conns[s.pc.key.fd].pending
    ensures ConnInv(SortAuth(s, f))
  {
    var k := s.pc.key;
    assert ConnOk(s.mode, s.pc, k, s.conns[k.fd]);
    var task := AuthTask(Request(k, f, 0), s.tokens.next);
    AddedIds(s.pc.batch, task, Request(k, f, 0), Local(k, f, ERROR_RESP, [], false));
    PendingTracked(s.pc.batch, k, s.conns[k.fd], task);
    SortedKeepsConns(s, SortAuth(s, f), AddAuth(s.pc.batch, task), true, Some(task.token));
  }

  lemma PendingTracked(b: Batch, k: Key, c: Conn, task: AuthTask)
    requires AuthTracked(b, k, c) && !c.authenticated && !c.pending
    ensures AuthTracked(AddAuth(b, task), k, c.(pending := true, cancel := Some(task.token)))
  {
  }

  lemma LocalAddedTracked(b: Batch, k: Key, c: Conn, r: Response)
    requires AuthTracked(b, k, c) && !r.close && BatchOk(k, b)
    requires r.key == k && r.client.None? && !r.skipWrite && r.frame.kind != AUTH_RESP
    ensures AuthTracked(AddLocal(b, r), k, c) && BatchOk(k, AddLocal(b, r))
  {
    AddLocalDesk(b, r);
  }

  lemma SortLocalKeepsConns(s: State, s': State, r: Response)
    requires ConnInv(s) && s.pc.Classify? && s.pc.todo != [] && Live(s.conns, s.pc.key)
    requires s.conns[s.pc.key.fd].authenticated
    requires r.key == s.pc.key && r.client.None? && !r.skipWrite && !r.close && r.frame.kind != AUTH_RESP
    requires r.frame.requestId == s.pc.todo[0].requestId
    requires s'.pc == SortLocal(s, r).pc && s'.conns == s.conns && s'.mode == s.mode
    requires s'.book.finished == s.book.finished
    ensures ConnInv(s')
  {
    var k := s.pc.key;
    var c := s.conns[k.fd];
    assert ConnOk(s.mode, s.pc, k, c);
    AddedIds(s.pc.batch, AuthTask(Request(k, r.frame, 0), 0), Request(k, r.frame, 0), r);
    LocalAddedTracked(s.pc.batch, k, c, r);
    assert s'.conns == s.conns[k.fd := c.(pending := c.pending, cancel := c.cancel)];
    SortedKeepsConns(s, s', AddLocal(s.pc.batch, r), c.pending, c.cancel);
  }

  lemma SortRequestKeepsConns(s: State, s': State, f: Frame)
    requires ConnInv(s) && s.pc.Classify? && s.pc.todo != [] && Live(s.conns, s.pc.key)
    requires s.conns[s.pc.key.fd].authenticated && f == s.pc.todo[0] && f.kind != AUTH
    requires s'.pc == SortRequest(s, f).pc && s'.conns == s.conns && s'.mode == s.mode
    requires s'.book.finished == s.book.finished
    ensures ConnInv(s')
  {
    var k := s.pc.key;
    var c := s.conns[k.fd];
    assert ConnOk(s.mode, s.pc, k, c);
    var q := Request(k, f, 0);
    AddedIds(s.pc.batch, AuthTask(q, 0), q, Local(k, f, ERROR_RESP, [], false));
    assert s'.conns == s.conns[k.fd := c.(pending := c.pending, cancel := c.cancel)];
    SortedKeepsConns(s, s', AddRequest(s.pc.batch, q), c.pending, c.cancel);
  }

  lemma SortNormalKeepsConns(s: State, f: Frame, now: int, text: bytes)
    requires ConnInv(s) && s.pc.Classify? && s.pc.todo != [] && Live(s.conns, s.pc.key)
    requires s.conns[s.pc.key.fd].authenticated && f == s.pc.todo[0] && f.kind != AUTH
    ensures ConnInv(SortNormal(s, f, now, text))
  {
    var s' := SortNormal(s, f, now, text);
    if Admits(WindowOf(s.windows, s.conns[s.pc.key.fd].client), now, s.pc.config.maxRequests) {
      SortRequestKeepsConns(s, s', f);
    } else {
      SortLocalKeepsConns(s, s', Local(s.pc.key, f, ERROR_RESP, text, false));
    }
  }

  lemma SortKeepsConns(s: State, now: int, text: bytes)
    requires ConnInv(s) && s.pc.Classify? && s.pc.todo != [] && Live(s.conns, s.pc.key)
    ensures ConnInv(SortTurn(s, now, text))
  {
    var k, f := s.pc.key, s.pc.todo[0];
    var c := s.conns[k.fd];
    if |f.payload| + 10 > s.pc.config.maxBody || (!c.authenticated && (f.kind != AUTH || c.pending)) {
      AbandonKeepsConns(s, k);
    } else if !c.authenticated {
      SortAuthKeepsConns(s, f);
    } else if f.kind == AUTH {
      SortLocalKeepsConns(s, SortTurn(s, now, text), Local(k, f, ERROR_RESP, text, false));
    } else {
      SortNormalKeepsConns(s, f, now, text);
    }
  }

  lemma SortDoneKeepsConns(s: State)
    requires ConnInv(s) && s.pc.Classify? && s.pc.todo == []
    ensures ConnInv(s.(pc := Admit(s.pc.key, s.pc.batch, s.pc.eof)))
  {
    var k := s.pc.key;
    var s' := s.(pc := Admit(k, s.pc.batch, s.pc.eof));
    assert ConnOk(s.mode, s.pc, k, s.conns[k.fd]);
    forall id: nat ensures Desk(s'.pc, k, id) == Desk(s.pc, k, id) {
    }
    DeskAccounted(s.pc, s'.pc, k, s.conns[k.fd], s.conns[k.fd]);
    FocusKeepsConns(s, s', k);
  }

  // -------------------------------------------------------------------------
  // Admitting
  // -------------------------------------------------------------------------

  /** A push moves one request from the desk to the connection's debts, ahead of the counter. */
  lemma OweAccounted(pc: Pc, pc': Pc, k: Key, c: Conn, c': Conn, t: Ticket)
    requires Accounted(pc, k, c) && pc.Admit? && pc'.Credit? && pc'.key == k && t.key == k
    requires c' == c.(outstanding := c.outstanding + multiset{t})
    requires forall id: nat :: Desk(pc, k, id) == Desk(pc', k, id) + if id == t.id then 1 else 0
    ensures Accounted(pc', k, c')
  {
  }

  lemma OweTracked(b: Batch, b': Batch, k: Key, c: Conn, c': Conn, t: Ticket)
    requires AuthTracked(b, k, c) && t.key == k && c' == c.(outstanding := c.outstanding + multiset{t})
    requires t.auth <==> !c.authenticated
    requires AuthDesk(b') == AuthDesk(b) - (if t.auth then 1 else 0) && (t.auth ==> b'.requests == b.requests)
    ensures AuthTracked(b', k, c')
  {
    forall u | u in c'.outstanding ensures u.key == k && (u.auth <==> !c'.authenticated) {
      assert u in c.outstanding || u == t;
    }
  }

  /** The batch after a push of its first item: sent, or answered locally with `r`. */
  ghost predicate Pops(b: Batch, b': Batch, t: Ticket, pushed: bool) {
    forall id: nat :: BatchIds(b, id) == BatchIds(b', id) + if pushed && id == t.id then 1 else 0
  }

  lemma PopAuth(b: Batch, r: Response)
    requires b.auths != [] && ResponseId(r) == TaskId(b.auths[0]) && r.close
    ensures var rest := b.(auths := b.auths[1..]);
            && Pops(b, rest, AuthTicket(b.auths[0]), true) && AuthDesk(rest) == AuthDesk(b) - 1
            && Pops(b, AddLocal(rest, r), AuthTicket(b.auths[0]), false) && AuthDesk(AddLocal(rest, r)) == AuthDesk(b)
  {
    var rest := b.(auths := b.auths[1..]);
    forall id: nat
      ensures BatchIds(b, id) == BatchIds(rest, id) + if id == TaskId(b.auths[0]) then 1 else 0
      ensures BatchIds(b, id) == BatchIds(AddLocal(rest, r), id)
    {
      DropIds(b, id);
      AddIds(rest, b.auths[0], b.auths[0].request, r, id);
    }
    AddLocalDesk(rest, r);
  }

  lemma PopRequest(b: Batch, r: Response)
    requires b.requests != [] && ResponseId(r) == RequestId(b.requests[0]) && !r.close
    ensures var rest := b.(requests := b.requests[1..]);
            && Pops(b, rest, RequestTicket(b.requests[0]), true) && AuthDesk(rest) == AuthDesk(b)
            && Pops(b, AddLocal(rest, r), RequestTicket(b.requests[0]), false)
            && AuthDesk(AddLocal(rest, r)) == AuthDesk(b)
  {
    var rest := b.(requests := b.requests[1..]);
    forall id: nat
      ensures BatchIds(b, id) == BatchIds(rest, id) + if id == RequestId(b.requests[0]) then 1 else 0
      ensures BatchIds(b, id) == BatchIds(AddLocal(rest, r), id)
    {
      DropIds(b, id);
      AddIds(rest, AuthTask(b.requests[0], 0), b.requests[0], r, id);
    }
    AddLocalDesk(rest, r);
  }

  lemma PushedKeepsConns(s: State, s': State, t: Ticket)
    requires ConnInv(s) && s.pc.Admit? && t.key == s.pc.key && (t.auth <==> !s.conns[t.key.fd].authenticated)
    requires s'.pc.Credit? && s'.pc.key == s.pc.key && s'.conns == Owe(s.conns, t) && s'.mode == s.mode
    requires s'.book.finished == s.book.finished && BatchOk(s.pc.key, s'.pc.batch)
    requires Pops(s.pc.batch, s'.pc.batch, t, true)
    requires AuthDesk(s'.pc.batch) == AuthDesk(s.pc.batch) - (if t.auth then 1 else 0)
    requires t.auth ==> s'.pc.batch.requests == s.pc.batch.requests
    ensures ConnInv(s')
  {
    var k := s.pc.key;
    var c := s.conns[k.fd];
    assert ConnOk(s.mode, s.pc, k, c);
    PushedOk(s.mode, s.pc, s'.pc, c, s'.conns[k.fd], t);
    FocusKeepsConns(s, s', k);
  }

  lemma PushedOk(mode: Mode, pc: Pc, pc': Pc, c: Conn, c': Conn, t: Ticket)
    requires pc.Admit? && pc'.Credit? && pc'.key == pc.key == t.key && (t.auth <==> !c.authenticated)
    requires ConnOk(mode, pc, pc.key, c) && c' == c.(outstanding := c.outstanding + multiset{t})
    requires Pops(pc.batch, pc'.batch, t, true)
    requires AuthDesk(pc'.batch) == AuthDesk(pc.batch) - (if t.auth then 1 else 0)
    requires t.auth ==> pc'.batch.requests == pc.batch.requests
    ensures ConnOk(mode, pc', pc.key, c')
  {
    OweAccounted(pc, pc', pc.key, c, c', t);
    OweTracked(pc.batch, pc'.batch, pc.key, c, c', t);
  }

  lemma RefusedKeepsConns(s: State, s': State, t: Ticket)
    requires ConnInv(s) && s.pc.Admit? && s'.pc.Admit?
    requires s' == s.(pc := Admit(s.pc.key, s'.pc.batch, s.pc.eof))
    requires BatchOk(s.pc.key, s'.pc.batch) && Pops(s.pc.batch, s'.pc.batch, t, false)
    requires AuthDesk(s'.pc.batch) == AuthDesk(s.pc.batch)
    requires s.pc.batch.requests == [] ==> s'.pc.batch.requests == []
    ensures ConnInv(s')
  {
    var k := s.pc.key;
    var c := s.conns[k.fd];
    assert ConnOk(s.mode, s.pc, k, c);
    DeskAccounted(s.pc, s'.pc, k, c, c);
    FocusKeepsConns(s, s', k);
  }

  lemma PushAuthKeepsConns(s: State, text: bytes)
    requires ConnInv(s) && s.pc.Admit? && s.pc.batch.auths != []
    ensures ConnInv(PushAuth(s, text))
  {
    var task := s.pc.batch.auths[0];
    assert task in s.pc.batch.auths;
    assert ConnOk(s.mode, s.pc, s.pc.key, s.conns[s.pc.key.fd]);
    PopAuth(s.pc.batch, Local(task.request.key, task.request.frame, AUTH_RESP, text, true));
    if s.shared.auths.PushResult() == Pushed {
      PushedKeepsConns(s, PushAuth(s, text), AuthTicket(task));
    } else {
      RefusedKeepsConns(s, PushAuth(s, text), AuthTicket(task));
    }
  }

  lemma PushRequestKeepsConns(s: State, text: bytes)
    requires ConnInv(s) && s.pc.Admit? && s.pc.batch.auths == [] && s.pc.batch.requests != []
    ensures ConnInv(PushRequest(s, text))
  {
    var request := s.pc.batch.requests[0];
    assert request in s.pc.batch.requests;
    assert ConnOk(s.mode, s.pc, s.pc.key, s.conns[s.pc.key.fd]);
    PopRequest(s.pc.batch, Local(request.key, request.frame, ERROR_RESP, text, false));
    if s.shared.requests.PushResult() == Pushed {
      PushedKeepsConns(s, PushRequest(s, text), RequestTicket(request));
    } else {
      RefusedKeepsConns(s, PushRequest(s, text), RequestTicket(request));
    }
  }

  lemma RaiseKeepsConns(s: State)
    requires ConnInv(s) && s.pc.Credit?
    ensures ConnInv(RaiseCount(s))
  {
    var k := s.pc.key;
    var s' := RaiseCount(s);
    assert ConnOk(s.mode, s.pc, k, s.conns[k.fd]);
    forall id: nat ensures Desk(s'.pc, k, id) == Desk(s.pc, k, id) {
    }
    assert Accounted(s'.pc, k, s'.conns[k.fd]);
    FocusKeepsConns(s, s', k);
  }

  // -------------------------------------------------------------------------
  // Answering
  // -------------------------------------------------------------------------

  /** From the pushes to the local answers, or past them. */
  lemma SameDeskKeepsConns(s: State, pc': Pc)
    requires ConnInv(s) && (s.pc.Admit? || s.pc.Answer?) && About(pc', s.pc.key) && !pc'.Credit?
    requires BatchOf(pc', s.pc.key) == s.pc.batch
    requires forall id: nat :: Desk(pc', s.pc.key, id) == Desk(s.pc, s.pc.key, id)
    requires Phased(s.mode, pc', s.conns)
    ensures ConnInv(s.(pc := pc'))
  {
    var k := s.pc.key;
    if Live(s.conns, k) {
      assert ConnOk(s.mode, s.pc, k, s.conns[k.fd]);
      DeskAccounted(s.pc, pc', k, s.conns[k.fd], s.conns[k.fd]);
    }
    FocusKeepsConns(s, s.(pc := pc'), k);
  }

  /** A local answer moves one request from the desk to answered. */
  lemma LocalAccounted(pc: Pc, pc': Pc, k: Key, c: Conn, c': Conn, f: Frame)
    requires Accounted(pc, k, c) && pc.Answer? && pc'.Answer? && pc.key == pc'.key == k
    requires c'.asked == c.asked && c'.applied == c.applied + [f]
    requires c'.outstanding == c.outstanding && c'.inFlight == c.inFlight
    requires forall id: nat :: Desk(pc, k, id) == Desk(pc', k, id) + if f.requestId == id then 1 else 0
    ensures Accounted(pc', k, c')
  {
    forall id: nat
      ensures Tally(c'.asked, FrameId, id)
              == Tally(c'.applied, FrameId, id) + c'.outstanding[Ticket(k, id, true)]
                 + c'.outstanding[Ticket(k, id, false)] + Desk(pc', k, id)
    {
      TallyAppend(c.applied, f, FrameId, id);
    }
  }

  lemma LocalTracked(b: Batch, k: Key, c: Conn, r: Response, limit: nat)
    requires AuthTracked(b, k, c) && b.locals != [] && r == b.locals[0] && b.auths == []
    requires r.client.None? && (r.close <==> r.frame.kind == AUTH_RESP) && c.offset <= |c.output|
    ensures AuthTracked(b.(locals := b.locals[1..]), k, Appended(Settled(c, r, r, false), r, limit))
  {
    TallyHead(b.locals, Closes, true);
    var c' := Appended(Settled(c, r, r, false), r, limit);
    assert c'.outstanding == c.outstanding;
  }

  lemma LocalApplied(s: State, pc': Pc, r: Response)
    requires ConnInv(s) && s.pc.Answer? && s.pc.batch.locals != [] && r == s.pc.batch.locals[0]
    requires pc' == Answer(s.pc.key, s.pc.batch.(locals := s.pc.batch.locals[1..]), s.pc.eof)
    requires Live(s.conns, r.key) && !Withheld(Settled(s.conns[r.key.fd], r, r, false), r, s.config.outputLimit)
    ensures ConnOk(s.mode, pc', r.key,
                   Registered(s.mode, Appended(Settled(s.conns[r.key.fd], r, r, false), r, s.config.outputLimit)))
  {
    assert r in s.pc.batch.locals;
    assert ConnOk(s.mode, s.pc, r.key, s.conns[r.key.fd]);
    LocalOk(s.mode, s.pc, pc', s.conns[r.key.fd], r, s.config.outputLimit);
  }

  lemma LocalOk(mode: Mode, pc: Pc, pc': Pc, c: Conn, r: Response, limit: nat)
    requires pc.Answer? && pc.batch.locals != [] && r == pc.batch.locals[0] && r.key == pc.key && pc.batch.auths == []
    requires pc' == Answer(pc.key, pc.batch.(locals := pc.batch.locals[1..]), pc.eof)
    requires ConnOk(mode, pc, r.key, c) && r.client.None? && (r.close <==> r.frame.kind == AUTH_RESP)
    requires !Withheld(Settled(c, r, r, false), r, limit)
    ensures ConnOk(mode, pc', r.key, Registered(mode, Appended(Settled(c, r, r, false), r, limit)))
  {
    var c' := Appended(Settled(c, r, r, false), r, limit);
    forall id: nat ensures Desk(pc, r.key, id) == Desk(pc', r.key, id) + if r.frame.requestId == id then 1 else 0 {
      DropIds(pc.batch, id);
    }
    LocalAccounted(pc, pc', r.key, c, c', r.frame);
    LocalTracked(pc.batch, r.key, c, r, limit);
    AppendedStreams(Settled(c, r, r, false), r, limit);
    RegisteredOk(mode, pc', r.key, c');
  }

  /** A local answer names no client, so it is applied as it is. */
  lemma LocalApply(s: State, r: Response, refusal: bytes, ok: bool)
    requires r.client.None?
    ensures var s' := Apply(s, r, false, refusal, ok);
            && s'.mode == s.mode && s'.pc == s.pc && s'.book.finished == s.book.finished
            && (!Live(s.conns, r.key) ==> s' == s)
            && (Live(s.conns, r.key) ==>
                  var c := Settled(s.conns[r.key.fd], r, r, false);
                  || s'.conns == s.conns - {r.key.fd}
                  || (!Withheld(c, r, s.config.outputLimit)
                      && s'.conns
                         == s.conns[r.key.fd := Registered(s.mode, Appended(c, r, s.config.outputLimit))]))
  {
  }

  lemma ReplyKeepsConns(s: State, refusal: bytes, ok: bool)
    requires ConnInv(s) && s.pc.Answer? && s.pc.batch.locals != []
    ensures ConnInv(ReplyOne(s, refusal, ok))
  {
    var r := s.pc.batch.locals[0];
    assert r in s.pc.batch.locals;
    var s1 := s.(pc := Answer(s.pc.key, s.pc.batch.(locals := s.pc.batch.locals[1..]), s.pc.eof));
    LocalApply(s1, r, refusal, ok);
    ReplyMove(s, ReplyOne(s, refusal, ok), r);
  }

  lemma ReplyMove(s: State, s': State, r: Response)
    requires ConnInv(s) && s.pc.Answer? && s.pc.batch.locals != [] && r == s.pc.batch.locals[0] && r.key == s.pc.key
    requires s'.pc == Answer(s.pc.key, s.pc.batch.(locals := s.pc.batch.locals[1..]), s.pc.eof)
    requires s'.mode == s.mode && s'.book.finished == s.book.finished
    requires if !Live(s.conns, r.key) then s'.conns == s.conns
             else
               var c := Settled(s.conns[r.key.fd], r, r, false);
               || s'.conns == s.conns - {r.key.fd}
               || (!Withheld(c, r, s.config.outputLimit)
                   && s'.conns == s.conns[r.key.fd := Registered(s.mode, Appended(c, r, s.config.outputLimit))])
    ensures ConnInv(s')
  {
    RestIsOk(s.pc.key, s.pc.batch);
    if s.pc.key.fd in s'.conns {
      assert Live(s.conns, s.pc.key);
      ReplyStays(s, s', r);
      assert KeyOf(r.key.fd, s'.conns[r.key.fd]) == r.key;
    }
    FocusKeepsConns(s, s', s.pc.key);
  }

  lemma RestIsOk(k: Key, b: Batch)
    requires BatchOk(k, b) && b.locals != []
    ensures BatchOk(k, b.(locals := b.locals[1..]))
  {
  }

  lemma ReplyStays(s: State, s': State, r: Response)
    requires ConnInv(s) && s.pc.Answer? && s.pc.batch.locals != [] && r == s.pc.batch.locals[0] && r.key == s.pc.key
    requires s'.pc == Answer(s.pc.key, s.pc.batch.(locals := s.pc.batch.locals[1..]), s.pc.eof) && s'.mode == s.mode
    requires Live(s.conns, r.key)
    requires var c := Settled(s.conns[r.key.fd], r, r, false);
             && !Withheld(c, r, s.config.outputLimit)
             && s'.conns == s.conns[r.key.fd := Registered(s.mode, Appended(c, r, s.config.outputLimit))]
    ensures ConnOk(s'.mode, s'.pc, r.key, s'.conns[r.key.fd])
  {
    LocalApplied(s, s'.pc, r);
  }

  lemma DecodeStepKeepsConns(s: State, d: DecodeStep)
    requires ConnInv(s) && DecodeEnabled(s, d)
    ensures ConnInv(Decoding(s, d))
  {
    match d
    case Read(fd, chunk, eof) => ReadKeepsConns(s, fd, chunk, eof);
    case Sort(now, text) => SortKeepsConns(s, now, text);
    case SortDone =>
      if s.pc.doomed {
        AbandonKeepsConns(s, s.pc.key);
      } else {
        SortDoneKeepsConns(s);
      }
    case AdmitAuth(text) => PushAuthKeepsConns(s, text);
    case AdmitRequest(text) => PushRequestKeepsConns(s, text);
    case Raise => RaiseKeepsConns(s);
    case AdmitDone => SameDeskKeepsConns(s, Answer(s.pc.key, s.pc.batch, s.pc.eof));
    case Reply(refusal, ok) => ReplyKeepsConns(s, refusal, ok);
    case ReplyDone => SameDeskKeepsConns(s, if s.pc.eof then PeerEof(s.pc.key) else Handling);
  }
}
