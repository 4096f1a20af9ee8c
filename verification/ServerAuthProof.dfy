/** Every step keeps the authentication protocol and the cancellation flags. */
module ServerAuthProof {
  import opened Bytes
  import opened FrameCodec
  import opened Queues
  import opened Server
  import opened ServerSteps
  import opened ServerInvariant
  import opened ServerWorkProof
  import opened Tallies

  // -------------------------------------------------------------------------
  // Workers
  // -------------------------------------------------------------------------

  lemma WorkKeepsItems(h: Shared, normals: nat, cancelled: set<nat>, members: set<Key>, i: nat, w: WorkerStep)
    requires ItemsOk(h, normals, members) && WorkerEnabled(h, normals, cancelled, i, w)
    ensures ItemsOk(Work(h, normals, cancelled, i, w), normals, members)
  {
    assert WorkerOk(h.workers[i], i < normals, members);
  }

  lemma WorkKeepsTasks(h: Shared, normals: nat, cancelled: set<nat>, i: nat, w: WorkerStep, conns: map<int, Conn>,
                       tokens: Tokens)
    requires WorkerEnabled(h, normals, cancelled, i, w)
    requires TasksOk(h.auths.items, conns, tokens) && HandsOk(h.workers, conns, tokens)
    ensures var h' := Work(h, normals, cancelled, i, w);
            TasksOk(h'.auths.items, conns, tokens) && HandsOk(h'.workers, conns, tokens)
  {
  }

  lemma WorkKeepsAuth(s: State, i: nat, w: WorkerStep)
    requires AuthInv(s) && WorkerEnabled(s.shared, s.normals, s.tokens.cancelled, i, w)
    ensures AuthInv(s.(shared := Work(s.shared, s.normals, s.tokens.cancelled, i, w)))
  {
    WorkKeepsItems(s.shared, s.normals, s.tokens.cancelled, s.book.members, i, w);
    WorkKeepsTasks(s.shared, s.normals, s.tokens.cancelled, i, w, s.conns, s.tokens);
  }

  // -------------------------------------------------------------------------
  // Tasks and what is in flight
  // -------------------------------------------------------------------------

  /** No AUTH task of `k` is queued or held. */
  ghost predicate NoTask(h: Shared, k: Key) {
    && (forall t :: t in h.auths.items ==> t.request.key != k)
    && (forall i :: 0 <= i < |h.workers| && h.workers[i].AuthBusy? ==> h.workers[i].task.request.key != k)
  }

  lemma NoFlightNoTask(h: Shared, k: Key)
    requires forall id: nat :: Flight(h, Ticket(k, id, true)) == 0
    ensures NoTask(h, k)
  {
    forall t | t in h.auths.items ensures t.request.key != k {
      var i :| 0 <= i < |h.auths.items| && h.auths.items[i] == t;
      TallyMember(h.auths.items, AuthTicket, i);
      assert AuthTicket(t) == Ticket(t.request.key, t.request.frame.requestId, true);
    }
    forall i | 0 <= i < |h.workers| && h.workers[i].AuthBusy? ensures h.workers[i].task.request.key != k {
      var t := h.workers[i].task;
      HeldInHands(h.workers, i, AuthTicket(t));
      assert AuthTicket(t) == Ticket(t.request.key, t.request.frame.requestId, true);
    }
  }

  /** A connection with no AUTH debt has no AUTH task anywhere. */
  lemma NoDebtNoTask(conns: map<int, Conn>, h: Shared, k: Key)
    requires Live(conns, k) && Conserved(conns, h)
    requires forall id: nat :: conns[k.fd].outstanding[Ticket(k, id, true)] == 0
    ensures NoTask(h, k)
  {
    forall id: nat ensures Flight(h, Ticket(k, id, true)) == 0 {
      assert Live(conns, Ticket(k, id, true).key);
    }
    NoFlightNoTask(h, k);
  }

  // -------------------------------------------------------------------------
  // One connection changes or goes
  // -------------------------------------------------------------------------

  lemma KeepTask(t: AuthTask, conns: map<int, Conn>, tokens: Tokens, fd: int, c: Conn)
    requires TaskOk(t, conns, tokens) && fd in conns && c.cid == conns[fd].cid
    requires c.cancel == conns[fd].cancel || t.request.key != KeyOf(fd, c)
    ensures TaskOk(t, conns[fd := c], tokens)
  {
  }

  lemma ShutTask(t: AuthTask, conns: map<int, Conn>, tokens: Tokens, fd: int, c: Conn)
    requires TaskOk(t, conns, tokens) && fd in conns && c.cid == conns[fd].cid
    requires c.cancel == conns[fd].cancel || (c.cancel.None? && t.request.key != KeyOf(fd, c))
    requires c.cancel.Some? ==> c.cancel.value in tokens.owner && tokens.owner[c.cancel.value] == KeyOf(fd, c)
    ensures TaskOk(t, conns - {fd}, Cancel(tokens, c.cancel))
  {
  }

  ghost predicate AuthPut(s: State, fd: int, c: Conn) {
    && fd in s.conns && c.cid == s.conns[fd].cid
    && (c.authenticated ==> KeyOf(fd, c) in s.book.members)
    && (c.cancel == s.conns[fd].cancel
        || (c.cancel.None? && NoTask(s.shared, KeyOf(fd, c)) && TasksOf(s.pc) == []))
  }

  lemma KeepKeepsAuth(s: State, fd: int, c: Conn)
    requires AuthInv(s) && AuthPut(s, fd, c)
    ensures AuthInv(Put(s, fd, c, Keep))
  {
    var s' := Put(s, fd, c, Keep);
    forall t | t in s.shared.auths.items ensures TaskOk(t, s'.conns, s'.tokens) {
      KeepTask(t, s.conns, s.tokens, fd, c);
    }
    forall i | 0 <= i < |s.shared.workers| && s.shared.workers[i].AuthBusy?
      ensures TaskOk(s.shared.workers[i].task, s'.conns, s'.tokens)
    {
      KeepTask(s.shared.workers[i].task, s.conns, s.tokens, fd, c);
    }
    forall t | t in TasksOf(s.pc) ensures TaskOk(t, s'.conns, s'.tokens) {
      KeepTask(t, s.conns, s.tokens, fd, c);
    }
  }

  lemma ShutKeepsTokens(conns: map<int, Conn>, tokens: Tokens, nextId: nat, fd: int, c: Conn)
    requires TokensOk(conns, tokens, nextId) && fd in conns && c.cid == conns[fd].cid
    requires c.cancel.Some? ==> c.cancel == conns[fd].cancel
    ensures TokensOk(conns - {fd}, Cancel(tokens, c.cancel), nextId)
  {
  }

  lemma ShutKeepsAuth(s: State, fd: int, c: Conn, clean: bool)
    requires AuthInv(s) && AuthPut(s, fd, c)
    ensures AuthInv(Put(s, fd, c, Shut(clean)))
  {
    var s' := Put(s, fd, c, Shut(clean));
    forall t | t in s.shared.auths.items ensures TaskOk(t, s'.conns, s'.tokens) {
      ShutTask(t, s.conns, s.tokens, fd, c);
    }
    forall i | 0 <= i < |s.shared.workers| && s.shared.workers[i].AuthBusy?
      ensures TaskOk(s.shared.workers[i].task, s'.conns, s'.tokens)
    {
      ShutTask(s.shared.workers[i].task, s.conns, s.tokens, fd, c);
    }
    forall t | t in TasksOf(s.pc) ensures TaskOk(t, s'.conns, s'.tokens) {
      ShutTask(t, s.conns, s.tokens, fd, c);
    }
    ShutKeepsTokens(s.conns, s.tokens, s.nextId, fd, c);
  }

  lemma PutKeepsAuth(s: State, fd: int, c: Conn, fate: Fate)
    requires AuthInv(s) && AuthPut(s, fd, c)
    ensures AuthInv(Put(s, fd, c, fate))
  {
    if fate.Keep? {
      KeepKeepsAuth(s, fd, c);
    } else {
      ShutKeepsAuth(s, fd, c, fate.clean);
    }
  }

  // -------------------------------------------------------------------------
  // The Reactor
  // -------------------------------------------------------------------------

  lemma MoveKeepsAuth(s: State, s': State)
    requires AuthInv(s) && s'.conns == s.conns && s'.tokens == s.tokens && s'.nextId == s.nextId
    requires s'.normals == s.normals && s'.book.members == s.book.members && s'.shared.workers == s.shared.workers
    requires s'.shared.requests.items == s.shared.requests.items || s'.shared.requests.items == []
    requires s'.shared.auths.items == s.shared.auths.items || s'.shared.auths.items == []
    requires s'.shared.responses.items == s.shared.responses.items || s'.shared.responses.items == []
    requires TasksOf(s'.pc) == TasksOf(s.pc) || TasksOf(s'.pc) == []
    ensures AuthInv(s')
  {
  }

  lemma EnvKeepsAuth(s: State, e: EnvStep)
    requires AuthInv(s) && EnvEnabled(s, e)
    ensures AuthInv(Env(s, e))
  {
    MoveKeepsAuth(s, Env(s, e));
  }

  lemma LoopKeepsAuth(s: State, l: LoopStep)
    requires AuthInv(s) && LoopEnabled(s, l)
    ensures AuthInv(Loop(s, l))
  {
    MoveKeepsAuth(s, Loop(s, l));
  }

  lemma DrainKeepsAuth(s: State, d: DrainStep)
    requires AuthInv(s) && DrainEnabled(s, d)
    ensures AuthInv(Drain(s, d))
  {
    MoveKeepsAuth(s, Drain(s, d));
  }

  lemma AcceptTask(t: AuthTask, conns: map<int, Conn>, tokens: Tokens, nextId: nat, fd: int, c: Conn)
    requires TaskOk(t, conns, tokens) && TokensOk(conns, tokens, nextId) && fd !in conns && c.cid == nextId
    ensures TaskOk(t, conns[fd := c], tokens)
  {
  }

  /** A fresh generation has no task and no flag. */
  lemma AcceptKeepsAuth(s: State, fd: int, ok: bool)
    requires AuthInv(s) && fd !in s.conns && s.pc.Handling?
    ensures AuthInv(DoAccept(s, fd, ok))
  {
    var s' := DoAccept(s, fd, ok);
    if ok {
      var c := Fresh(s.nextId, s.mode);
      forall t | t in s.shared.auths.items ensures TaskOk(t, s'.conns, s'.tokens) {
        AcceptTask(t, s.conns, s.tokens, s.nextId, fd, c);
      }
      forall i | 0 <= i < |s.shared.workers| && s.shared.workers[i].AuthBusy?
        ensures TaskOk(s.shared.workers[i].task, s'.conns, s'.tokens)
      {
        AcceptTask(s.shared.workers[i].task, s.conns, s.tokens, s.nextId, fd, c);
      }
    }
  }

  lemma SameAuth(s: State, fd: int, c: Conn)
    requires AuthInv(s) && fd in s.conns && c.cid == s.conns[fd].cid
    requires c.authenticated == s.conns[fd].authenticated && c.cancel == s.conns[fd].cancel
    ensures AuthPut(s, fd, c)
  {
  }

  lemma RearmKeepsAuth(s: State, fd: int, ok: bool)
    requires AuthInv(s) && s.pc.Rearm?
    ensures AuthInv(DoRearm(s, fd, ok))
  {
    var s1 := s.(pc := Rearm(s.pc.fds - {fd}));
    MoveKeepsAuth(s, s1);
    if fd in s.conns {
      var c := Registered(s.mode, s.conns[fd]);
      SameAuth(s1, fd, c);
      PutKeepsAuth(s1, fd, c, IfOk(ok));
    }
  }

  lemma EofKeepsAuth(s: State, fd: int, ok: bool)
    requires AuthInv(s)
    ensures AuthInv(MarkEof(s, fd, ok))
  {
    if fd in s.conns {
      var c := s.conns[fd].(readEof := true);
      SameAuth(s, fd, c);
      SameAuth(s, fd, Registered(s.mode, c));
      PutKeepsAuth(s, fd, c, Shut(true));
      PutKeepsAuth(s, fd, Registered(s.mode, c), IfOk(ok));
    }
  }

  lemma WriteKeepsAuth(s: State, fd: int, n: nat, ok: bool)
    requires AuthInv(s) && fd in s.conns && (0 < Unsent(s.conns[fd]) ==> n <= Unsent(s.conns[fd]))
    ensures AuthInv(WriteTurn(s, fd, n, ok))
  {
    var c := if 0 < Unsent(s.conns[fd]) then Sent(s.conns[fd], n) else s.conns[fd];
    SameAuth(s, fd, c);
    SameAuth(s, fd, Registered(s.mode, c));
    PutKeepsAuth(s, fd, c, Keep);
    PutKeepsAuth(s, fd, c, Shut(true));
    PutKeepsAuth(s, fd, Registered(s.mode, c), IfOk(ok));
  }

  lemma CloseKeepsAuth(s: State, fd: int, clean: bool)
    requires AuthInv(s) && fd in s.conns
    ensures AuthInv(Put(s, fd, s.conns[fd], Shut(clean)))
  {
    SameAuth(s, fd, s.conns[fd]);
    PutKeepsAuth(s, fd, s.conns[fd], Shut(clean));
  }

  lemma CloseRejectedKeepsAuth(s: State, k: Key)
    requires AuthInv(s) && s.pc.CloseRejected?
    ensures AuthInv(CloseRejectedKey(s, k))
  {
    var s1 := s.(pc := CloseRejected(s.pc.keys - {k}));
    MoveKeepsAuth(s, s1);
    if Live(s.conns, k) {
      CloseKeepsAuth(s1, k.fd, false);
    }
  }

  lemma AdmitMember(s: State, k: Key)
    requires AuthInv(s)
    ensures AuthInv(s.(book := s.book.(members := s.book.members + {k})))
  {
    var members := s.book.members + {k};
    forall i | 0 <= i < |s.shared.workers| ensures WorkerOk(s.shared.workers[i], i < s.normals, members) {
      assert WorkerOk(s.shared.workers[i], i < s.normals, s.book.members);
    }
  }

  /** An AUTH answer settles the only AUTH task of its connection. */
  lemma ApplyKeepsAuth(s: State, r: Response, worker: bool, refusal: bytes, ok: bool)
    requires AuthInv(s)
    requires Live(s.conns, r.key) && (r.frame.kind == AUTH_RESP || r.close) ==>
               NoTask(s.shared, r.key) && TasksOf(s.pc) == []
    ensures AuthInv(Apply(s, r, worker, refusal, ok))
  {
    if Live(s.conns, r.key) {
      var fd := r.key.fd;
      var ruled := Ruled(s, r, refusal);
      var c := Settled(s.conns[fd], r, ruled, worker);
      var s1 := if ruled.client.Some? then s.(book := s.book.(members := s.book.members + {r.key})) else s;
      AdmitMember(s, r.key);
      assert KeyOf(fd, c) == r.key;
      assert AuthPut(s1, fd, c);
      PutKeepsAuth(s1, fd, c, Shut(false));
      if !Withheld(c, ruled, s.config.outputLimit) {
        var c' := Registered(s.mode, Appended(c, ruled, s.config.outputLimit));
        assert AuthPut(s1, fd, c');
        PutKeepsAuth(s1, fd, c', IfOk(ok));
      }
    }
  }

  lemma TakeKeepsAuth(s: State)
    requires AuthInv(s) && s.shared.responses.items != []
    ensures AuthInv(Take(s))
  {
  }

  lemma OneOnly(m: multiset<Ticket>, t: Ticket, u: Ticket)
    requires |m| <= 1 && m[t] > 0
    ensures m[u] == if u == t then 1 else 0
  {
    assert m == multiset{t} + (m - multiset{t});
  }

  /** When an AUTH answer is taken off the queue, nothing else of its live connection's AUTH is left. */
  lemma TakenAuth(s: State)
    requires Conserved(s.conns, s.shared) && s.shared.responses.items != []
    requires var r := s.shared.responses.items[0];
             Live(s.conns, r.key) && r.frame.kind == AUTH_RESP && AuthTracked(EMPTY, r.key, s.conns[r.key.fd])
    ensures NoTask(Take(s).shared, s.shared.responses.items[0].key)
    ensures !s.conns[s.shared.responses.items[0].key.fd].authenticated
  {
    var r := s.shared.responses.items[0];
    var c := s.conns[r.key.fd];
    var t := ResponseTicket(r);
    TakeSettles(s, t);
    assert Live(s.conns, t.key) && t in c.outstanding;
    forall id: nat ensures Flight(Take(s).shared, Ticket(r.key, id, true)) == 0 {
      var u := Ticket(r.key, id, true);
      TakeSettles(s, u);
      OneOnly(c.outstanding, t, u);
      assert Live(s.conns, u.key);
    }
    NoFlightNoTask(Take(s).shared, r.key);
  }

  lemma ApplyNextKeepsAuth(s: State, refusal: bytes, ok: bool)
    requires AuthInv(s) && Conserved(s.conns, s.shared) && ConnsOk(s.mode, s.pc, s.conns)
    requires s.pc.Responses? && s.shared.responses.items != []
    ensures AuthInv(Apply(Take(s), s.shared.responses.items[0], true, refusal, ok))
  {
    var r := s.shared.responses.items[0];
    assert AnswerOk(r);
    TakeKeepsAuth(s);
    if Live(s.conns, r.key) && r.frame.kind == AUTH_RESP {
      assert ConnOk(s.mode, s.pc, KeyOf(r.key.fd, s.conns[r.key.fd]), s.conns[r.key.fd]);
      TakenAuth(s);
    }
    ApplyKeepsAuth(Take(s), r, true, refusal, ok);
  }

  lemma ConnStepKeepsAuth(s: State, p: ConnStep)
    requires AuthInv(s) && ConnEnabled(s, p)
    requires p.ApplyNext? ==> Conserved(s.conns, s.shared) && ConnsOk(s.mode, s.pc, s.conns)
    ensures AuthInv(OnConn(s, p))
  {
    match p
    case RearmOne(fd, ok) => RearmKeepsAuth(s, fd, ok);
    case Accept(fd, ok) => AcceptKeepsAuth(s, fd, ok);
    case Fail(fd) =>
      if fd in s.conns {
        CloseKeepsAuth(s, fd, false);
      }
    case HangUp(fd, ok) => EofKeepsAuth(s, fd, ok);
    case Write(fd, n, ok) => WriteKeepsAuth(s, fd, n, ok);
    case Eof(ok) =>
      MoveKeepsAuth(s, s.(pc := Handling));
      EofKeepsAuth(s.(pc := Handling), s.pc.key.fd, ok);
    case CloseOne(k) => CloseRejectedKeepsAuth(s, k);
    case SweepOne(fd) => CloseKeepsAuth(s, fd, true);
    case ApplyNext(refusal, ok) => ApplyNextKeepsAuth(s, refusal, ok);
  }

  // -------------------------------------------------------------------------
  // Decoding
  // -------------------------------------------------------------------------

  lemma AbandonKeepsAuth(s: State, fd: int)
    requires AuthInv(s)
    ensures AuthInv(Abandon(s, fd))
  {
    MoveKeepsAuth(s, s.(pc := Handling));
    if fd in s.conns {
      CloseKeepsAuth(s.(pc := Handling), fd, false);
    }
  }

  lemma ReadKeepsAuth(s: State, fd: int, chunk: bytes, eof: bool)
    requires AuthInv(s) && fd in s.conns
    ensures AuthInv(ReadAndDecode(s, fd, chunk, eof))
  {
    var s' := ReadAndDecode(s, fd, chunk, eof);
    var s1 := s.(pc := s'.pc);
    MoveKeepsAuth(s, s1);
    SameAuth(s1, fd, s'.conns[fd]);
    PutKeepsAuth(s1, fd, s'.conns[fd], Keep);
  }

  /** A task is made only for a connection that has none, under a flag never used before. */
  lemma SortAuthKeepsAuth(s: State, f: Frame)
    requires AuthInv(s) && s.pc.Classify? && s.pc.todo != [] && Live(s.conns, s.pc.key)
    requires NoTask(s.shared, s.pc.key) && s.pc.batch.auths == [] && s.pc.key.cid < s.nextId
    ensures AuthInv(SortAuth(s, f))
  {
    var s' := SortAuth(s, f);
    forall t | t in s.shared.auths.items ensures TaskOk(t, s'.conns, s'.tokens) {
      assert TaskOk(t, s.conns, s.tokens);
    }
    forall i | 0 <= i < |s.shared.workers| && s.shared.workers[i].AuthBusy?
      ensures TaskOk(s.shared.workers[i].task, s'.conns, s'.tokens)
    {
      assert TaskOk(s.shared.workers[i].task, s.conns, s.tokens);
    }
  }

  /** An unauthenticated connection with no AUTH pending has no AUTH task anywhere. */
  lemma UntrackedNoTask(s: State)
    requires s.pc.Classify? && Live(s.conns, s.pc.key) && Conserved(s.conns, s.shared)
    requires AuthTracked(s.pc.batch, s.pc.key, s.conns[s.pc.key.fd])
    requires !s.conns[s.pc.key.fd].authenticated && !s.conns[s.pc.key.fd].pending
    ensures NoTask(s.shared, s.pc.key) && s.pc.batch.auths == []
  {
    NoDebtNoTask(s.conns, s.shared, s.pc.key);
  }

  lemma SortKeepsAuth(s: State, now: int, text: bytes)
    requires AuthInv(s) && s.pc.Classify? && s.pc.todo != [] && Live(s.conns, s.pc.key)
    requires Conserved(s.conns, s.shared) && AuthTracked(s.pc.batch, s.pc.key, s.conns[s.pc.key.fd])
    requires s.pc.key.cid < s.nextId
    ensures AuthInv(SortTurn(s, now, text))
  {
    var k, f := s.pc.key, s.pc.todo[0];
    var c := s.conns[k.fd];
    if |f.payload| + 10 > s.pc.config.maxBody || (!c.authenticated && (f.kind != AUTH || c.pending)) {
      AbandonKeepsAuth(s, k.fd);
    } else if !c.authenticated {
      UntrackedNoTask(s);
      SortAuthKeepsAuth(s, f);
    } else if f.kind == AUTH {
      MoveKeepsAuth(s, SortTurn(s, now, text));
    } else {
      MoveKeepsAuth(s, SortNormal(s, f, now, text));
    }
  }

  /** Debts do not touch flags. */
  lemma OweKeepsTask(task: AuthTask, conns: map<int, Conn>, tokens: Tokens, t: Ticket)
    requires TaskOk(task, conns, tokens)
    ensures TaskOk(task, Owe(conns, t), tokens)
  {
  }

  lemma OweKeepsAuth(s: State, s': State, t: Ticket)
    requires AuthInv(s) && s'.conns == Owe(s.conns, t) && s'.tokens == s.tokens && s'.nextId == s.nextId
    requires s'.shared == s.shared && s'.book.members == s.book.members && s'.normals == s.normals
    requires TasksOf(s'.pc) == TasksOf(s.pc)
    ensures AuthInv(s')
  {
    forall a | a in s.shared.auths.items ensures TaskOk(a, s'.conns, s'.tokens) {
      OweKeepsTask(a, s.conns, s.tokens, t);
    }
    forall i | 0 <= i < |s.shared.workers| && s.shared.workers[i].AuthBusy?
      ensures TaskOk(s.shared.workers[i].task, s'.conns, s'.tokens)
    {
      OweKeepsTask(s.shared.workers[i].task, s.conns, s.tokens, t);
    }
    forall a | a in TasksOf(s.pc) ensures TaskOk(a, s'.conns, s'.tokens) {
      OweKeepsTask(a, s.conns, s.tokens, t);
    }
  }

  lemma PushAuthKeepsAuth(s: State, text: bytes)
    requires AuthInv(s) && s.pc.Admit? && s.pc.batch.auths != [] && BatchOk(s.pc.key, s.pc.batch)
    ensures AuthInv(PushAuth(s, text))
  {
    var task := s.pc.batch.auths[0];
    assert task in TasksOf(s.pc) && task in s.pc.batch.auths;
    if s.shared.auths.PushResult() == Pushed {
      OweKeepsAuth(s, s.(conns := Owe(s.conns, AuthTicket(task))), AuthTicket(task));
    }
  }

  lemma PushRequestKeepsAuth(s: State, text: bytes)
    requires AuthInv(s) && s.pc.Admit? && s.pc.batch.requests != [] && BatchOk(s.pc.key, s.pc.batch)
    requires Live(s.conns, s.pc.key) && s.conns[s.pc.key.fd].authenticated
    ensures AuthInv(PushRequest(s, text))
  {
    var request := s.pc.batch.requests[0].(serial := |s.book.admitted|);
    assert s.pc.batch.requests[0] in s.pc.batch.requests;
    assert KeyOf(s.pc.key.fd, s.conns[s.pc.key.fd]) == s.pc.key;
    if s.shared.requests.PushResult() == Pushed {
      OweKeepsAuth(s, s.(conns := Owe(s.conns, RequestTicket(request))), RequestTicket(request));
    }
  }

  /** A local AUTH answer means the AUTH request never left the Reactor. */
  lemma ReplyKeepsAuth(s: State, refusal: bytes, ok: bool)
    requires AuthInv(s) && s.pc.Answer? && s.pc.batch.locals != [] && BatchOk(s.pc.key, s.pc.batch)
    requires Conserved(s.conns, s.shared)
    requires Live(s.conns, s.pc.key) ==> AuthTracked(s.pc.batch, s.pc.key, s.conns[s.pc.key.fd])
    ensures AuthInv(ReplyOne(s, refusal, ok))
  {
    var r := s.pc.batch.locals[0];
    assert r in s.pc.batch.locals;
    var s1 := s.(pc := Answer(s.pc.key, s.pc.batch.(locals := s.pc.batch.locals[1..]), s.pc.eof));
    MoveKeepsAuth(s, s1);
    if Live(s.conns, s.pc.key) && r.close {
      TallyMember(s.pc.batch.locals, Closes, 0);
      NoDebtNoTask(s.conns, s.shared, s.pc.key);
    }
    ApplyKeepsAuth(s1, r, false, refusal, ok);
  }

  lemma RaiseKeepsAuth(s: State)
    requires AuthInv(s) && s.pc.Credit?
    ensures AuthInv(RaiseCount(s))
  {
    var s' := RaiseCount(s);
    var s1 := s.(pc := s'.pc);
    MoveKeepsAuth(s, s1);
    if Live(s.conns, s.pc.key) {
      SameAuth(s1, s.pc.key.fd, s'.conns[s.pc.key.fd]);
      PutKeepsAuth(s1, s.pc.key.fd, s'.conns[s.pc.key.fd], Keep);
    }
  }

  /** The decoded connection is in order. */
  lemma DeskOk(s: State)
    requires Phased(s.mode, s.pc, s.conns) && ConnsOk(s.mode, s.pc, s.conns)
    requires s.pc.Classify? || s.pc.Admit? || s.pc.Answer?
    ensures Live(s.conns, s.pc.key) ==> ConnOk(s.mode, s.pc, s.pc.key, s.conns[s.pc.key.fd])
  {
  }

  lemma SortDoneKeepsAuth(s: State)
    requires AuthInv(s) && s.pc.Classify? && Phased(s.mode, s.pc, s.conns)
    ensures AuthInv(if s.pc.doomed then Abandon(s, s.pc.key.fd) else s.(pc := Admit(s.pc.key, s.pc.batch, s.pc.eof)))
  {
    if s.pc.doomed {
      AbandonKeepsAuth(s, s.pc.key.fd);
    } else {
      MoveKeepsAuth(s, s.(pc := Admit(s.pc.key, s.pc.batch, s.pc.eof)));
    }
  }

  lemma DecodeStepKeepsAuth(s: State, d: DecodeStep)
    requires AuthInv(s) && DecodeEnabled(s, d) && Phased(s.mode, s.pc, s.conns)
    requires Conserved(s.conns, s.shared) && ConnsOk(s.mode, s.pc, s.conns) && Dated(s.conns, s.shared, s.nextId)
    ensures AuthInv(Decoding(s, d))
  {
    match d
    case Read(fd, chunk, eof) => ReadKeepsAuth(s, fd, chunk, eof);
    case Sort(now, text) => DeskOk(s); SortKeepsAuth(s, now, text);
    case SortDone => SortDoneKeepsAuth(s);
    case AdmitAuth(text) => PushAuthKeepsAuth(s, text);
    case AdmitRequest(text) => DeskOk(s); PushRequestKeepsAuth(s, text);
    case Raise => RaiseKeepsAuth(s);
    case Reply(refusal, ok) => DeskOk(s); ReplyKeepsAuth(s, refusal, ok);
    case AdmitDone => MoveKeepsAuth(s, s.(pc := Answer(s.pc.key, s.pc.batch, s.pc.eof)));
    case ReplyDone => MoveKeepsAuth(s, Decoding(s, d));
  }
}
