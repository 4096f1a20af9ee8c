/** Every step keeps the per-client limits. */
module ServerLimitProof {
  import opened Bytes
  import opened FrameCodec
  import opened Queues
  import opened RateLimit
  import opened Server
  import opened ServerSteps
  import opened ServerInvariant

  lemma SubsetSize(a: set<int>, b: set<int>)
    requires a <= b
    ensures |a| <= |b|
  {
    assert b == a + (b - a);
  }

  /** A connection may become a member if there is room, and never changes or loses its client. */
  ghost predicate MayBecome(conns: map<int, Conn>, fd: int, c: Conn, cap: nat) {
    && fd in conns
    && (conns[fd].authenticated ==> c.authenticated && c.client == conns[fd].client)
    && (!conns[fd].authenticated && c.authenticated ==> |Members(conns, c.client) - {fd}| < cap)
  }

  lemma KeptMembers(conns: map<int, Conn>, fd: int, c: Conn, client: string)
    requires fd in conns && (conns[fd].authenticated ==> c.authenticated && c.client == conns[fd].client)
    ensures Members(conns[fd := c], client)
            == if c.authenticated && c.client == client then Members(conns, client) + {fd} else Members(conns, client)
  {
  }

  lemma KeepCapped(conns: map<int, Conn>, fd: int, c: Conn, cap: nat)
    requires MayBecome(conns, fd, c, cap) && Capped(conns, cap)
    ensures Capped(conns[fd := c], cap)
  {
    var conns' := conns[fd := c];
    forall client: string ensures |Members(conns', client)| <= cap {
      KeptMembers(conns, fd, c, client);
      if c.authenticated && c.client == client {
        var m := Members(conns, client);
        if fd in m {
          assert m + {fd} == m;
        } else {
          assert m - {fd} == m;
        }
      }
    }
  }

  lemma ShutCapped(conns: map<int, Conn>, fd: int, cap: nat)
    requires Capped(conns, cap)
    ensures Capped(conns - {fd}, cap)
  {
    forall client: string ensures |Members(conns - {fd}, client)| <= cap {
      SubsetSize(Members(conns - {fd}, client), Members(conns, client));
    }
  }

  /** The window goes with the client's last connection, and no other window does. */
  lemma ShutWindows(conns: map<int, Conn>, fd: int, c: Conn, windows: Windows)
    requires fd in conns && (conns[fd].authenticated ==> c.authenticated && c.client == conns[fd].client)
    requires WindowsOk(conns, windows)
    ensures var conns' := conns - {fd};
            WindowsOk(conns',
                      if c.authenticated && Members(conns', c.client) == {} then windows - {c.client} else windows)
  {
    var conns' := conns - {fd};
    forall client | client in windows && !(c.authenticated && client == c.client)
      ensures Members(conns', client) != {}
    {
      assert Members(conns', client) == Members(conns, client);
    }
  }

  lemma PutKeepsLimits(s: State, fd: int, c: Conn, fate: Fate)
    requires LimitInv(s) && MayBecome(s.conns, fd, c, s.book.cap)
    ensures LimitInv(Put(s, fd, c, fate))
  {
    if fate.Keep? {
      KeepCapped(s.conns, fd, c, s.book.cap);
      forall client | client in s.windows ensures Members(s.conns[fd := c], client) != {} {
        KeptMembers(s.conns, fd, c, client);
      }
    } else {
      ShutCapped(s.conns, fd, s.book.cap);
      ShutWindows(s.conns, fd, c, s.windows);
    }
  }

  lemma MoveKeepsLimits(s: State, s': State)
    requires LimitInv(s) && s'.conns == s.conns && s'.windows == s.windows
    requires s'.config == s.config && s'.book.cap == s.book.cap
    ensures LimitInv(s')
  {
  }

  lemma EnvKeepsLimits(s: State, e: EnvStep)
    requires LimitInv(s) && EnvEnabled(s, e)
    ensures LimitInv(Env(s, e))
  {
  }

  lemma LoopKeepsLimits(s: State, l: LoopStep)
    requires LimitInv(s) && LoopEnabled(s, l)
    ensures LimitInv(Loop(s, l))
  {
    MoveKeepsLimits(s, Loop(s, l));
  }

  lemma DrainKeepsLimits(s: State, d: DrainStep)
    requires LimitInv(s) && DrainEnabled(s, d)
    ensures LimitInv(Drain(s, d))
  {
    MoveKeepsLimits(s, Drain(s, d));
  }

  lemma AcceptKeepsLimits(s: State, fd: int, ok: bool)
    requires LimitInv(s) && fd !in s.conns
    ensures LimitInv(DoAccept(s, fd, ok))
  {
    if ok {
      var conns' := s.conns[fd := Fresh(s.nextId, s.mode)];
      forall client: string ensures Members(conns', client) == Members(s.conns, client) {
      }
    }
  }

  lemma RearmKeepsLimits(s: State, fd: int, ok: bool)
    requires LimitInv(s) && s.pc.Rearm?
    ensures LimitInv(DoRearm(s, fd, ok))
  {
    var s1 := s.(pc := Rearm(s.pc.fds - {fd}));
    MoveKeepsLimits(s, s1);
    if fd in s.conns {
      PutKeepsLimits(s1, fd, Registered(s.mode, s.conns[fd]), IfOk(ok));
    }
  }

  lemma EofKeepsLimits(s: State, fd: int, ok: bool)
    requires LimitInv(s)
    ensures LimitInv(MarkEof(s, fd, ok))
  {
    if fd in s.conns {
      var c := s.conns[fd].(readEof := true);
      PutKeepsLimits(s, fd, c, Shut(true));
      PutKeepsLimits(s, fd, Registered(s.mode, c), IfOk(ok));
    }
  }

  lemma WriteKeepsLimits(s: State, fd: int, n: nat, ok: bool)
    requires LimitInv(s) && fd in s.conns && (0 < Unsent(s.conns[fd]) ==> n <= Unsent(s.conns[fd]))
    ensures LimitInv(WriteTurn(s, fd, n, ok))
  {
    var c := if 0 < Unsent(s.conns[fd]) then Sent(s.conns[fd], n) else s.conns[fd];
    PutKeepsLimits(s, fd, c, Keep);
    PutKeepsLimits(s, fd, c, Shut(true));
    PutKeepsLimits(s, fd, Registered(s.mode, c), IfOk(ok));
  }

  /** Only a response within the limit admits a member, and only to a connection without one. */
  lemma ApplyKeepsLimits(s: State, r: Response, worker: bool, refusal: bytes, ok: bool)
    requires LimitInv(s)
    requires Live(s.conns, r.key) && r.client.Some? ==> !s.conns[r.key.fd].authenticated
    ensures LimitInv(Apply(s, r, worker, refusal, ok))
  {
    if Live(s.conns, r.key) {
      var ruled := Ruled(s, r, refusal);
      var c := Settled(s.conns[r.key.fd], r, ruled, worker);
      var s1 := if ruled.client.Some? then s.(book := s.book.(members := s.book.members + {r.key})) else s;
      MoveKeepsLimits(s, s1);
      PutKeepsLimits(s1, r.key.fd, c, Shut(false));
      if !Withheld(c, ruled, s.config.outputLimit) {
        PutKeepsLimits(s1, r.key.fd, Registered(s.mode, Appended(c, ruled, s.config.outputLimit)), IfOk(ok));
      }
    }
  }

  lemma ConnStepKeepsLimits(s: State, p: ConnStep)
    requires LimitInv(s) && ConnEnabled(s, p)
    requires p.ApplyNext? ==>
               var r := s.shared.responses.items[0];
               Live(s.conns, r.key) && r.client.Some? ==> !s.conns[r.key.fd].authenticated
    ensures LimitInv(OnConn(s, p))
  {
    match p
    case RearmOne(fd, ok) => RearmKeepsLimits(s, fd, ok);
    case Accept(fd, ok) => AcceptKeepsLimits(s, fd, ok);
    case Fail(fd) =>
      if fd in s.conns {
        PutKeepsLimits(s, fd, s.conns[fd], Shut(false));
      }
    case HangUp(fd, ok) => EofKeepsLimits(s, fd, ok);
    case Write(fd, n, ok) => WriteKeepsLimits(s, fd, n, ok);
    case Eof(ok) => EofKeepsLimits(s.(pc := Handling), s.pc.key.fd, ok);
    case CloseOne(k) =>
      if Live(s.conns, k) {
        PutKeepsLimits(s.(pc := CloseRejected(s.pc.keys - {k})), k.fd, s.conns[k.fd], Shut(false));
      }
    case SweepOne(fd) => PutKeepsLimits(s, fd, s.conns[fd], Shut(true));
    case ApplyNext(refusal, ok) => ApplyKeepsLimits(Take(s), s.shared.responses.items[0], true, refusal, ok);
  }

  lemma AbandonKeepsLimits(s: State, fd: int)
    requires LimitInv(s)
    ensures LimitInv(Abandon(s, fd))
  {
    if fd in s.conns {
      PutKeepsLimits(s.(pc := Handling), fd, s.conns[fd], Shut(false));
    }
  }

  lemma ReadKeepsLimits(s: State, fd: int, chunk: bytes, eof: bool)
    requires LimitInv(s) && fd in s.conns
    ensures LimitInv(ReadAndDecode(s, fd, chunk, eof))
  {
    var s' := ReadAndDecode(s, fd, chunk, eof);
    PutKeepsLimits(s.(pc := s'.pc), fd, s'.conns[fd], Keep);
  }

  lemma SortNormalKeepsLimits(s: State, f: Frame, now: int, text: bytes)
    requires LimitInv(s) && s.pc.Classify? && s.pc.todo != [] && Live(s.conns, s.pc.key)
    requires s.conns[s.pc.key.fd].authenticated
    ensures LimitInv(SortNormal(s, f, now, text))
  {
    assert s.pc.key.fd in Members(s.conns, s.conns[s.pc.key.fd].client);
  }

  lemma SortKeepsLimits(s: State, now: int, text: bytes)
    requires LimitInv(s) && s.pc.Classify? && s.pc.todo != [] && Live(s.conns, s.pc.key)
    ensures LimitInv(SortTurn(s, now, text))
  {
    var k, f := s.pc.key, s.pc.todo[0];
    var c := s.conns[k.fd];
    if |f.payload| + 10 > s.pc.config.maxBody || (!c.authenticated && (f.kind != AUTH || c.pending)) {
      AbandonKeepsLimits(s, k.fd);
    } else if !c.authenticated {
      var s' := SortAuth(s, f);
      PutKeepsLimits(s.(tokens := s'.tokens, pc := s'.pc), k.fd, s'.conns[k.fd], Keep);
    } else if f.kind == AUTH {
      MoveKeepsLimits(s, SortTurn(s, now, text));
    } else {
      SortNormalKeepsLimits(s, f, now, text);
    }
  }

  /** Debts have nothing to do with limits. */
  lemma OweKeepsLimits(s: State, s': State, t: Ticket)
    requires LimitInv(s) && s'.conns == Owe(s.conns, t)
    requires s'.windows == s.windows && s'.config == s.config && s'.book.cap == s.book.cap
    ensures LimitInv(s')
  {
    forall client: string ensures Members(s'.conns, client) == Members(s.conns, client) {
    }
  }

  lemma DecodeStepKeepsLimits(s: State, d: DecodeStep)
    requires LimitInv(s) && DecodeEnabled(s, d)
    requires d.Reply? ==> s.pc.batch.locals[0].client.None?
    ensures LimitInv(Decoding(s, d))
  {
    match d
    case Read(fd, chunk, eof) => ReadKeepsLimits(s, fd, chunk, eof);
    case Sort(now, text) => SortKeepsLimits(s, now, text);
    case SortDone => AbandonKeepsLimits(s, s.pc.key.fd);
    case AdmitAuth(text) =>
      var task := s.pc.batch.auths[0];
      if s.shared.auths.PushResult() == Pushed {
        OweKeepsLimits(s, PushAuth(s, text), AuthTicket(task));
      }
    case AdmitRequest(text) =>
      if s.shared.requests.PushResult() == Pushed {
        OweKeepsLimits(s, PushRequest(s, text), RequestTicket(s.pc.batch.requests[0].(serial := |s.book.admitted|)));
      }
    case Raise =>
      if Live(s.conns, s.pc.key) {
        var s' := RaiseCount(s);
        PutKeepsLimits(s.(pc := s'.pc), s.pc.key.fd, s'.conns[s.pc.key.fd], Keep);
      }
    case Reply(refusal, ok) =>
      var rest := s.pc.batch.(locals := s.pc.batch.locals[1..]);
      ApplyKeepsLimits(s.(pc := Answer(s.pc.key, rest, s.pc.eof)), s.pc.batch.locals[0], false, refusal, ok);
    case _ =>
  }
}
