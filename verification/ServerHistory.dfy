/** What a run may do to a connection over time: generations, identities and order. */
module ServerHistory {
  import opened Bytes
  import opened FrameCodec
  import opened Options
  import opened Queues
  import opened Server
  import opened ServerSteps
  import opened ServerInvariant
  import opened ServerRuns

  // -------------------------------------------------------------------------
  // One step
  // -------------------------------------------------------------------------

  /** A connection that was answered AUTH_RESP is authenticated or on its way out. */
  ghost predicate Decided(c: Conn) {
    forall f :: f in c.applied && f.kind == AUTH_RESP ==> c.authenticated || c.closing
  }

  /** `c'` is a later record of the generation `c`: nothing sent, answered, decided or authenticated is revised. */
  ghost predicate Later(c: Conn, c': Conn) {
    && c'.cid == c.cid
    && c.asked <= c'.asked && c.applied <= c'.applied && c.sent <= c'.sent
    && (c.authenticated ==> c'.authenticated && c'.client == c.client)
    && (c.closing ==> c'.closing) && (c.readEof ==> c'.readEof)
    && (Decided(c) ==> Decided(c'))
  }

  /** Every connection of `s'` is a later record of the one of `s`, or of a generation `s` had not handed out. */
  ghost predicate Evolves(s: State, s': State) {
    && s.nextId <= s'.nextId && s.normals == s'.normals
    && s.book.admitted <= s'.book.admitted && s.book.served <= s'.book.served
    && forall fd :: fd in s'.conns ==> Stems(s, s', fd)
  }

  ghost predicate Stems(s: State, s': State, fd: int)
    requires fd in s'.conns
  {
    || (s'.conns[fd].cid >= s.nextId && Decided(s'.conns[fd]))
    || (fd in s.conns && Later(s.conns[fd], s'.conns[fd]))
  }

  /** The step decodes nothing: no connection's input or requests change, and a new one has neither. */
  ghost predicate Quiet(s: State, s': State) {
    forall fd :: fd in s'.conns ==>
      var c := s'.conns[fd];
      || (c.cid >= s.nextId && c.asked == [] && c.input == [])
      || (fd in s.conns && s.conns[fd].cid == c.cid && Still(s.conns[fd], c))
  }

  ghost predicate Still(c: Conn, c': Conn) {
    c'.asked == c.asked && c'.input == c.input
  }

  lemma EvolvesOnwards(s: State, s': State, s'': State)
    requires Evolves(s, s') && Evolves(s', s'')
    ensures Evolves(s, s'')
  {
    forall fd | fd in s''.conns ensures Stems(s, s'', fd) {
      assert Stems(s', s'', fd);
      if fd in s'.conns && Later(s'.conns[fd], s''.conns[fd]) {
        assert Stems(s, s', fd);
      }
    }
  }

  /** The step left the connections and the order of service alone. */
  ghost predicate Aside(s: State, s': State) {
    && s'.nextId == s.nextId && s'.normals == s.normals
    && s'.book.admitted == s.book.admitted && s'.book.served == s.book.served
    && s'.conns == s.conns
  }

  lemma PutEvolves(s: State, s1: State, fd: int, c: Conn, fate: Fate)
    requires Aside(s, s1) && fd in s.conns && Later(s.conns[fd], c)
    ensures Evolves(s, Put(s1, fd, c, fate))
    ensures Still(s.conns[fd], c) ==> Quiet(s, Put(s1, fd, c, fate))
  {
  }

  lemma SettledIsLater(c: Conn, r: Response, ruled: Response, worker: bool)
    requires ruled.client.Some? ==> !c.authenticated
    ensures Later(c, Settled(c, r, ruled, worker)) && Still(c, Settled(c, r, ruled, worker))
    ensures ruled.client.Some? ==> Settled(c, r, ruled, worker).authenticated
  {
  }

  lemma AppendedIsLater(c: Conn, r: Response, limit: nat, mode: Mode)
    requires c.offset <= |c.output| && (r.frame.kind == AUTH_RESP ==> c.authenticated || r.close)
    ensures var c' := Registered(mode, Appended(c, r, limit)); Later(c, c') && Still(c, c')
  {
  }

  lemma LaterOnwards(c: Conn, c': Conn, c'': Conn)
    requires Later(c, c') && Later(c', c'')
    ensures Later(c, c'')
  {
  }

  /** An AUTH answer names a client or closes. */
  predicate Decisive(r: Response) {
    r.frame.kind == AUTH_RESP ==> r.client.Some? || r.close
  }

  lemma ApplyEvolves(s: State, s1: State, r: Response, worker: bool, refusal: bytes, ok: bool)
    requires Aside(s, s1)
    requires Live(s.conns, r.key) && r.client.Some? ==> !s.conns[r.key.fd].authenticated
    requires Decisive(r)
    ensures Evolves(s, Apply(s1, r, worker, refusal, ok)) && Quiet(s, Apply(s1, r, worker, refusal, ok))
  {
    if Live(s.conns, r.key) {
      var fd := r.key.fd;
      var ruled := Ruled(s1, r, refusal);
      var c := Settled(s.conns[fd], r, ruled, worker);
      SettledIsLater(s.conns[fd], r, ruled, worker);
      var s2 := if ruled.client.Some? then s1.(book := s1.book.(members := s1.book.members + {r.key})) else s1;
      if Withheld(c, ruled, s1.config.outputLimit) {
        PutEvolves(s, s2, fd, c, Shut(false));
      } else {
        var c' := Registered(s1.mode, Appended(c, ruled, s1.config.outputLimit));
        AppendedIsLater(c, ruled, s1.config.outputLimit, s1.mode);
        LaterOnwards(s.conns[fd], c, c');
        PutEvolves(s, s2, fd, c', IfOk(ok));
      }
    }
  }

  /** A response that authenticates finds its connection unauthenticated. */
  ghost predicate AuthenticatesOnce(s: State) {
    s.pc.Responses? && s.shared.responses.items != [] ==>
      var r := s.shared.responses.items[0];
      Decisive(r) && (Live(s.conns, r.key) && r.client.Some? ==> !s.conns[r.key.fd].authenticated)
  }

  lemma ApplyNextEvolves(s: State, refusal: bytes, ok: bool)
    requires AuthenticatesOnce(s) && s.pc.Responses? && s.shared.responses.items != []
    ensures var s' := Apply(Take(s), s.shared.responses.items[0], true, refusal, ok); Evolves(s, s') && Quiet(s, s')
  {
    var s1 := Take(s);
    var r := s.shared.responses.items[0];
    ApplyEvolves(s1, s1, r, true, refusal, ok);
    EvolvesOnwards(s, s1, Apply(s1, r, true, refusal, ok));
  }

  lemma ConnStepEvolves(s: State, p: ConnStep)
    requires AuthenticatesOnce(s) && ConnEnabled(s, p)
    ensures Evolves(s, OnConn(s, p)) && Quiet(s, OnConn(s, p))
  {
    match p
    case ApplyNext(refusal, ok) => ApplyNextEvolves(s, refusal, ok);
    case RearmOne(fd, ok) => RearmEvolves(s, fd, ok);
    case Write(fd, n, ok) => WriteEvolves(s, fd, n, ok);
    case HangUp(fd, ok) => EofEvolves(s, s, fd, ok);
    case Eof(ok) => EofEvolves(s, s.(pc := Handling), s.pc.key.fd, ok);
    case CloseOne(k) => CloseEvolves(s, k);
    case _ =>
  }

  lemma RearmEvolves(s: State, fd: int, ok: bool)
    requires s.pc.Rearm?
    ensures Evolves(s, DoRearm(s, fd, ok)) && Quiet(s, DoRearm(s, fd, ok))
  {
    if fd in s.conns {
      PutEvolves(s, s.(pc := Rearm(s.pc.fds - {fd})), fd, Registered(s.mode, s.conns[fd]), IfOk(ok));
    }
  }

  lemma CloseEvolves(s: State, k: Key)
    requires s.pc.CloseRejected?
    ensures Evolves(s, CloseRejectedKey(s, k)) && Quiet(s, CloseRejectedKey(s, k))
  {
    if Live(s.conns, k) {
      PutEvolves(s, s.(pc := CloseRejected(s.pc.keys - {k})), k.fd, s.conns[k.fd], Shut(false));
    }
  }

  lemma EofEvolves(s: State, s1: State, fd: int, ok: bool)
    requires Aside(s, s1)
    ensures Evolves(s, MarkEof(s1, fd, ok)) && Quiet(s, MarkEof(s1, fd, ok))
  {
    if fd in s.conns {
      var c := s.conns[fd].(readEof := true);
      if CanClose(s1.mode, c) {
        PutEvolves(s, s1, fd, c, Shut(true));
      } else if !s.conns[fd].readEof {
        PutEvolves(s, s1, fd, Registered(s1.mode, c), IfOk(ok));
      }
    }
  }

  lemma WriteEvolves(s: State, fd: int, n: nat, ok: bool)
    requires fd in s.conns && (0 < Unsent(s.conns[fd]) ==> n <= Unsent(s.conns[fd]))
    ensures Evolves(s, WriteTurn(s, fd, n, ok)) && Quiet(s, WriteTurn(s, fd, n, ok))
  {
    var c := if 0 < Unsent(s.conns[fd]) then Sent(s.conns[fd], n) else s.conns[fd];
    assert Later(s.conns[fd], c);
    if c.offset < |c.output| {
      PutEvolves(s, s, fd, c, Keep);
    } else if CanClose(s.mode, c) {
      PutEvolves(s, s, fd, c, Shut(true));
    } else {
      PutEvolves(s, s, fd, Registered(s.mode, c), IfOk(ok));
    }
  }

  lemma AsideEvolves(s: State, s1: State)
    requires Aside(s, s1)
    ensures Evolves(s, s1) && Quiet(s, s1)
  {
  }

  lemma SortAuthEvolves(s: State, f: Frame)
    requires s.pc.Classify? && s.pc.todo != [] && Live(s.conns, s.pc.key)
    ensures Evolves(s, SortAuth(s, f)) && Quiet(s, SortAuth(s, f))
  {
    var k, token := s.pc.key, s.tokens.next;
    var task := AuthTask(Request(k, f, 0), token);
    var s1 := s.(tokens := s.tokens.(owner := s.tokens.owner[token := k], next := token + 1),
                 pc := s.pc.(todo := s.pc.todo[1..], batch := s.pc.batch.(auths := s.pc.batch.auths + [task])));
    PutEvolves(s, s1, k.fd, s.conns[k.fd].(pending := true, cancel := Some(token)), Keep);
  }

  lemma SortEvolves(s: State, now: int, text: bytes)
    requires s.pc.Classify? && s.pc.todo != [] && Live(s.conns, s.pc.key)
    ensures Evolves(s, SortTurn(s, now, text)) && Quiet(s, SortTurn(s, now, text))
  {
    var k, f, c := s.pc.key, s.pc.todo[0], s.conns[s.pc.key.fd];
    if |f.payload| + 10 > s.pc.config.maxBody || (!c.authenticated && (f.kind != AUTH || c.pending)) {
      PutEvolves(s, s.(pc := Handling), k.fd, c, Shut(false));
    } else if !c.authenticated {
      SortAuthEvolves(s, f);
    } else {
      AsideEvolves(s, SortTurn(s, now, text));
    }
  }

  lemma OweEvolves(s: State, s1: State, t: Ticket)
    requires s1.conns == Owe(s.conns, t) && s1.nextId == s.nextId && s1.normals == s.normals
    requires s.book.admitted <= s1.book.admitted && s.book.served == s1.book.served
    ensures Evolves(s, s1) && Quiet(s, s1)
  {
  }

  lemma ReplyEvolves(s: State, refusal: bytes, ok: bool)
    requires s.pc.Answer? && s.pc.batch.locals != []
    requires s.pc.batch.locals[0].client.None? && Decisive(s.pc.batch.locals[0])
    ensures Evolves(s, ReplyOne(s, refusal, ok)) && Quiet(s, ReplyOne(s, refusal, ok))
  {
    var rest := s.pc.batch.(locals := s.pc.batch.locals[1..]);
    ApplyEvolves(s, s.(pc := Answer(s.pc.key, rest, s.pc.eof)), s.pc.batch.locals[0], false, refusal, ok);
  }

  lemma AdmitEvolves(s: State, d: DecodeStep)
    requires DecodeEnabled(s, d) && (d.AdmitAuth? || d.AdmitRequest?)
    ensures Evolves(s, Decoding(s, d)) && Quiet(s, Decoding(s, d))
  {
    var s1 := Decoding(s, d);
    if d.AdmitAuth? {
      if s.shared.auths.PushResult() == Pushed {
        OweEvolves(s, s1, AuthTicket(s.pc.batch.auths[0]));
      }
    } else if s.shared.requests.PushResult() == Pushed {
      OweEvolves(s, s1, RequestTicket(s.pc.batch.requests[0].(serial := |s.book.admitted|)));
    }
  }

  lemma DecodeStepEvolves(s: State, d: DecodeStep)
    requires DecodeEnabled(s, d)
    requires d.Reply? ==> s.pc.batch.locals[0].client.None? && Decisive(s.pc.batch.locals[0])
    ensures Evolves(s, Decoding(s, d))
    ensures !d.Read? ==> Quiet(s, Decoding(s, d))
  {
    match d
    case Sort(now, text) => SortEvolves(s, now, text);
    case AdmitAuth(_) => AdmitEvolves(s, d);
    case AdmitRequest(_) => AdmitEvolves(s, d);
    case Reply(refusal, ok) => ReplyEvolves(s, refusal, ok);
    case _ =>
  }

  /** What the steps need of the invariant. */
  ghost predicate Orderly(s: State) {
    && AuthenticatesOnce(s)
    && (s.pc.Answer? && s.pc.batch.locals != [] ==>
          s.pc.batch.locals[0].client.None? && Decisive(s.pc.batch.locals[0]))
  }

  lemma InvIsOrderly(s: State)
    requires Inv(s)
    ensures Orderly(s)
  {
    if s.pc.Responses? && s.shared.responses.items != [] {
      ApplyReady(s);
    }
    if s.pc.Answer? && s.pc.batch.locals != [] {
      assert s.pc.batch.locals[0] in s.pc.batch.locals;
    }
  }

  predicate Reads(p: Step) {
    p.DecodeMoves? && p.decode.Read?
  }

  lemma StepEvolves(s: State, p: Step)
    requires Orderly(s) && Enabled(s, p)
    ensures Evolves(s, Next(s, p))
    ensures !Reads(p) ==> Quiet(s, Next(s, p))
  {
    match p
    case ConnMoves(c) => ConnStepEvolves(s, c);
    case DecodeMoves(d) => DecodeStepEvolves(s, d);
    case _ => assert Aside(s, Next(s, p));
  }

  // -------------------------------------------------------------------------
  // Runs
  // -------------------------------------------------------------------------

  lemma OneStepEvolves(r: Run, i: nat)
    requires r.Valid() && i < |r.steps|
    ensures Evolves(r.states[i], r.states[i + 1])
    ensures !Reads(r.steps[i]) ==> Quiet(r.states[i], r.states[i + 1])
  {
    Always(r, i);
    InvIsOrderly(r.states[i]);
    assert r.Follows(i);
    StepEvolves(r.states[i], r.steps[i]);
  }

  lemma {:induction false} RunEvolves(r: Run, i: nat, j: nat)
    requires r.Valid() && i <= j < |r.states|
    ensures Evolves(r.states[i], r.states[j])
    decreases j
  {
    if i < j {
      RunEvolves(r, i, j - 1);
      OneStepEvolves(r, j - 1);
      EvolvesOnwards(r.states[i], r.states[j - 1], r.states[j]);
    }
  }

  /** Generations do not come back: a closed connection's key is never live again, whatever descriptor is reused. */
  lemma DeadStayDead(r: Run, i: nat, j: nat, k: Key)
    requires r.Valid() && i <= j < |r.states|
    requires k.cid < r.states[i].nextId && !Live(r.states[i].conns, k)
    ensures !Live(r.states[j].conns, k)
  {
    RunEvolves(r, i, j);
  }

  lemma IssuedBefore(s: State, k: Key)
    requires WorkInv(s) && Live(s.conns, k)
    ensures k.cid < s.nextId
  {
  }

  /** While a generation lives, its requests, answers and sent bytes only grow, and its identity is for life. */
  lemma IdentityIsForLife(r: Run, i: nat, j: nat, k: Key)
    requires r.Valid() && i <= j < |r.states| && Live(r.states[i].conns, k) && Live(r.states[j].conns, k)
    ensures var c, c' := r.states[i].conns[k.fd], r.states[j].conns[k.fd];
            && c.asked <= c'.asked && c.applied <= c'.applied && c.sent <= c'.sent
            && (c.authenticated ==> c'.authenticated && c'.client == c.client)
            && (c.closing ==> c'.closing) && (c.readEof ==> c'.readEof)
  {
    AlwaysWork(r, i);
    IssuedBefore(r.states[i], k);
    RunEvolves(r, i, j);
  }

  /** A connection that was refused is closing: it reads no more requests and goes once its output is out. */
  lemma RefusedIsClosing(r: Run, i: nat, fd: int, f: Frame)
    requires r.Valid() && i < |r.states| && fd in r.states[i].conns
    requires f in r.states[i].conns[fd].applied && f.kind == AUTH_RESP && !r.states[i].conns[fd].authenticated
    ensures r.states[i].conns[fd].closing
  {
    RunEvolves(r, 0, i);
    assert Stems(r.states[0], r.states[i], fd);
  }
}
