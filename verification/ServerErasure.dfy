/**
 History is only written: two states that differ in nothing but history allow the
 same steps and stay that way. History is what connections were asked, answered,
 owed and sent, the serials of requests and responses, the lost responses, the
 owners of cancellation flags and the book.
 */
module ServerErasure {
  import opened Bytes
  import opened Connections
  import opened FrameCodec
  import opened Options
  import opened Queues
  import opened Server
  import opened ServerSteps

  // -------------------------------------------------------------------------
  // Alike up to history
  // -------------------------------------------------------------------------

  predicate AlikeConn(c: Conn, d: Conn) {
    && c.cid == d.cid && c.input == d.input && c.output == d.output && c.offset == d.offset
    && c.client == d.client && c.authenticated == d.authenticated && c.pending == d.pending
    && c.closing == d.closing && c.readEof == d.readEof && c.inFlight == d.inFlight
    && c.cancel == d.cancel && c.interest == d.interest
  }

  predicate AlikeConns(a: map<int, Conn>, b: map<int, Conn>) {
    a.Keys == b.Keys && forall fd :: fd in a ==> AlikeConn(a[fd], b[fd])
  }

  predicate AlikeRequest(q: Request, r: Request) {
    q.key == r.key && q.frame == r.frame
  }

  predicate AlikeResponse(q: Response, r: Response) {
    && q.key == r.key && q.frame == r.frame && q.client == r.client
    && q.close == r.close && q.skipWrite == r.skipWrite
  }

  predicate AlikeWorker(v: Worker, w: Worker) {
    match v
    case Busy(q) => w.Busy? && AlikeRequest(q, w.request)
    case Ready(q) => w.Ready? && AlikeResponse(q, w.response)
    case Notifying(Answered(q)) => w.Notifying? && w.note.Answered? && AlikeResponse(q, w.note.response)
    case _ => v == w
  }

  predicate AlikeWorkers(vs: seq<Worker>, ws: seq<Worker>) {
    |vs| == |ws| && forall i :: 0 <= i < |vs| ==> AlikeWorker(vs[i], ws[i])
  }

  predicate AlikeRequests(a: Queue<Request>, b: Queue<Request>) {
    && a.capacity == b.capacity && a.peak == b.peak && a.stopped == b.stopped && |a.items| == |b.items|
    && forall i :: 0 <= i < |a.items| ==> AlikeRequest(a.items[i], b.items[i])
  }

  predicate AlikeResponses(a: Queue<Response>, b: Queue<Response>) {
    && a.capacity == b.capacity && a.peak == b.peak && a.stopped == b.stopped && |a.items| == |b.items|
    && forall i :: 0 <= i < |a.items| ==> AlikeResponse(a.items[i], b.items[i])
  }

  predicate AlikeShared(h: Shared, g: Shared) {
    && AlikeRequests(h.requests, g.requests) && h.auths == g.auths && AlikeResponses(h.responses, g.responses)
    && AlikeWorkers(h.workers, g.workers)
    && h.producers == g.producers && h.rejected == g.rejected && h.ev == g.ev
  }

  predicate AlikeTokens(a: Tokens, b: Tokens) {
    a.cancelled == b.cancelled && a.next == b.next
  }

  /** Equal but for history. */
  predicate Alike(s: State, t: State) {
    && s.mode == t.mode && s.pc == t.pc && s.nextId == t.nextId && s.normals == t.normals && s.stop == t.stop
    && s.config == t.config && s.windows == t.windows
    && AlikeConns(s.conns, t.conns) && AlikeShared(s.shared, t.shared) && AlikeTokens(s.tokens, t.tokens)
  }

  /** The same step, with the serial that the worker of `t` holds. */
  function Matched(t: State, p: Step): Step {
    if p.WorkerMoves? && p.work.Dispatch? && p.i < |t.shared.workers| && t.shared.workers[p.i].Busy? then
      WorkerMoves(p.i, Dispatch(p.work.answer.(serial := t.shared.workers[p.i].request.serial)))
    else p
  }

  // -------------------------------------------------------------------------
  // Connections
  // -------------------------------------------------------------------------

  lemma MembersAlike(a: map<int, Conn>, b: map<int, Conn>, client: string)
    requires AlikeConns(a, b)
    ensures Members(a, client) == Members(b, client)
  {
    forall fd ensures fd in Members(a, client) <==> fd in Members(b, client) {
      if fd in a {
        assert AlikeConn(a[fd], b[fd]);
      }
    }
  }

  lemma PutAlike(s: State, t: State, fd: int, c: Conn, d: Conn, fate: Fate)
    requires Alike(s, t) && AlikeConn(c, d)
    ensures Alike(Put(s, fd, c, fate), Put(t, fd, d, fate))
  {
    if fate.Shut? {
      var a, b := s.conns - {fd}, t.conns - {fd};
      assert AlikeConns(a, b);
      MembersAlike(a, b, c.client);
    }
  }

  lemma OverLimitAlike(s: State, t: State, q: Response, r: Response)
    requires Alike(s, t) && AlikeResponse(q, r)
    ensures OverLimit(s, q) == OverLimit(t, r)
  {
    if q.client.Some? {
      MembersAlike(s.conns, t.conns, q.client.value);
    }
  }

  lemma RuledAlike(s: State, t: State, q: Response, r: Response, refusal: bytes)
    requires Alike(s, t) && AlikeResponse(q, r)
    ensures AlikeResponse(Ruled(s, q, refusal), Ruled(t, r, refusal))
  {
    OverLimitAlike(s, t, q, r);
  }

  lemma SettledAlike(c: Conn, d: Conn, q: Response, r: Response, rq: Response, rr: Response, worker: bool)
    requires AlikeConn(c, d) && AlikeResponse(q, r) && AlikeResponse(rq, rr)
    ensures AlikeConn(Settled(c, q, rq, worker), Settled(d, r, rr, worker))
  {
    SettledInParts(c, q, rq, worker);
    SettledInParts(d, r, rr, worker);
    var c1, d1 := Completed(c, q, worker), Completed(d, r, worker);
    CompletedAlike(c, d, q, r, worker);
    ClearedAlike(c1, d1, q, r);
    GrantedAlike(Cleared(c1, q), Cleared(d1, r), rq.client);
  }

  lemma CompletedAlike(c: Conn, d: Conn, q: Response, r: Response, worker: bool)
    requires AlikeConn(c, d)
    ensures AlikeConn(Completed(c, q, worker), Completed(d, r, worker))
  {
  }

  lemma ClearedAlike(c: Conn, d: Conn, q: Response, r: Response)
    requires AlikeConn(c, d) && AlikeResponse(q, r)
    ensures AlikeConn(Cleared(c, q), Cleared(d, r))
  {
  }

  lemma GrantedAlike(c: Conn, d: Conn, client: Option<string>)
    requires AlikeConn(c, d)
    ensures AlikeConn(Granted(c, client), Granted(d, client))
  {
  }

  lemma AppendedAlike(c: Conn, d: Conn, q: Response, r: Response, limit: nat, mode: Mode)
    requires AlikeConn(c, d) && AlikeResponse(q, r) && c.offset <= |c.output|
    ensures AlikeConn(Registered(mode, Appended(c, q, limit)), Registered(mode, Appended(d, r, limit)))
  {
  }

  lemma ApplyAlike(s: State, t: State, q: Response, r: Response, worker: bool, refusal: bytes, ok: bool)
    requires Alike(s, t) && AlikeResponse(q, r)
    ensures Alike(Apply(s, q, worker, refusal, ok), Apply(t, r, worker, refusal, ok))
  {
    if Live(s.conns, q.key) {
      var fd := q.key.fd;
      assert AlikeConn(s.conns[fd], t.conns[fd]);
      var rq, rr := Ruled(s, q, refusal), Ruled(t, r, refusal);
      RuledAlike(s, t, q, r, refusal);
      var c, d := Settled(s.conns[fd], q, rq, worker), Settled(t.conns[fd], r, rr, worker);
      SettledAlike(s.conns[fd], t.conns[fd], q, r, rq, rr, worker);
      AnsweredAlike(s, t, c, d, rq, rr, ok);
    } else if q.key.fd in s.conns {
      assert AlikeConn(s.conns[q.key.fd], t.conns[q.key.fd]);
    }
  }

  /** The output half of `applyResponse`. */
  function Finished(s: State, c: Conn, ruled: Response, ok: bool): State {
    var s1 := if ruled.client.Some? then s.(book := s.book.(members := s.book.members + {ruled.key})) else s;
    if Withheld(c, ruled, s.config.outputLimit) then Put(s1, ruled.key.fd, c, Shut(false))
    else Put(s1, ruled.key.fd, Registered(s.mode, Appended(c, ruled, s.config.outputLimit)), IfOk(ok))
  }

  lemma AnsweredAlike(s: State, t: State, c: Conn, d: Conn, rq: Response, rr: Response, ok: bool)
    requires Alike(s, t) && AlikeConn(c, d) && AlikeResponse(rq, rr)
    ensures Alike(Finished(s, c, rq, ok), Finished(t, d, rr, ok))
  {
    var s1 := if rq.client.Some? then s.(book := s.book.(members := s.book.members + {rq.key})) else s;
    var t1 := if rr.client.Some? then t.(book := t.book.(members := t.book.members + {rr.key})) else t;
    var limit := s.config.outputLimit;
    if Withheld(c, rq, limit) {
      PutAlike(s1, t1, rq.key.fd, c, d, Shut(false));
    } else {
      AppendedAlike(c, d, rq, rr, limit, s.mode);
      PutAlike(s1, t1, rq.key.fd, Registered(s.mode, Appended(c, rq, limit)),
               Registered(t.mode, Appended(d, rr, limit)), IfOk(ok));
    }
  }

  // -------------------------------------------------------------------------
  // Steps
  // -------------------------------------------------------------------------

  lemma WorkAlike(h: Shared, g: Shared, normals: nat, cancelled: set<nat>, i: nat, v: WorkerStep, w: WorkerStep)
    requires AlikeShared(h, g) && WorkerEnabled(h, normals, cancelled, i, v)
    requires if v.Dispatch? then g.workers[i].Busy? && w == Dispatch(v.answer.(serial := g.workers[i].request.serial))
             else w == v
    ensures WorkerEnabled(g, normals, cancelled, i, w)
    ensures AlikeShared(Work(h, normals, cancelled, i, v), Work(g, normals, cancelled, i, w))
  {
    assert AlikeWorker(h.workers[i], g.workers[i]);
  }

  lemma DrainAlike(s: State, t: State, d: DrainStep)
    requires Alike(s, t) && DrainEnabled(s, d)
    ensures DrainEnabled(t, d) && Alike(Drain(s, d), Drain(t, d))
  {
    if d.SweepDone? {
      forall fd | fd in t.conns ensures !CanClose(t.mode, t.conns[fd]) {
        assert AlikeConn(s.conns[fd], t.conns[fd]);
      }
      assert s.conns == map[] <==> s.conns.Keys == {};
      assert t.conns == map[] <==> t.conns.Keys == {};
    }
  }

  lemma EofAlike(s: State, t: State, fd: int, ok: bool)
    requires Alike(s, t)
    ensures Alike(MarkEof(s, fd, ok), MarkEof(t, fd, ok))
  {
    if fd in s.conns {
      assert AlikeConn(s.conns[fd], t.conns[fd]);
      var c, d := s.conns[fd].(readEof := true), t.conns[fd].(readEof := true);
      PutAlike(s, t, fd, c, d, Shut(true));
      PutAlike(s, t, fd, Registered(s.mode, c), Registered(t.mode, d), IfOk(ok));
    }
  }

  lemma SentAlike(c: Conn, d: Conn, n: nat)
    requires AlikeConn(c, d) && c.offset + n <= |c.output|
    ensures AlikeConn(Sent(c, n), Sent(d, n))
  {
  }

  lemma WriteAlike(s: State, t: State, fd: int, n: nat, ok: bool)
    requires Alike(s, t) && fd in s.conns && (0 < Unsent(s.conns[fd]) ==> 0 < n <= Unsent(s.conns[fd]))
    ensures fd in t.conns && Unsent(t.conns[fd]) == Unsent(s.conns[fd])
    ensures Alike(WriteTurn(s, fd, n, ok), WriteTurn(t, fd, n, ok))
  {
    assert AlikeConn(s.conns[fd], t.conns[fd]);
    var c := if 0 < Unsent(s.conns[fd]) then Sent(s.conns[fd], n) else s.conns[fd];
    var d := if 0 < Unsent(t.conns[fd]) then Sent(t.conns[fd], n) else t.conns[fd];
    if 0 < Unsent(s.conns[fd]) {
      SentAlike(s.conns[fd], t.conns[fd], n);
    }
    if c.offset < |c.output| {
      PutAlike(s, t, fd, c, d, Keep);
    } else if CanClose(s.mode, c) {
      PutAlike(s, t, fd, c, d, Shut(true));
    } else {
      PutAlike(s, t, fd, Registered(s.mode, c), Registered(t.mode, d), IfOk(ok));
    }
  }

  /** Closing, for whatever reason, with the Reactor then at `pc`. */
  lemma CloseAlike(s: State, t: State, pc: Pc, fd: int, clean: bool)
    requires Alike(s, t) && fd in s.conns
    ensures fd in t.conns
    ensures Alike(Put(s.(pc := pc), fd, s.conns[fd], Shut(clean)), Put(t.(pc := pc), fd, t.conns[fd], Shut(clean)))
  {
    assert AlikeConn(s.conns[fd], t.conns[fd]);
    PutAlike(s.(pc := pc), t.(pc := pc), fd, s.conns[fd], t.conns[fd], Shut(clean));
  }

  lemma LiveAlike(s: State, t: State, k: Key)
    requires Alike(s, t)
    ensures Live(s.conns, k) == Live(t.conns, k)
  {
    if k.fd in s.conns {
      assert AlikeConn(s.conns[k.fd], t.conns[k.fd]);
    }
  }

  lemma TakeAlike(s: State, t: State)
    requires Alike(s, t) && s.shared.responses.items != []
    ensures t.shared.responses.items != []
    ensures AlikeResponse(s.shared.responses.items[0], t.shared.responses.items[0])
    ensures Alike(Take(s), Take(t))
  {
  }

  lemma RearmAlike(s: State, t: State, fd: int, ok: bool)
    requires Alike(s, t) && s.pc.Rearm?
    ensures Alike(DoRearm(s, fd, ok), DoRearm(t, fd, ok))
  {
    if fd in s.conns {
      assert AlikeConn(s.conns[fd], t.conns[fd]);
      var pc := Rearm(s.pc.fds - {fd});
      PutAlike(s.(pc := pc), t.(pc := pc), fd, Registered(s.mode, s.conns[fd]), Registered(t.mode, t.conns[fd]),
               IfOk(ok));
    }
  }

  lemma ConnAlike(s: State, t: State, p: ConnStep)
    requires Alike(s, t) && ConnEnabled(s, p)
    ensures ConnEnabled(t, p) && Alike(OnConn(s, p), OnConn(t, p))
  {
    match p
    case RearmOne(fd, ok) => RearmAlike(s, t, fd, ok);
    case Accept(_, _) =>
    case Fail(fd) =>
      if fd in s.conns {
        CloseAlike(s, t, s.pc, fd, false);
      }
    case HangUp(fd, ok) => EofAlike(s, t, fd, ok);
    case Write(fd, n, ok) => WriteAlike(s, t, fd, n, ok);
    case Eof(ok) => EofAlike(s.(pc := Handling), t.(pc := Handling), s.pc.key.fd, ok);
    case CloseOne(k) =>
      LiveAlike(s, t, k);
      if Live(s.conns, k) {
        CloseAlike(s, t, CloseRejected(s.pc.keys - {k}), k.fd, false);
      }
    case SweepOne(fd) =>
      assert AlikeConn(s.conns[fd], t.conns[fd]);
      CloseAlike(s, t, s.pc, fd, true);
    case ApplyNext(refusal, ok) =>
      TakeAlike(s, t);
      ApplyAlike(Take(s), Take(t), s.shared.responses.items[0], t.shared.responses.items[0], true, refusal, ok);
  }

  lemma ReadAlike(s: State, t: State, fd: int, chunk: bytes, eof: bool)
    requires Alike(s, t) && DecodeEnabled(s, Read(fd, chunk, eof))
    ensures DecodeEnabled(t, Read(fd, chunk, eof))
    ensures Alike(ReadAndDecode(s, fd, chunk, eof), ReadAndDecode(t, fd, chunk, eof))
  {
    assert AlikeConn(s.conns[fd], t.conns[fd]);
  }

  lemma AbandonAlike(s: State, t: State, fd: int)
    requires Alike(s, t)
    ensures Alike(Abandon(s, fd), Abandon(t, fd))
  {
    if fd in s.conns {
      CloseAlike(s, t, Handling, fd, false);
    }
  }

  lemma SortAuthAlike(s: State, t: State, f: Frame)
    requires Alike(s, t) && s.pc.Classify? && s.pc.todo != [] && Live(s.conns, s.pc.key) && Live(t.conns, s.pc.key)
    ensures Alike(SortAuth(s, f), SortAuth(t, f))
  {
    assert AlikeConn(s.conns[s.pc.key.fd], t.conns[s.pc.key.fd]);
  }

  lemma SortNormalAlike(s: State, t: State, f: Frame, now: int, text: bytes)
    requires Alike(s, t) && s.pc.Classify? && s.pc.todo != [] && Live(s.conns, s.pc.key) && Live(t.conns, s.pc.key)
    ensures Alike(SortNormal(s, f, now, text), SortNormal(t, f, now, text))
  {
    assert AlikeConn(s.conns[s.pc.key.fd], t.conns[s.pc.key.fd]);
  }

  lemma SortAlike(s: State, t: State, now: int, text: bytes)
    requires Alike(s, t) && s.pc.Classify? && s.pc.todo != [] && Live(s.conns, s.pc.key)
    ensures Live(t.conns, t.pc.key) && Alike(SortTurn(s, now, text), SortTurn(t, now, text))
  {
    var k, f, c := s.pc.key, s.pc.todo[0], s.conns[s.pc.key.fd];
    assert AlikeConn(c, t.conns[k.fd]);
    if |f.payload| + 10 > s.pc.config.maxBody || (!c.authenticated && (f.kind != AUTH || c.pending)) {
      AbandonAlike(s, t, k.fd);
    } else if !c.authenticated {
      SortAuthAlike(s, t, f);
    } else if f.kind != AUTH {
      SortNormalAlike(s, t, f, now, text);
    }
  }

  lemma OweAlike(a: map<int, Conn>, b: map<int, Conn>, q: Ticket)
    requires AlikeConns(a, b)
    ensures AlikeConns(Owe(a, q), Owe(b, q))
  {
    if q.key.fd in a {
      assert AlikeConn(a[q.key.fd], b[q.key.fd]);
    }
  }

  lemma PushAuthAlike(s: State, t: State, text: bytes)
    requires Alike(s, t) && s.pc.Admit? && s.pc.batch.auths != []
    ensures Alike(PushAuth(s, text), PushAuth(t, text))
  {
    OweAlike(s.conns, t.conns, AuthTicket(s.pc.batch.auths[0]));
  }

  lemma PushedAlike(a: Queue<Request>, b: Queue<Request>, q: Request, r: Request)
    requires AlikeRequests(a, b) && AlikeRequest(q, r)
    ensures a.PushResult() == b.PushResult() && AlikeRequests(a.Push(q), b.Push(r))
  {
  }

  lemma PushRequestAlike(s: State, t: State, text: bytes)
    requires Alike(s, t) && s.pc.Admit? && s.pc.batch.requests != []
    ensures Alike(PushRequest(s, text), PushRequest(t, text))
  {
    var q := s.pc.batch.requests[0];
    PushedAlike(s.shared.requests, t.shared.requests, q.(serial := |s.book.admitted|),
                q.(serial := |t.book.admitted|));
    OweAlike(s.conns, t.conns, RequestTicket(q));
  }

  lemma RaiseAlike(s: State, t: State)
    requires Alike(s, t) && s.pc.Credit?
    ensures Alike(RaiseCount(s), RaiseCount(t))
  {
    var k := s.pc.key;
    LiveAlike(s, t, k);
    if Live(s.conns, k) {
      assert AlikeConn(s.conns[k.fd], t.conns[k.fd]);
    }
  }

  lemma DecodeAlike(s: State, t: State, d: DecodeStep)
    requires Alike(s, t) && DecodeEnabled(s, d)
    ensures DecodeEnabled(t, d) && Alike(Decoding(s, d), Decoding(t, d))
  {
    match d
    case Read(fd, chunk, eof) => ReadAlike(s, t, fd, chunk, eof);
    case Sort(now, text) => SortAlike(s, t, now, text);
    case SortDone => AbandonAlike(s, t, s.pc.key.fd);
    case AdmitAuth(text) => PushAuthAlike(s, t, text);
    case AdmitRequest(text) => PushRequestAlike(s, t, text);
    case Raise => RaiseAlike(s, t);
    case Reply(refusal, ok) =>
      var pc := Answer(s.pc.key, s.pc.batch.(locals := s.pc.batch.locals[1..]), s.pc.eof);
      ApplyAlike(s.(pc := pc), t.(pc := pc), s.pc.batch.locals[0], t.pc.batch.locals[0], false, refusal, ok);
    case _ =>
  }

  /**
   History never influences a step: what is possible in a state is possible in
   every state that differs from it only in history, and leads to states that
   again differ only in history.
   */
  lemma HistoryIsInert(s: State, t: State, p: Step)
    requires Alike(s, t) && Enabled(s, p)
    ensures Enabled(t, Matched(t, p)) && Alike(Next(s, p), Next(t, Matched(t, p)))
  {
    match p
    case WorkerMoves(i, w) =>
      assert AlikeWorker(s.shared.workers[i], t.shared.workers[i]);
      WorkAlike(s.shared, t.shared, s.normals, s.tokens.cancelled, i, w, Matched(t, p).work);
    case DrainMoves(d) => DrainAlike(s, t, d);
    case ConnMoves(c) => ConnAlike(s, t, c);
    case DecodeMoves(d) => DecodeAlike(s, t, d);
    case _ =>
  }
}
