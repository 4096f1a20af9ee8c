/** The life of a connection, step by step: exactly when it begins, ends, and what each step makes of it. */
module ServerLife {
  import opened Bytes
  import opened FrameCodec
  import opened Options
  import opened Server
  import opened ServerSteps
  import opened ServerInvariant
  import opened ServerRuns

  // -------------------------------------------------------------------------
  // What a step means for one connection, in fields and steps
  // -------------------------------------------------------------------------

  /** The other descriptors authenticated as `client`. */
  function Others(conns: map<int, Conn>, client: string, fd: int): set<int> {
    set x | x in conns && x != fd && conns[x].authenticated && conns[x].client == client
  }

  /** The answer names a client that has all the connections it may have. */
  predicate Crowded(s: State, a: Response) {
    a.client.Some? && |Others(s.conns, a.client.value, a.key.fd)| >= s.config.maxConnections
  }

  /** The answer as the client gets it: a crowded one is turned into a refusal. */
  function Delivered(s: State, a: Response, refusal: bytes): Frame {
    if Crowded(s, a) then Frame(a.frame.version, 11, a.frame.requestId, refusal) else a.frame
  }

  /** With this answer, more bytes would wait for `c` than the output limit allows. */
  predicate TooMuch(s: State, c: Conn, a: Response, refusal: bytes) {
    |c.output| - c.offset + 14 + |Delivered(s, a, refusal).payload| > s.config.outputLimit
  }

  /** The answer a step applies, and the refusal text it brings. */
  datatype Answering = Nothing | Answering(answer: Response, refusal: bytes, ok: bool, worker: bool)

  function AnswerIn(s: State, p: Step): Answering {
    match p
    case ConnMoves(ApplyNext(refusal, ok)) =>
      if s.shared.responses.items == [] then Nothing
      else Answering(s.shared.responses.items[0], refusal, ok, true)
    case DecodeMoves(Reply(refusal, ok)) =>
      if !s.pc.Answer? || s.pc.batch.locals == [] then Nothing
      else Answering(s.pc.batch.locals[0], refusal, ok, false)
    case _ => Nothing
  }

  /** The step brings an answer for `k`. */
  predicate Answers(s: State, p: Step, k: Key) {
    AnswerIn(s, p).Answering? && AnswerIn(s, p).answer.key == k
  }

  /** Nothing in flight and nothing left to send. */
  predicate Idling(c: Conn) {
    c.inFlight == 0 && c.offset >= |c.output|
  }

  /** A frame that costs the connection: too large, or out of place before authentication. */
  predicate Illegal(c: Conn, f: Frame, maxBody: nat) {
    |f.payload| + 10 > maxBody || (!c.authenticated && (f.kind != 10 || c.pending))
  }

  /** The step sees the end of the input of the connection on `fd`, and whether it can be re-registered. */
  predicate EndOfInput(s: State, p: Step, fd: int) {
    match p
    case ConnMoves(HangUp(x, _)) => x == fd
    case ConnMoves(Eof(_)) => s.pc.PeerEof? && s.pc.key.fd == fd
    case _ => false
  }

  /** The step fails to register the connection on `fd`, where it tries to. */
  predicate Unregistered(p: Step, fd: int) {
    match p
    case ConnMoves(RearmOne(x, ok)) => x == fd && !ok
    case ConnMoves(HangUp(x, ok)) => x == fd && !ok
    case ConnMoves(Eof(ok)) => !ok
    case ConnMoves(Write(x, _, ok)) => x == fd && !ok
    case _ => false
  }

  /** `send` takes all that waits on `fd`. */
  predicate Empties(p: Step, fd: int, c: Conn) {
    p.ConnMoves? && p.conn.Write? && p.conn.fd == fd && |c.output| - c.offset <= p.conn.n
  }

  /** The frame being sorted, or the length after the last one, is illegal for `k`. */
  predicate Offends(s: State, p: Step, k: Key)
    requires Live(s.conns, k)
  {
    && p.DecodeMoves? && s.pc.Classify? && s.pc.key == k
    && match p.decode
       case Sort(_, _) => s.pc.todo != [] && Illegal(s.conns[k.fd], s.pc.todo[0], s.pc.config.maxBody)
       case SortDone => s.pc.doomed
       case _ => false
  }

  /** Exactly when a step ends the connection `k`. */
  predicate Ends(s: State, p: Step, k: Key)
    requires Live(s.conns, k)
  {
    var c := s.conns[k.fd];
    || (EndOfInput(s, p, k.fd) && (Idling(c) || (!c.readEof && Unregistered(p, k.fd))))
    || (Empties(p, k.fd, c)
        && (Unregistered(p, k.fd) || (c.inFlight == 0 && (c.closing || c.readEof || s.mode == Draining))))
    || (p.ConnMoves? && p.conn.RearmOne? && Unregistered(p, k.fd))
    || p == ConnMoves(Fail(k.fd)) || p == ConnMoves(CloseOne(k)) || p == ConnMoves(SweepOne(k.fd))
    || Offends(s, p, k)
    || (Answers(s, p, k)
        && (!AnswerIn(s, p).ok || TooMuch(s, c, AnswerIn(s, p).answer, AnswerIn(s, p).refusal)))
  }

  /** Exactly how a step that leaves `k` open changes what its client can see. */
  predicate Becomes(s: State, p: Step, k: Key, c': Conn)
    requires Live(s.conns, k)
  {
    var c, a := s.conns[k.fd], AnswerIn(s, p);
    && (c'.readEof <==> c.readEof || EndOfInput(s, p, k.fd))
    && (if Answers(s, p, k) then
          && c'.applied == c.applied + [Delivered(s, a.answer, a.refusal)]
          && (c'.closing <==> c.closing || a.answer.close || Crowded(s, a.answer))
          && (if a.answer.client.Some? && !Crowded(s, a.answer) then
                c'.authenticated && c'.client == a.answer.client.value
              else c'.authenticated == c.authenticated && c'.client == c.client)
        else
          && c'.applied == c.applied && c'.closing == c.closing
          && c'.authenticated == c.authenticated && c'.client == c.client)
    && |c'.sent| - |c.sent| == (if p.ConnMoves? && p.conn.Write? && p.conn.fd == k.fd && c.offset < |c.output|
                                then p.conn.n else 0)
  }

  /** The step does to `k` what it should, and nothing else. */
  predicate Exactly(s: State, p: Step, k: Key, s': State)
    requires Live(s.conns, k)
  {
    && (Live(s'.conns, k) <==> !Ends(s, p, k))
    && (Live(s'.conns, k) ==> Becomes(s, p, k, s'.conns[k.fd]))
  }

  // -------------------------------------------------------------------------
  // Steps
  // -------------------------------------------------------------------------

  /** What the steps need of the invariant. */
  ghost predicate Tidy(s: State, k: Key)
    requires Live(s.conns, k)
  {
    && s.conns[k.fd].offset <= |s.conns[k.fd].output|
    && (s.pc.Classify? ==> Live(s.conns, s.pc.key))
    && (s.pc.Responses? && s.shared.responses.items != [] ==> !s.shared.responses.items[0].skipWrite)
    && (s.pc.Answer? && s.pc.batch.locals != [] ==> !s.pc.batch.locals[0].skipWrite)
  }

  lemma OthersCounted(s: State, a: Response)
    ensures OverLimit(s, a) <==> Crowded(s, a)
  {
    if a.client.Some? {
      assert Members(s.conns, a.client.value) - {a.key.fd} == Others(s.conns, a.client.value, a.key.fd);
    }
  }

  /** A step that does not concern `k` and leaves it as it is. */
  lemma Spared(s: State, p: Step, k: Key, s': State)
    requires Live(s.conns, k) && k.fd in s'.conns && s'.conns[k.fd] == s.conns[k.fd]
    requires !Ends(s, p, k) && !EndOfInput(s, p, k.fd) && !Answers(s, p, k)
    requires !(p.ConnMoves? && p.conn.Write? && p.conn.fd == k.fd)
    ensures Exactly(s, p, k, s')
  {
  }

  /** What an answer makes of a connection that keeps it. */
  predicate Takes(s: State, c: Conn, a: Response, refusal: bytes, c': Conn) {
    && c'.cid == c.cid && c'.readEof == c.readEof && c'.sent == c.sent
    && c'.applied == c.applied + [Delivered(s, a, refusal)]
    && (c'.closing <==> c.closing || a.close || Crowded(s, a))
    && (if a.client.Some? && !Crowded(s, a) then c'.authenticated && c'.client == a.client.value
        else c'.authenticated == c.authenticated && c'.client == c.client)
  }

  lemma RuledAs(s: State, a: Response, refusal: bytes)
    ensures var ruled := Ruled(s, a, refusal);
            && ruled.frame == Delivered(s, a, refusal) && (ruled.close <==> a.close || Crowded(s, a))
            && ruled.client == if Crowded(s, a) then None else a.client
  {
    OthersCounted(s, a);
  }

  /** Settling leaves the output and the history of answers alone. */
  lemma SettledTakes(c: Conn, a: Response, ruled: Response, worker: bool)
    ensures var c1 := Settled(c, a, ruled, worker);
            && c1.cid == c.cid && c1.readEof == c.readEof && c1.sent == c.sent && c1.applied == c.applied
            && c1.closing == c.closing && c1.output == c.output && c1.offset == c.offset
            && if ruled.client.Some? then c1.authenticated && c1.client == ruled.client.value
               else c1.authenticated == c.authenticated && c1.client == c.client
  {
  }

  /** Appending leaves all else alone. */
  lemma AppendedTakes(c: Conn, ruled: Response, limit: nat, mode: Mode)
    requires c.offset <= |c.output|
    ensures var c1 := Registered(mode, Appended(c, ruled, limit));
            && c1.cid == c.cid && c1.readEof == c.readEof && c1.sent == c.sent
            && c1.applied == c.applied + [ruled.frame] && (c1.closing <==> c.closing || ruled.close)
            && c1.authenticated == c.authenticated && c1.client == c.client
  {
  }

  lemma RecordTakes(s: State, c: Conn, a: Response, worker: bool, refusal: bytes, mode: Mode)
    requires c.offset <= |c.output|
    ensures var ruled := Ruled(s, a, refusal);
            var c1 := Settled(c, a, ruled, worker);
            && (!a.skipWrite ==> (Withheld(c1, ruled, s.config.outputLimit) <==> TooMuch(s, c, a, refusal)))
            && c1.offset <= |c1.output|
            && Takes(s, c, a, refusal, Registered(mode, Appended(c1, ruled, s.config.outputLimit)))
  {
    var ruled := Ruled(s, a, refusal);
    RuledAs(s, a, refusal);
    SettledTakes(c, a, ruled, worker);
    AppendedTakes(Settled(c, a, ruled, worker), ruled, s.config.outputLimit, mode);
  }

  lemma ApplyTakes(s: State, a: Response, worker: bool, refusal: bytes, ok: bool)
    requires Live(s.conns, a.key) && !a.skipWrite && s.conns[a.key.fd].offset <= |s.conns[a.key.fd].output|
    ensures var s', c := Apply(s, a, worker, refusal, ok), s.conns[a.key.fd];
            && (Live(s'.conns, a.key) <==> ok && !TooMuch(s, c, a, refusal))
            && (Live(s'.conns, a.key) ==> Takes(s, c, a, refusal, s'.conns[a.key.fd]))
  {
    RecordTakes(s, s.conns[a.key.fd], a, worker, refusal, s.mode);
  }

  lemma ApplySpares(s: State, a: Response, worker: bool, refusal: bytes, ok: bool, k: Key)
    requires Live(s.conns, k) && k != a.key
    ensures var s' := Apply(s, a, worker, refusal, ok); k.fd in s'.conns && s'.conns[k.fd] == s.conns[k.fd]
  {
  }

  lemma SameCrowd(s: State, s1: State, c: Conn, a: Response, refusal: bytes)
    requires s1.conns == s.conns && s1.config == s.config
    ensures Crowded(s1, a) == Crowded(s, a) && Delivered(s1, a, refusal) == Delivered(s, a, refusal)
    ensures TooMuch(s1, c, a, refusal) == TooMuch(s, c, a, refusal)
  {
  }

  lemma ApplyLife(s: State, p: Step, k: Key, s1: State)
    requires Live(s.conns, k) && Tidy(s, k) && AnswerIn(s, p).Answering? && !AnswerIn(s, p).answer.skipWrite
    requires s1.conns == s.conns && s1.config == s.config
    ensures var a := AnswerIn(s, p); Exactly(s, p, k, Apply(s1, a.answer, a.worker, a.refusal, a.ok))
  {
    var a := AnswerIn(s, p);
    var s' := Apply(s1, a.answer, a.worker, a.refusal, a.ok);
    if a.answer.key == k {
      ApplyTakes(s1, a.answer, a.worker, a.refusal, a.ok);
      SameCrowd(s, s1, s.conns[k.fd], a.answer, a.refusal);
    } else {
      ApplySpares(s1, a.answer, a.worker, a.refusal, a.ok, k);
      Spared(s, p, k, s');
    }
  }

  lemma ApplyNextLife(s: State, p: ConnStep, k: Key)
    requires ConnEnabled(s, p) && p.ApplyNext? && Live(s.conns, k) && Tidy(s, k)
    ensures Exactly(s, ConnMoves(p), k, OnConn(s, p))
  {
    ApplyLife(s, ConnMoves(p), k, Take(s));
  }

  lemma SentMoves(c: Conn, n: nat)
    requires c.offset + n <= |c.output|
    ensures var c' := Sent(c, n);
            && c' == c.(output := c'.output, offset := c'.offset, sent := c'.sent) && |c'.sent| == |c.sent| + n
            && (c'.offset < |c'.output| <==> n < |c.output| - c.offset)
  {
  }

  lemma WriteLife(s: State, fd: int, n: nat, ok: bool, k: Key)
    requires ConnEnabled(s, Write(fd, n, ok)) && Live(s.conns, k) && Tidy(s, k)
    ensures Exactly(s, ConnMoves(Write(fd, n, ok)), k, WriteTurn(s, fd, n, ok))
  {
    var s' := WriteTurn(s, fd, n, ok);
    if fd == k.fd {
      if 0 < Unsent(s.conns[fd]) {
        SentMoves(s.conns[fd], n);
      }
    } else {
      Spared(s, ConnMoves(Write(fd, n, ok)), k, s');
    }
  }

  lemma EofLife(s: State, p: Step, k: Key, s1: State, fd: int, ok: bool)
    requires Live(s.conns, k) && Tidy(s, k) && s1.conns == s.conns && s1.mode == s.mode
    requires p == ConnMoves(HangUp(fd, ok)) || (p == ConnMoves(Eof(ok)) && s.pc.PeerEof? && s.pc.key.fd == fd)
    ensures Exactly(s, p, k, MarkEof(s1, fd, ok))
  {
    if fd != k.fd {
      Spared(s, p, k, MarkEof(s1, fd, ok));
    }
  }

  lemma PlainConnLife(s: State, p: ConnStep, k: Key)
    requires ConnEnabled(s, p) && (p.RearmOne? || p.Accept? || p.Fail? || p.CloseOne? || p.SweepOne?)
    requires Live(s.conns, k) && Tidy(s, k)
    ensures Exactly(s, ConnMoves(p), k, OnConn(s, p))
  {
  }

  lemma ConnLife(s: State, p: ConnStep, k: Key)
    requires ConnEnabled(s, p) && Live(s.conns, k) && Tidy(s, k)
    ensures Exactly(s, ConnMoves(p), k, OnConn(s, p))
  {
    match p
    case ApplyNext(_, _) => ApplyNextLife(s, p, k);
    case Write(fd, n, ok) => WriteLife(s, fd, n, ok, k);
    case HangUp(fd, ok) => EofLife(s, ConnMoves(p), k, s, fd, ok);
    case Eof(ok) => EofLife(s, ConnMoves(p), k, s.(pc := Handling), s.pc.key.fd, ok);
    case _ => PlainConnLife(s, p, k);
  }

  /** Sorting a frame closes its connection or marks it as waiting for its AUTH. */
  lemma SortEffect(s: State, now: int, text: bytes, k: Key)
    requires s.pc.Classify? && s.pc.todo != [] && Live(s.conns, s.pc.key) && Live(s.conns, k)
    ensures var s', c := SortTurn(s, now, text), s.conns[k.fd];
            if s.pc.key == k && Illegal(c, s.pc.todo[0], s.pc.config.maxBody) then !Live(s'.conns, k)
            else
              && k.fd in s'.conns
              && var c' := s'.conns[k.fd]; c' == c.(pending := c'.pending, cancel := c'.cancel)
  {
  }

  lemma SortLife(s: State, d: DecodeStep, k: Key)
    requires DecodeEnabled(s, d) && d.Sort? && Live(s.conns, k) && Tidy(s, k)
    ensures Exactly(s, DecodeMoves(d), k, Decoding(s, d))
  {
    SortEffect(s, d.now, d.text, k);
  }

  lemma ReplyLife(s: State, d: DecodeStep, k: Key)
    requires DecodeEnabled(s, d) && d.Reply? && Live(s.conns, k) && Tidy(s, k)
    ensures Exactly(s, DecodeMoves(d), k, Decoding(s, d))
  {
    var s1 := s.(pc := Answer(s.pc.key, s.pc.batch.(locals := s.pc.batch.locals[1..]), s.pc.eof));
    ApplyLife(s, DecodeMoves(d), k, s1);
  }

  lemma PlainDecodeLife(s: State, d: DecodeStep, k: Key)
    requires DecodeEnabled(s, d) && !d.Sort? && !d.Reply? && Live(s.conns, k) && Tidy(s, k)
    ensures Exactly(s, DecodeMoves(d), k, Decoding(s, d))
  {
  }

  lemma DecodeLife(s: State, d: DecodeStep, k: Key)
    requires DecodeEnabled(s, d) && Live(s.conns, k) && Tidy(s, k)
    ensures Exactly(s, DecodeMoves(d), k, Decoding(s, d))
  {
    match d
    case Sort(_, _) => SortLife(s, d, k);
    case Reply(_, _) => ReplyLife(s, d, k);
    case _ => PlainDecodeLife(s, d, k);
  }

  lemma StepLife(s: State, p: Step, k: Key)
    requires Enabled(s, p) && Live(s.conns, k) && Tidy(s, k)
    ensures Exactly(s, p, k, Next(s, p))
  {
    match p
    case ConnMoves(c) => ConnLife(s, c, k);
    case DecodeMoves(d) => DecodeLife(s, d, k);
    case _ =>
  }

  // -------------------------------------------------------------------------
  // Runs
  // -------------------------------------------------------------------------

  lemma AlwaysTidy(r: Run, i: nat, k: Key)
    requires r.Valid() && i < |r.states| && Live(r.states[i].conns, k)
    ensures Tidy(r.states[i], k)
  {
    AlwaysConns(r, i);
    AlwaysAuth(r, i);
    var s := r.states[i];
    assert ConnOk(s.mode, s.pc, KeyOf(k.fd, s.conns[k.fd]), s.conns[k.fd]);
    if s.shared.responses.items != [] {
      assert s.shared.responses.items[0] in s.shared.responses.items;
    }
    if s.pc.Answer? && s.pc.batch.locals != [] {
      assert s.pc.batch.locals[0] in s.pc.batch.locals;
    }
  }

  lemma LifeAt(r: Run, i: nat, k: Key)
    requires r.Valid() && i < |r.steps| && Live(r.states[i].conns, k)
    ensures Exactly(r.states[i], r.steps[i], k, r.states[i + 1])
  {
    AlwaysTidy(r, i, k);
    assert r.Follows(i);
    StepLife(r.states[i], r.steps[i], k);
  }

  /** In every run, a step closes a connection if and only if it is one of the causes in `Ends`. */
  lemma ClosedExactly(r: Run, i: nat, k: Key)
    requires r.Valid() && i < |r.steps| && Live(r.states[i].conns, k)
    ensures !Live(r.states[i + 1].conns, k) <==> Ends(r.states[i], r.steps[i], k)
  {
    LifeAt(r, i, k);
  }

  /** In every run, a step that leaves a connection open answers it, flags it and sends exactly what `Becomes` says. */
  lemma ChangedExactly(r: Run, i: nat, k: Key)
    requires r.Valid() && i < |r.steps| && Live(r.states[i].conns, k) && Live(r.states[i + 1].conns, k)
    ensures Becomes(r.states[i], r.steps[i], k, r.states[i + 1].conns[k.fd])
  {
    LifeAt(r, i, k);
  }

  /**
   An open connection is left alone. While the gateway runs, one that is neither
   closing nor at end of file goes only by the end of its input, a socket error, a
   failed registration, a lost answer, an illegal frame or length, or an answer
   its output limit has no room for. Sending it all it waits for keeps it.
   */
  lemma OpenIsLeftAlone(r: Run, i: nat, k: Key)
    requires r.Valid() && i < |r.steps| && r.states[i].mode == Running && Live(r.states[i].conns, k)
    requires !r.states[i].conns[k.fd].closing && !r.states[i].conns[k.fd].readEof
    requires !Live(r.states[i + 1].conns, k)
    ensures var s, p := r.states[i], r.steps[i];
            || EndOfInput(s, p, k.fd)
            || p == ConnMoves(Fail(k.fd))
            || Unregistered(p, k.fd)
            || p == ConnMoves(CloseOne(k))
            || Offends(s, p, k)
            || (Answers(s, p, k)
                && (!AnswerIn(s, p).ok
                    || TooMuch(s, s.conns[k.fd], AnswerIn(s, p).answer, AnswerIn(s, p).refusal)))
    ensures forall fd, n :: r.steps[i] != ConnMoves(Write(fd, n, true))
  {
    LifeAt(r, i, k);
    AlwaysConns(r, i);
    assert r.Follows(i);
  }

  /** The limit on a client's connections, as an outcome of an AUTH answer. */
  lemma AuthOutcome(r: Run, i: nat, refusal: bytes)
    requires r.Valid() && i < |r.steps| && r.steps[i] == ConnMoves(ApplyNext(refusal, true))
    requires r.states[i].shared.responses.items != [] && r.states[i].shared.responses.items[0].client.Some?
    requires var a := r.states[i].shared.responses.items[0];
             Live(r.states[i].conns, a.key) && !TooMuch(r.states[i], r.states[i].conns[a.key.fd], a, refusal)
    ensures var s, s' := r.states[i], r.states[i + 1];
            var a := s.shared.responses.items[0];
            var client, fd := a.client.value, a.key.fd;
            && Live(s'.conns, a.key) && !s.conns[fd].authenticated
            && (s'.conns[fd].authenticated && s'.conns[fd].client == client <==>
                  |set x | x in s.conns && x != fd && s.conns[x].authenticated && s.conns[x].client == client|
                  < s.config.maxConnections)
            && (!s'.conns[fd].authenticated ==>
                  && s'.conns[fd].closing
                  && s'.conns[fd].applied
                     == s.conns[fd].applied + [Frame(a.frame.version, 11, a.frame.requestId, refusal)])
  {
    var s := r.states[i];
    var a := s.shared.responses.items[0];
    LifeAt(r, i, a.key);
    assert r.Follows(i);
    NotYetNamed(r, i);
    assert Others(s.conns, a.client.value, a.key.fd)
           == set x | x in s.conns && x != a.key.fd && s.conns[x].authenticated
                      && s.conns[x].client == a.client.value;
  }

  lemma NotYetNamed(r: Run, i: nat)
    requires r.Valid() && i < |r.states| && r.states[i].pc.Responses?
    requires r.states[i].shared.responses.items != [] && r.states[i].shared.responses.items[0].client.Some?
    requires Live(r.states[i].conns, r.states[i].shared.responses.items[0].key)
    ensures !r.states[i].conns[r.states[i].shared.responses.items[0].key.fd].authenticated
  {
    Always(r, i);
    ApplyReady(r.states[i]);
  }

  // -------------------------------------------------------------------------
  // Beginnings
  // -------------------------------------------------------------------------

  lemma ApplyOpens(s: State, a: Response, worker: bool, refusal: bytes, ok: bool, k: Key)
    requires !Live(s.conns, k)
    ensures !Live(Apply(s, a, worker, refusal, ok).conns, k)
  {
  }

  lemma ConnOpens(s: State, p: ConnStep, k: Key)
    requires ConnEnabled(s, p) && !Live(s.conns, k)
    ensures Live(OnConn(s, p).conns, k) <==> p == Accept(k.fd, true) && k.cid == s.nextId
  {
    match p
    case ApplyNext(refusal, ok) => ApplyOpens(Take(s), s.shared.responses.items[0], true, refusal, ok, k);
    case _ =>
  }

  lemma DecodeOpens(s: State, d: DecodeStep, k: Key)
    requires DecodeEnabled(s, d) && !Live(s.conns, k)
    ensures !Live(Decoding(s, d).conns, k)
  {
    match d
    case Reply(refusal, ok) =>
      var s1 := s.(pc := Answer(s.pc.key, s.pc.batch.(locals := s.pc.batch.locals[1..]), s.pc.eof));
      ApplyOpens(s1, s.pc.batch.locals[0], false, refusal, ok, k);
    case _ =>
  }

  /** A connection as it is accepted: nothing read, asked, answered or sent, and registered for reading. */
  predicate Blank(c: Conn) {
    && c.input == [] && c.output == [] && c.offset == 0 && c.inFlight == 0 && c.cancel == None
    && !c.authenticated && !c.pending && !c.closing && !c.readEof && c.interest == Interest(true, false)
    && c.asked == [] && c.applied == [] && c.outstanding == multiset{} && c.sent == []
  }

  /** In every run, a generation begins exactly when its descriptor is accepted and registered, and begins blank. */
  lemma OpenedExactly(r: Run, i: nat, k: Key)
    requires r.Valid() && i < |r.steps| && !Live(r.states[i].conns, k)
    ensures var s, s' := r.states[i], r.states[i + 1];
            && (Live(s'.conns, k) <==> r.steps[i] == ConnMoves(Accept(k.fd, true)) && k.cid == s.nextId)
            && (Live(s'.conns, k) ==> s.mode == Running && Blank(s'.conns[k.fd]))
  {
    var s, p := r.states[i], r.steps[i];
    assert r.Follows(i);
    match p
    case ConnMoves(c) => ConnOpens(s, c, k);
    case DecodeMoves(d) => DecodeOpens(s, d, k);
    case _ =>
  }

  // -------------------------------------------------------------------------
  // Ends by the drain test
  // -------------------------------------------------------------------------

  /** `c` is the last record of `k`, which the step closes because it is wanted out and has nothing left to do. */
  ghost predicate Finishes(s: State, k: Key, s': State, c: Conn) {
    && Live(s.conns, k) && !Live(s'.conns, k)
    && c.cid == k.cid && c.asked == s.conns[k.fd].asked && c.applied == s.conns[k.fd].applied
    && (c.closing || c.readEof || s.mode == Draining)
    && c.inFlight == 0 && c.offset >= |c.output|
  }

  /** Records are added to the book one at a time, at the end. */
  ghost predicate Booked(s: State, s': State) {
    || s'.book.finished == s.book.finished
    || exists k, c :: s'.book.finished == s.book.finished + [c] && Finishes(s, k, s', c)
  }

  lemma ConnBooks(s: State, p: ConnStep)
    requires ConnEnabled(s, p)
    ensures Booked(s, OnConn(s, p))
  {
    var s' := OnConn(s, p);
    match p {
      case HangUp(fd, ok) => EofBooks(s, s, fd, ok);
      case Eof(ok) => EofBooks(s, s.(pc := Handling), s.pc.key.fd, ok);
      case Write(fd, n, ok) => WriteBooks(s, fd, n, ok);
      case SweepOne(fd) => assert Finishes(s, KeyOf(fd, s.conns[fd]), s', s.conns[fd]);
      case _ =>
    }
  }

  lemma EofBooks(s: State, s1: State, fd: int, ok: bool)
    requires s1.conns == s.conns && s1.mode == s.mode && s1.book == s.book
    ensures Booked(s, MarkEof(s1, fd, ok))
  {
    var s' := MarkEof(s1, fd, ok);
    if fd in s.conns {
      var c := s.conns[fd].(readEof := true);
      if s'.book.finished == s.book.finished + [c] && fd !in s'.conns {
        assert Finishes(s, KeyOf(fd, c), s', c);
      }
    }
  }

  lemma WriteBooks(s: State, fd: int, n: nat, ok: bool)
    requires fd in s.conns && (0 < Unsent(s.conns[fd]) ==> n <= Unsent(s.conns[fd]))
    ensures Booked(s, WriteTurn(s, fd, n, ok))
  {
    var s' := WriteTurn(s, fd, n, ok);
    var c := if 0 < Unsent(s.conns[fd]) then Sent(s.conns[fd], n) else s.conns[fd];
    if s'.book.finished == s.book.finished + [c] && fd !in s'.conns {
      assert Finishes(s, KeyOf(fd, c), s', c);
    }
  }

  lemma DecodeBooks(s: State, d: DecodeStep)
    requires DecodeEnabled(s, d)
    ensures Decoding(s, d).book.finished == s.book.finished
  {
  }

  lemma StepBooks(s: State, p: Step)
    requires Enabled(s, p)
    ensures Booked(s, Next(s, p))
  {
    match p
    case ConnMoves(c) => ConnBooks(s, c);
    case DecodeMoves(d) => DecodeBooks(s, d);
    case _ =>
  }

  lemma BookedAt(r: Run, i: nat, s': State)
    requires r.Valid() && i < |r.steps| && s' == r.states[i + 1]
    ensures Booked(r.states[i], s')
  {
    assert r.Follows(i);
    StepBooks(r.states[i], r.steps[i]);
  }

  lemma NoneAtFirst(r: Run, c: Conn)
    requires r.Valid()
    ensures c !in r.states[0].book.finished
  {
  }

  lemma NewlyBooked(s: State, s': State, c: Conn) returns (k: Key)
    requires Booked(s, s') && c in s'.book.finished && c !in s.book.finished
    ensures Finishes(s, k, s', c)
  {
    var key, last :| s'.book.finished == s.book.finished + [last] && Finishes(s, key, s', last);
    k := key;
  }

  /**
   Every connection closed by the drain test was on its way out when it was: it was
   closing, its input had ended, or the gateway was draining. And it had nothing in
   flight and nothing left to send.
   */
  lemma {:induction false} FinishedWasWanted(r: Run, i: nat, c: Conn) returns (j: nat, k: Key)
    requires r.Valid() && i < |r.states| && c in r.states[i].book.finished
    ensures j < i && Finishes(r.states[j], k, r.states[j + 1], c)
  {
    NoneAtFirst(r, c);
    BookedAt(r, i - 1, r.states[i]);
    if c in r.states[i - 1].book.finished {
      j, k := FinishedWasWanted(r, i - 1, c);
    } else {
      j := i - 1;
      k := NewlyBooked(r.states[j], r.states[i], c);
    }
  }

  // -------------------------------------------------------------------------
  // Readiness
  // -------------------------------------------------------------------------

  /**
   Outside `beginDraining` a connection is registered for reading exactly while
   the gateway runs and the connection is neither closing nor at end of file, and
   for writing exactly while bytes wait.
   */
  lemma InterestExactly(r: Run, i: nat, fd: int)
    requires r.Valid() && i < |r.states| && fd in r.states[i].conns && r.states[i].mode != Halted
    requires var pc := r.states[i].pc; !pc.StopRequests? && !pc.StopAuths? && !pc.Rearm?
    ensures var s := r.states[i];
            var c := s.conns[fd];
            && (c.interest.read <==> s.mode == Running && !c.closing && !c.readEof)
            && (c.interest.write <==> c.offset < |c.output|)
  {
    AlwaysConns(r, i);
    var s := r.states[i];
    assert ConnOk(s.mode, s.pc, KeyOf(fd, s.conns[fd]), s.conns[fd]);
  }
}
