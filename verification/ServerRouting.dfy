/** Where the gateway puts its work: the fate of a decoded frame, of a push, and of the gateway as it stops. */
module ServerRouting {
  import opened Bytes
  import opened FrameCodec
  import opened Options
  import RateLimit
  import opened Server
  import opened ServerSteps
  import opened ServerInvariant
  import opened ServerRuns
  import opened ServerLife
  import opened ServerRates

  // -------------------------------------------------------------------------
  // Decoded frames
  // -------------------------------------------------------------------------

  /** The Reactor's own answer to `f`: the same version and request id, its own type and text. */
  function OwnAnswer(k: Key, f: Frame, kind: byte, text: bytes, close: bool): Response {
    Response(k, Frame(f.version, kind, f.requestId, text), None, close, false, 0)
  }

  /** Exactly one thing is added to what a decode has sorted. */
  predicate Sorted(b: Batch, auths: seq<AuthTask>, requests: seq<Request>, locals: seq<Response>, b': Batch) {
    b'.auths == b.auths + auths && b'.requests == b.requests + requests && b'.locals == b.locals + locals
  }

  /**
   In every run, a legal frame leaves the front of the list and becomes one thing.
   Before authentication it is an AUTH task with a flag no earlier task has, and
   the connection waits for it. After authentication an AUTH is answered
   ERROR_RESP, and any other frame is a request or, beyond the client's rate,
   answered ERROR_RESP. A clock that does not run backwards is all this asks for.
   */
  lemma FrameIsRouted(r: Run, i: nat, now: int, text: bytes)
    requires r.Valid() && i < |r.steps| && r.steps[i] == DecodeMoves(Sort(now, text))
    requires var s := r.states[i];
             && s.pc.Classify? && s.pc.todo != [] && Live(s.conns, s.pc.key)
             && !Illegal(s.conns[s.pc.key.fd], s.pc.todo[0], s.pc.config.maxBody)
             && RateLimit.Clock(Calls(r, i, s.conns[s.pc.key.fd].client))
    ensures var s, s' := r.states[i], r.states[i + 1];
            var k, f, c := s.pc.key, s.pc.todo[0], s.conns[s.pc.key.fd];
            var es := Calls(r, i, c.client);
            && s'.pc.Classify? && s'.pc.key == k && s'.pc.todo == s.pc.todo[1..] && s'.pc.doomed == s.pc.doomed
            && if !c.authenticated then
                 && Sorted(s.pc.batch, [AuthTask(Request(k, f, 0), s.tokens.next)], [], [], s'.pc.batch)
                 && s.tokens.next !in s.tokens.owner && k.fd in s'.conns && s'.conns[k.fd].pending
               else if f.kind == 10 then
                 Sorted(s.pc.batch, [], [], [OwnAnswer(k, f, 7, text, false)], s'.pc.batch)
               else if RateLimit.AdmittedFrom(es, RateLimit.OpenerFor(es, now)) < s.pc.config.maxRequests then
                 Sorted(s.pc.batch, [], [Request(k, f, 0)], [], s'.pc.batch)
               else Sorted(s.pc.batch, [], [], [OwnAnswer(k, f, 7, text, false)], s'.pc.batch)
  {
    var s := r.states[i];
    assert r.Follows(i);
    AlwaysAuth(r, i);
    SortIsOne(s, now, text);
    var client := s.conns[s.pc.key.fd].client;
    if Metered(s, r.steps[i], client) {
      AdmittedByTheCount(r, i, client);
    }
  }

  /** A frame becomes one thing, whatever the limiter says. */
  lemma SortIsOne(s: State, now: int, text: bytes)
    requires s.pc.Classify? && s.pc.todo != [] && Live(s.conns, s.pc.key)
    requires !Illegal(s.conns[s.pc.key.fd], s.pc.todo[0], s.pc.config.maxBody)
    ensures var s' := SortTurn(s, now, text);
            var k, f, c := s.pc.key, s.pc.todo[0], s.conns[s.pc.key.fd];
            && s'.pc.Classify? && s'.pc.key == k && s'.pc.todo == s.pc.todo[1..] && s'.pc.doomed == s.pc.doomed
            && if !c.authenticated then
                 && Sorted(s.pc.batch, [AuthTask(Request(k, f, 0), s.tokens.next)], [], [], s'.pc.batch)
                 && k.fd in s'.conns && s'.conns[k.fd].pending
               else
                 || Sorted(s.pc.batch, [], [], [OwnAnswer(k, f, 7, text, false)], s'.pc.batch)
                 || (f.kind != 10 && Sorted(s.pc.batch, [], [Request(k, f, 0)], [], s'.pc.batch))
  {
  }

  // -------------------------------------------------------------------------
  // Pushes
  // -------------------------------------------------------------------------

  /** While the Reactor admits, its connection is live, the batch is that connection's and both queues are open. */
  lemma AdmitReady(r: Run, i: nat)
    requires r.Valid() && i < |r.states| && r.states[i].pc.Admit?
    ensures var s := r.states[i];
            && Live(s.conns, s.pc.key) && BatchOk(s.pc.key, s.pc.batch)
            && !s.shared.requests.stopped && !s.shared.auths.stopped
  {
    AlwaysConns(r, i);
    AlwaysCrew(r, i);
  }

  /** In every run, a sorted request is queued last if there is room, and is else answered ERROR_RESP. */
  lemma RequestIsAdmitted(r: Run, i: nat, text: bytes)
    requires r.Valid() && i < |r.steps| && r.steps[i] == DecodeMoves(AdmitRequest(text))
    requires r.states[i].pc.Admit? && r.states[i].pc.batch.requests != []
    ensures var s, s' := r.states[i], r.states[i + 1];
            var q, queue := s.pc.batch.requests[0], s.shared.requests;
            && (s'.pc.Credit? || s'.pc.Admit?) && s'.pc.batch.requests == s.pc.batch.requests[1..]
            && if |queue.items| < queue.capacity then
                 && s'.pc.Credit? && s'.pc.batch.locals == s.pc.batch.locals
                 && s'.shared.requests.items == queue.items + [Request(q.key, q.frame, |s.book.admitted|)]
                 && Live(s.conns, q.key) && Live(s'.conns, q.key)
                 && s'.conns[q.key.fd].outstanding == s.conns[q.key.fd].outstanding + multiset{RequestTicket(q)}
               else
                 && s'.pc.Admit? && s'.shared == s.shared && s'.conns == s.conns
                 && s'.pc.batch.locals == s.pc.batch.locals + [OwnAnswer(q.key, q.frame, 7, text, false)]
  {
    assert r.Follows(i);
    AdmitReady(r, i);
    assert r.states[i].pc.batch.requests[0] in r.states[i].pc.batch.requests;
  }

  /** In every run, a sorted AUTH task is queued last if there is room, and is else refused for good. */
  lemma AuthIsAdmitted(r: Run, i: nat, text: bytes)
    requires r.Valid() && i < |r.steps| && r.steps[i] == DecodeMoves(AdmitAuth(text))
    requires r.states[i].pc.Admit? && r.states[i].pc.batch.auths != []
    ensures var s, s' := r.states[i], r.states[i + 1];
            var task, queue := s.pc.batch.auths[0], s.shared.auths;
            var q := task.request;
            && (s'.pc.Credit? || s'.pc.Admit?) && s'.pc.batch.auths == s.pc.batch.auths[1..]
            && if |queue.items| < queue.capacity then
                 && s'.pc.Credit? && s'.pc.batch.locals == s.pc.batch.locals
                 && s'.shared.auths.items == queue.items + [task]
                 && Live(s.conns, q.key) && Live(s'.conns, q.key)
                 && s'.conns[q.key.fd].outstanding == s.conns[q.key.fd].outstanding + multiset{AuthTicket(task)}
               else
                 && s'.pc.Admit? && s'.shared == s.shared && s'.conns == s.conns
                 && s'.pc.batch.locals == s.pc.batch.locals + [OwnAnswer(q.key, q.frame, 11, text, true)]
  {
    assert r.Follows(i);
    AdmitReady(r, i);
    assert r.states[i].pc.batch.auths[0] in r.states[i].pc.batch.auths;
  }

  /** In every run, a worker's answer is queued last if the queue is open and has room; else its key is on its way. */
  lemma AnswerIsPushed(r: Run, i: nat, w: nat)
    requires r.Valid() && i < |r.steps| && r.steps[i] == WorkerMoves(w, Push)
    requires w < |r.states[i].shared.workers| && r.states[i].shared.workers[w].Ready?
    ensures var h, h' := r.states[i].shared, r.states[i + 1].shared;
            var a := h.workers[w].response;
            if !h.responses.stopped && |h.responses.items| < h.responses.capacity then
              && h'.responses.items == h.responses.items + [a] && h'.lost == h.lost
              && h'.workers == h.workers[w := Notifying(Answered(a))]
            else
              && h'.responses == h.responses && h'.lost == h.lost + [ResponseTicket(a)]
              && h'.workers == h.workers[w := Rejecting(a.key)]
  {
    assert r.Follows(i);
  }

  // -------------------------------------------------------------------------
  // The Reactor's way around
  // -------------------------------------------------------------------------

  /** Where the Reactor may go from `pc`: no part of a turn is skipped. */
  predicate MayFollow(mode: Mode, pc: Pc, pc': Pc) {
    match pc
    case Top => pc'.Waiting? || pc'.StopRequests?
    case Waiting => pc'.Handling? || pc'.Top? || (mode == Running && pc'.StopRequests?)
    case Handling => pc'.Handling? || pc'.Classify? || pc'.Responses?
    case Classify(_, _, _, _, _, _) => pc'.Classify? || pc'.Admit? || pc'.Handling?
    case Admit(_, _, _) => pc'.Admit? || pc'.Credit? || pc'.Answer?
    case Credit(_, _, _) => pc'.Admit?
    case Answer(_, _, eof) => pc'.Answer? || if eof then pc'.PeerEof? else pc'.Handling?
    case PeerEof(_) => pc'.Handling?
    case Responses => pc'.Responses? || pc'.Rejections?
    case Rejections => pc'.CloseRejected?
    case CloseRejected(keys) => pc'.CloseRejected? || (keys == {} && pc'.Check?)
    case Check => if mode == Draining then pc'.Sweep? || pc'.Deadline? else pc'.Top?
    case Sweep => pc'.Sweep? || pc'.Deadline? || pc'.Done?
    case Deadline => pc'.Top? || pc'.AbortAuths?
    case StopRequests => pc'.StopAuths?
    case StopAuths => pc'.Rearm?
    case Rearm(fds) => pc'.Rearm? || (fds == {} && pc'.Top?)
    case AbortAuths => pc'.AbortResponses?
    case AbortResponses => pc'.Done?
    case Done => false
  }

  lemma ConnTurns(s: State, p: ConnStep)
    requires ConnEnabled(s, p)
    ensures MayFollow(s.mode, s.pc, OnConn(s, p).pc)
    ensures OnConn(s, p).nextId == s.nextId + if p.Accept? then 1 else 0
  {
  }

  lemma DecodeTurns(s: State, d: DecodeStep)
    requires DecodeEnabled(s, d)
    ensures MayFollow(s.mode, s.pc, Decoding(s, d).pc) && Decoding(s, d).nextId == s.nextId
  {
  }

  /**
   In every run, the Reactor goes around its loop in order: it drains responses
   and rejections in every turn that handles events. No other thread moves it. A
   generation number is spent by every accepted descriptor, registered or not.
   */
  lemma TurnsInOrder(r: Run, i: nat)
    requires r.Valid() && i < |r.steps|
    ensures var s, s', p := r.states[i], r.states[i + 1], r.steps[i];
            && (if p.EnvMoves? || p.WorkerMoves? then s'.pc == s.pc && s'.conns == s.conns
                else MayFollow(s.mode, s.pc, s'.pc))
            && s'.nextId == s.nextId + if p.ConnMoves? && p.conn.Accept? then 1 else 0
  {
    assert r.Follows(i);
    match r.steps[i]
    case ConnMoves(c) => ConnTurns(r.states[i], c);
    case DecodeMoves(d) => DecodeTurns(r.states[i], d);
    case _ =>
  }

  lemma {:induction false} OkLeavesNothing(b: bytes, limit: nat)
    requires Decode(b, limit).status == Ok
    ensures Decode(b, limit).rest == []
    decreases |b|
  {
    if b != [] {
      OkLeavesNothing(b[Look(b, limit).size..], limit);
    }
  }

  /** At end of file no partial frame is kept, unless its length was rejected and the connection is doomed. */
  lemma EndOfFileDropsTail(r: Run, i: nat, fd: int, chunk: bytes)
    requires r.Valid() && i < |r.steps| && r.steps[i] == DecodeMoves(Read(fd, chunk, true))
    ensures var s' := r.states[i + 1];
            && s'.pc.Classify? && s'.pc.eof && s'.pc.key.fd == fd && fd in s'.conns
            && (s'.pc.doomed || s'.conns[fd].input == [])
  {
    assert r.Follows(i);
    var s := r.states[i];
    if Decode(s.conns[fd].input + chunk, s.config.maxBody).status == Ok {
      OkLeavesNothing(s.conns[fd].input + chunk, s.config.maxBody);
    }
  }

  // -------------------------------------------------------------------------
  // Configuration
  // -------------------------------------------------------------------------

  /** In every run, the limits in force change exactly when a configuration is applied, and to that one. */
  lemma ConfigExactly(r: Run, i: nat)
    requires r.Valid() && i < |r.steps|
    ensures var p := r.steps[i];
            r.states[i + 1].config
            == if p.EnvMoves? && p.env.Reconfigure? then p.env.config else r.states[i].config
  {
    assert r.Follows(i);
    match r.steps[i]
    case ConnMoves(c) => ConnKeepsMode(r.states[i], c);
    case DecodeMoves(d) => DecodeKeepsMode(r.states[i], d);
    case _ =>
  }

  // -------------------------------------------------------------------------
  // Stopping
  // -------------------------------------------------------------------------

  /** In every run, the gateway drains and halts at these steps and at no other, and never goes back. */
  lemma ModeExactly(r: Run, i: nat)
    requires r.Valid() && i < |r.steps|
    ensures var s, p := r.states[i], r.steps[i];
            r.states[i + 1].mode
            == if p == LoopMoves(BeginDrain) || (p == LoopMoves(EpollError) && s.mode == Running) then Draining
               else if p == DrainMoves(AbortResponseQueue) then Halted
               else if p == DrainMoves(SweepDone) && |s.conns| == 0 then Halted
               else s.mode
    ensures r.steps[i] == LoopMoves(BeginDrain) ==> r.states[i].stop.requested && r.states[i].mode == Running
  {
    assert r.Follows(i);
    match r.steps[i]
    case ConnMoves(c) => ConnKeepsMode(r.states[i], c);
    case DecodeMoves(d) => DecodeKeepsMode(r.states[i], d);
    case _ =>
  }

  lemma ConnKeepsMode(s: State, p: ConnStep)
    requires ConnEnabled(s, p)
    ensures OnConn(s, p).mode == s.mode && OnConn(s, p).config == s.config
  {
    match p
    case ApplyNext(refusal, ok) => ApplyKeepsMode(Take(s), s.shared.responses.items[0], true, refusal, ok);
    case _ =>
  }

  lemma ApplyKeepsMode(s: State, a: Response, worker: bool, refusal: bytes, ok: bool)
    ensures var s' := Apply(s, a, worker, refusal, ok); s'.mode == s.mode && s'.config == s.config
  {
  }

  lemma DecodeKeepsMode(s: State, d: DecodeStep)
    requires DecodeEnabled(s, d)
    ensures Decoding(s, d).mode == s.mode && Decoding(s, d).config == s.config
  {
  }

  /** A stop that was asked for is heeded at the head of the loop, before anything else the Reactor does. */
  lemma StopIsHeeded(r: Run, i: nat)
    requires r.Valid() && i < |r.steps| && r.states[i].pc.Top? && r.states[i].mode == Running
    requires r.states[i].stop.requested && !r.steps[i].EnvMoves? && !r.steps[i].WorkerMoves?
    ensures r.steps[i] == LoopMoves(BeginDrain)
  {
    assert r.Follows(i);
  }

  /** The drain test passes exactly when no producer, no queued item and no rejected key is left and all is stopped. */
  lemma DrainPasses(r: Run, i: nat)
    requires r.Valid() && i < |r.steps| && r.steps[i] == DrainMoves(CheckDrain)
    ensures var h, pc' := r.states[i].shared, r.states[i + 1].pc;
            && (pc' == Sweep || pc' == Deadline)
            && (pc' == Sweep <==>
                  && h.producers == 0 && h.requests.stopped && h.auths.stopped && h.responses.stopped
                  && |h.requests.items| + |h.auths.items| + |h.responses.items| == 0 && |h.rejected| == 0)
  {
    assert r.Follows(i);
  }

  /** What the deadline has thrown away so far. */
  ghost predicate ThrownAway(s: State) {
    s.book.aborted ==>
      && s.shared.requests.stopped && s.shared.requests.items == []
      && (s.pc.AbortResponses? || s.pc.Done? ==> s.shared.auths.stopped && s.shared.auths.items == [])
      && (s.pc.Done? ==> s.shared.responses.stopped && s.shared.responses.items == [])
  }

  lemma StepThrowsAway(s: State, p: Step)
    requires Enabled(s, p) && ThrownAway(s) && (s.book.aborted ==> Over(s.pc))
    ensures ThrownAway(Next(s, p))
  {
    match p
    case ConnMoves(c) => ConnKeepsDeadline(s, c);
    case DecodeMoves(d) => DecodeKeepsDeadline(s, d);
    case _ =>
  }

  lemma ConnKeepsDeadline(s: State, p: ConnStep)
    requires ConnEnabled(s, p)
    ensures !Over(s.pc) && OnConn(s, p).book.aborted == s.book.aborted
  {
  }

  lemma DecodeKeepsDeadline(s: State, d: DecodeStep)
    requires DecodeEnabled(s, d)
    ensures !Over(s.pc) && Decoding(s, d).book.aborted == s.book.aborted
  {
  }

  lemma {:induction false} AlwaysThrownAway(r: Run, i: nat)
    requires r.Valid() && i < |r.states|
    ensures ThrownAway(r.states[i])
  {
    if i > 0 {
      AlwaysThrownAway(r, i - 1);
      AlwaysCrew(r, i - 1);
      assert r.Follows(i - 1);
      StepThrowsAway(r.states[i - 1], r.steps[i - 1]);
    }
  }

  /** However the gateway halts, no queue holds anything afterwards and none takes anything more. */
  lemma HaltedIsEmpty(r: Run, i: nat)
    requires r.Valid() && i < |r.states| && r.states[i].mode == Halted
    ensures var h := r.states[i].shared;
            && h.requests.stopped && h.auths.stopped && h.responses.stopped
            && h.requests.items == [] && h.auths.items == [] && h.responses.items == []
  {
    AlwaysThrownAway(r, i);
    AlwaysConns(r, i);
    AlwaysCrew(r, i);
  }
}
