/** Every step keeps the producer count, the wakeups and the conditions of a graceful end. */
module ServerCrewProof {
  import opened Bytes
  import opened Queues
  import opened Server
  import opened ServerSteps
  import opened ServerInvariant

  // -------------------------------------------------------------------------
  // Counting producers
  // -------------------------------------------------------------------------

  lemma {:induction false} ActiveUpdate(ws: seq<Worker>, i: nat, w: Worker)
    requires i < |ws|
    ensures Active(ws[i := w]) + (if Producing(ws[i]) then 1 else 0) == Active(ws) + if Producing(w) then 1 else 0
  {
    var front := ws[..|ws| - 1];
    if i == |ws| - 1 {
      assert ws[i := w][..|ws| - 1] == front;
    } else {
      ActiveUpdate(front, i, w);
      assert ws[i := w][..|ws| - 1] == front[i := w];
    }
  }

  lemma {:induction false} ActivePositive(ws: seq<Worker>, i: nat)
    requires i < |ws| && Producing(ws[i])
    ensures Active(ws) > 0
  {
    if i < |ws| - 1 {
      ActivePositive(ws[..|ws| - 1], i);
    }
  }

  /** With no producer left, every worker has left its queue stopped and empty. */
  lemma NoProducers(h: Shared, normals: nat, mode: Mode, aborted: bool)
    requires CrewOk(h, normals, mode, aborted) && h.producers == 0
    ensures forall i :: 0 <= i < |h.workers| ==> !Producing(h.workers[i])
    ensures h.requests.stopped && h.requests.items == [] && h.auths.stopped && h.auths.items == []
    ensures mode != Running
  {
    forall i | 0 <= i < |h.workers| ensures !Producing(h.workers[i]) {
      if Producing(h.workers[i]) {
        ActivePositive(h.workers, i);
      }
    }
    assert Quitting(h.workers[0]) && Quitting(h.workers[normals]);
  }

  // -------------------------------------------------------------------------
  // Workers
  // -------------------------------------------------------------------------

  lemma WorkKeepsClosing(h: Shared, normals: nat, mode: Mode, aborted: bool, cancelled: set<nat>, i: nat, w: WorkerStep)
    requires CrewOk(h, normals, mode, aborted) && WorkerEnabled(h, normals, cancelled, i, w)
    ensures var h' := Work(h, normals, cancelled, i, w);
            h'.producers == 0 ==> h'.responses.stopped || LastIsClosing(h'.workers)
  {
    var h' := Work(h, normals, cancelled, i, w);
    if Producing(h.workers[i]) {
      ActivePositive(h.workers, i);
    }
    if LastIsClosing(h.workers) {
      var j :| 0 <= j < |h.workers| && h.workers[j].Last?;
      assert j != i ==> h'.workers[j].Last?;
    }
    if h'.workers[i].Last? {
      assert LastIsClosing(h'.workers);
    }
  }

  lemma WorkKeepsCrewOk(h: Shared, normals: nat, mode: Mode, aborted: bool, cancelled: set<nat>, i: nat, w: WorkerStep)
    requires CrewOk(h, normals, mode, aborted) && WorkerEnabled(h, normals, cancelled, i, w)
    ensures CrewOk(Work(h, normals, cancelled, i, w), normals, mode, aborted)
  {
    var h' := Work(h, normals, cancelled, i, w);
    ActiveUpdate(h.workers, i, h'.workers[i]);
    if Producing(h.workers[i]) {
      ActivePositive(h.workers, i);
    }
    assert h'.workers == h.workers[i := h'.workers[i]];
    WorkKeepsClosing(h, normals, mode, aborted, cancelled, i, w);
  }

  /** A bell that was about to ring still is, unless it has just rung. */
  lemma WorkKeepsAlert(h: Shared, normals: nat, cancelled: set<nat>, i: nat, w: WorkerStep)
    requires WorkerEnabled(h, normals, cancelled, i, w)
    ensures Alerted(h) ==> Alerted(Work(h, normals, cancelled, i, w))
    ensures w.Push? || w.Record? || w.StopResponses? ==>
              Alerted(Work(h, normals, cancelled, i, w)) || Work(h, normals, cancelled, i, w).workers[i].Rejecting?
  {
    var h' := Work(h, normals, cancelled, i, w);
    if Rings(h.workers) {
      var j :| 0 <= j < |h.workers| && (h.workers[j].Notifying? || h.workers[j].LastNotifying?);
      if j != i {
        assert h'.workers[j] == h.workers[j];
      }
    }
    if h'.workers[i].Notifying? || h'.workers[i].LastNotifying? {
      assert Rings(h'.workers);
    }
  }

  /** What a worker published stays announced until the eventfd is rung. */
  lemma WorkKeepsAnnounced(h: Shared, normals: nat, cancelled: set<nat>, i: nat, w: WorkerStep)
    requires WorkerEnabled(h, normals, cancelled, i, w)
    ensures var h' := Work(h, normals, cancelled, i, w);
            && (h'.ev == 0 ==> h.ev == 0)
            && (h'.ev == 0 && AnswersAnnounced(h) ==> AnswersAnnounced(h'))
            && (h'.ev == 0 && RefusalsAnnounced(h) ==> RefusalsAnnounced(h'))
  {
    var h' := Work(h, normals, cancelled, i, w);
    if h'.ev == 0 {
      forall note | Announces(h.workers, note) ensures Announces(h'.workers, note) {
        var j :| 0 <= j < |h.workers| && h.workers[j] == Notifying(note);
        assert h'.workers[j] == h.workers[j];
      }
      if h'.workers[i].Notifying? {
        assert Announces(h'.workers, h'.workers[i].note);
      }
    }
  }

  /** Something waiting for the Reactor that is announced will wake it. */
  lemma AnnouncedRings(ws: seq<Worker>, note: Note)
    requires Announces(ws, note)
    ensures Rings(ws)
  {
  }

  lemma WaitingRings(h: Shared)
    requires (AnswersAnnounced(h) && h.responses.items != []) || (RefusalsAnnounced(h) && h.rejected != {})
    ensures Rings(h.workers)
  {
    if AnswersAnnounced(h) && h.responses.items != [] {
      assert h.responses.items[0] in h.responses.items;
      AnnouncedRings(h.workers, Answered(h.responses.items[0]));
    } else {
      var k :| k in h.rejected;
      AnnouncedRings(h.workers, Refused(k));
    }
  }

  lemma WorkKeepsDrained(h: Shared, normals: nat, mode: Mode, aborted: bool, cancelled: set<nat>, i: nat, w: WorkerStep)
    requires CrewOk(h, normals, mode, aborted) && WorkerEnabled(h, normals, cancelled, i, w) && Drained(h)
    ensures Drained(Work(h, normals, cancelled, i, w))
  {
    NoProducers(h, normals, mode, aborted);
    assert !Producing(h.workers[i]);
  }

  lemma WorkKeepsCrew(s: State, i: nat, w: WorkerStep)
    requires CrewInv(s) && WorkerEnabled(s.shared, s.normals, s.tokens.cancelled, i, w)
    ensures CrewInv(s.(shared := Work(s.shared, s.normals, s.tokens.cancelled, i, w)))
  {
    WorkKeepsCrewOk(s.shared, s.normals, s.mode, s.book.aborted, s.tokens.cancelled, i, w);
    WorkKeepsAlert(s.shared, s.normals, s.tokens.cancelled, i, w);
    WorkKeepsAnnounced(s.shared, s.normals, s.tokens.cancelled, i, w);
    if Drained(s.shared) {
      WorkKeepsDrained(s.shared, s.normals, s.mode, s.book.aborted, s.tokens.cancelled, i, w);
    }
  }

  // -------------------------------------------------------------------------
  // The Reactor
  // -------------------------------------------------------------------------

  lemma EnvKeepsCrew(s: State, e: EnvStep)
    requires CrewInv(s) && EnvEnabled(s, e)
    ensures CrewInv(Env(s, e))
  {
  }

  /** While the gateway accepts work, the response queue is open. */
  lemma OpenWhileRunning(s: State)
    requires CrewInv(s) && s.mode == Running && !Over(s.pc)
    ensures !s.shared.responses.stopped
  {
    if s.shared.responses.stopped {
      NoProducers(s.shared, s.normals, s.mode, s.book.aborted);
      assert false;
    }
  }

  lemma LoopKeepsCrew(s: State, l: LoopStep)
    requires CrewInv(s) && LoopEnabled(s, l) && Phased(s.mode, s.pc, s.conns)
    ensures CrewInv(Loop(s, l))
  {
    if s.mode == Running && !Over(s.pc) {
      OpenWhileRunning(s);
    }
  }

  /** A drain test that fails after the last producer left fails over something the Reactor is woken for. */
  lemma UndrainedAlerts(s: State)
    requires CrewInv(s) && s.pc.Check? && s.shared.responses.stopped && !Drained(s.shared)
    ensures Alerted(s.shared)
  {
    NoProducers(s.shared, s.normals, s.mode, s.book.aborted);
    if s.shared.ev == 0 {
      WaitingRings(s.shared);
    }
  }

  lemma DrainKeepsCrew(s: State, d: DrainStep)
    requires CrewInv(s) && DrainEnabled(s, d) && Phased(s.mode, s.pc, s.conns)
    requires d.SweepDone? ==> forall fd :: fd in s.conns ==> s.conns[fd].inFlight == 0
    ensures CrewInv(Drain(s, d))
  {
    if s.pc.Check? && s.shared.responses.stopped && !Drained(s.shared) {
      UndrainedAlerts(s);
    }
  }

  /** Places between which a step on a connection may move the Reactor. */
  predicate Inside(pc: Pc, pc': Pc) {
    || (WillDrain(pc) && WillDrain(pc'))
    || (pc.Rearm? && pc'.Rearm?)
    || (pc.CloseRejected? && pc'.CloseRejected?)
    || (pc.Sweep? && pc'.Sweep?)
  }

  lemma InsideKeepsCrew(s: State, s': State)
    requires CrewInv(s) && Inside(s.pc, s'.pc)
    requires s'.shared == s.shared && s'.mode == s.mode && s'.normals == s.normals && s'.stop == s.stop
    requires s'.book.aborted == s.book.aborted
    ensures CrewInv(s')
  {
  }

  lemma TakeKeepsCrew(s: State)
    requires CrewInv(s) && s.pc.Responses? && s.shared.responses.items != []
    ensures CrewInv(Take(s))
  {
  }

  /** What `applyResponse` leaves alone. */
  lemma ApplyFrame(s: State, r: Response, worker: bool, refusal: bytes, ok: bool)
    ensures var s' := Apply(s, r, worker, refusal, ok);
            && s'.mode == s.mode && s'.pc == s.pc && s'.nextId == s.nextId && s'.shared == s.shared
            && s'.normals == s.normals && s'.stop == s.stop && s'.config == s.config
            && s'.book.aborted == s.book.aborted
  {
  }

  lemma ApplyNextKeepsCrew(s: State, refusal: bytes, ok: bool)
    requires CrewInv(s) && s.pc.Responses? && s.shared.responses.items != []
    ensures CrewInv(Apply(Take(s), s.shared.responses.items[0], true, refusal, ok))
  {
    TakeKeepsCrew(s);
    ApplyFrame(Take(s), s.shared.responses.items[0], true, refusal, ok);
    InsideKeepsCrew(Take(s), Apply(Take(s), s.shared.responses.items[0], true, refusal, ok));
  }

  lemma EofKeepsCrew(s: State, s1: State, fd: int, ok: bool)
    requires CrewInv(s) && (s.pc.Handling? || s.pc.PeerEof?) && s1 == s.(pc := Handling)
    ensures CrewInv(MarkEof(s1, fd, ok))
  {
    InsideKeepsCrew(s, MarkEof(s1, fd, ok));
  }

  lemma WriteKeepsCrew(s: State, fd: int, n: nat, ok: bool)
    requires CrewInv(s) && s.pc.Handling? && fd in s.conns
    requires 0 < Unsent(s.conns[fd]) ==> n <= Unsent(s.conns[fd])
    ensures CrewInv(WriteTurn(s, fd, n, ok))
  {
    InsideKeepsCrew(s, WriteTurn(s, fd, n, ok));
  }

  lemma ConnStepKeepsCrew(s: State, p: ConnStep)
    requires CrewInv(s) && ConnEnabled(s, p)
    ensures CrewInv(OnConn(s, p))
  {
    match p
    case ApplyNext(refusal, ok) => ApplyNextKeepsCrew(s, refusal, ok);
    case Write(fd, n, ok) => WriteKeepsCrew(s, fd, n, ok);
    case HangUp(fd, ok) => EofKeepsCrew(s, s, fd, ok);
    case Eof(ok) => EofKeepsCrew(s, s.(pc := Handling), s.pc.key.fd, ok);
    case _ => InsideKeepsCrew(s, OnConn(s, p));
  }

  lemma PushAuthKeepsCrew(s: State, text: bytes)
    requires CrewInv(s) && s.pc.Admit? && s.pc.batch.auths != []
    ensures CrewInv(PushAuth(s, text))
  {
    if s.shared.auths.PushResult() != Pushed {
      InsideKeepsCrew(s, PushAuth(s, text));
    }
  }

  lemma PushRequestKeepsCrew(s: State, text: bytes)
    requires CrewInv(s) && s.pc.Admit? && s.pc.batch.requests != []
    ensures CrewInv(PushRequest(s, text))
  {
    if s.shared.requests.PushResult() != Pushed {
      InsideKeepsCrew(s, PushRequest(s, text));
    }
  }

  lemma ReplyKeepsCrew(s: State, refusal: bytes, ok: bool)
    requires CrewInv(s) && s.pc.Answer? && s.pc.batch.locals != []
    ensures CrewInv(ReplyOne(s, refusal, ok))
  {
    var s1 := s.(pc := Answer(s.pc.key, s.pc.batch.(locals := s.pc.batch.locals[1..]), s.pc.eof));
    ApplyFrame(s1, s.pc.batch.locals[0], false, refusal, ok);
    InsideKeepsCrew(s, ReplyOne(s, refusal, ok));
  }

  lemma DecodeStepKeepsCrew(s: State, d: DecodeStep)
    requires CrewInv(s) && DecodeEnabled(s, d)
    ensures CrewInv(Decoding(s, d))
  {
    match d
    case AdmitAuth(text) => PushAuthKeepsCrew(s, text);
    case AdmitRequest(text) => PushRequestKeepsCrew(s, text);
    case Reply(refusal, ok) => ReplyKeepsCrew(s, refusal, ok);
    case Sort(now, text) => InsideKeepsCrew(s, SortTurn(s, now, text));
    case _ => InsideKeepsCrew(s, Decoding(s, d));
  }
}
