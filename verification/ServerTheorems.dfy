/** What the invariant says about runs of the data plane. */
module ServerTheorems {
  import opened FrameCodec
  import opened Queues
  import opened Server
  import opened ServerSteps
  import opened ServerInvariant
  import opened ServerConnProof
  import opened ServerCrewProof
  import opened ServerRuns
  import opened Tallies

  // -------------------------------------------------------------------------
  // Everything in flight, as one list
  // -------------------------------------------------------------------------

  function Tickets<T>(q: seq<T>, f: T -> Ticket): seq<Ticket> {
    if q == [] then [] else Tickets(q[..|q| - 1], f) + [f(q[|q| - 1])]
  }

  function HeldTickets(w: Worker): seq<Ticket> {
    match w
    case Busy(r) => [RequestTicket(r)]
    case AuthBusy(t) => [AuthTicket(t)]
    case Ready(r) => [ResponseTicket(r)]
    case _ => []
  }

  function HandTickets(ws: seq<Worker>): seq<Ticket> {
    if ws == [] then [] else HandTickets(ws[..|ws| - 1]) + HeldTickets(ws[|ws| - 1])
  }

  /** The request queue, the AUTH queue, the workers' hands, the response queue, the lost responses. */
  function Everywhere(h: Shared): seq<Ticket> {
    Tickets(h.requests.items, RequestTicket) + Tickets(h.auths.items, AuthTicket) + HandTickets(h.workers)
    + Tickets(h.responses.items, ResponseTicket) + h.lost
  }

  lemma {:induction false} TicketsTally<T>(q: seq<T>, f: T -> Ticket, t: Ticket)
    ensures Tally(Tickets(q, f), Itself, t) == Tally(q, f, t)
  {
    if q != [] {
      TicketsTally(q[..|q| - 1], f, t);
      TallyAppend(Tickets(q[..|q| - 1], f), f(q[|q| - 1]), Itself, t);
    }
  }

  lemma OneTally(x: Ticket, t: Ticket)
    ensures Tally([x], Itself, t) == if x == t then 1 else 0
  {
    TallyAppend([], x, Itself, t);
    assert [] + [x] == [x];
  }

  lemma HeldTally(w: Worker, t: Ticket)
    ensures Tally(HeldTickets(w), Itself, t) == Held(w, t)
  {
    match w
    case Busy(r) => OneTally(RequestTicket(r), t);
    case AuthBusy(a) => OneTally(AuthTicket(a), t);
    case Ready(r) => OneTally(ResponseTicket(r), t);
    case _ =>
  }

  lemma {:induction false} HandsTally(ws: seq<Worker>, t: Ticket)
    ensures Tally(HandTickets(ws), Itself, t) == InHands(ws, t)
  {
    if ws != [] {
      HandsTally(ws[..|ws| - 1], t);
      HeldTally(ws[|ws| - 1], t);
      TallyConcat(HandTickets(ws[..|ws| - 1]), HeldTickets(ws[|ws| - 1]), Itself, t);
    }
  }

  lemma EverywhereTally(h: Shared, t: Ticket)
    ensures Tally(Everywhere(h), Itself, t) == Flight(h, t)
  {
    var a, b := Tickets(h.requests.items, RequestTicket), Tickets(h.auths.items, AuthTicket);
    var c, d := HandTickets(h.workers), Tickets(h.responses.items, ResponseTicket);
    TallyConcat(a, b, Itself, t);
    TallyConcat(a + b, c, Itself, t);
    TallyConcat(a + b + c, d, Itself, t);
    TallyConcat(a + b + c + d, h.lost, Itself, t);
    TicketsTally(h.requests.items, RequestTicket, t);
    TicketsTally(h.auths.items, AuthTicket, t);
    TicketsTally(h.responses.items, ResponseTicket, t);
    HandsTally(h.workers, t);
  }

  function TicketKey(t: Ticket): Key {
    t.key
  }

  /** A multiset that agrees with a list on every ticket of `k`, and holds no other, has as many as the list. */
  lemma {:induction false} CountByKey(q: seq<Ticket>, m: multiset<Ticket>, k: Key)
    requires forall t: Ticket :: t.key == k ==> Tally(q, Itself, t) == m[t]
    requires forall t :: t in m ==> t.key == k
    ensures Tally(q, TicketKey, k) == |m|
    decreases |q|
  {
    if q == [] {
      assert m == multiset{} by {
        forall t: Ticket ensures m[t] == 0 {
          assert t.key == k ==> Tally(q, Itself, t) == 0;
        }
      }
    } else {
      var front, x := q[..|q| - 1], q[|q| - 1];
      var m' := if x.key == k then m - multiset{x} else m;
      if x.key == k {
        assert Tally(q, Itself, x) > 0;
        TakeOut(m, x);
      }
      forall t: Ticket | t.key == k ensures Tally(front, Itself, t) == m'[t] {
        assert Tally(q, Itself, t) == m[t];
      }
      CountByKey(front, m', k);
    }
  }

  lemma DebtsCounted(s: State, fd: int)
    requires Conserved(s.conns, s.shared) && fd in s.conns
    requires forall t :: t in s.conns[fd].outstanding ==> t.key == KeyOf(fd, s.conns[fd])
    ensures Tally(Everywhere(s.shared), TicketKey, KeyOf(fd, s.conns[fd])) == |s.conns[fd].outstanding|
  {
    var k := KeyOf(fd, s.conns[fd]);
    forall t: Ticket | t.key == k ensures Tally(Everywhere(s.shared), Itself, t) == s.conns[fd].outstanding[t] {
      EverywhereTally(s.shared, t);
      assert Live(s.conns, t.key);
    }
    CountByKey(Everywhere(s.shared), s.conns[fd].outstanding, k);
  }

  // -------------------------------------------------------------------------
  // No response is lost
  // -------------------------------------------------------------------------

  /**
   In-flight conservation. Until the shutdown deadline fires, a live connection's
   `in_flight_work` is the number of its items in the queues, in workers' hands
   and lost to a full response queue, except between a push and the increment
   that follows it. A lost response has its key on the way to the Reactor.
   */
  lemma InFlightConserved(r: Run, i: nat, fd: int)
    requires r.Valid() && i < |r.states| && fd in r.states[i].conns && !r.states[i].book.aborted
    ensures var s := r.states[i];
            var k := KeyOf(fd, s.conns[fd]);
            && s.conns[fd].inFlight + (if s.pc.Credit? && s.pc.key == k then 1 else 0)
               == Tally(Everywhere(s.shared), TicketKey, k)
            && (forall t :: t in s.shared.lost && t.key == k ==>
                  k in s.shared.rejected || (s.pc.CloseRejected? && k in s.pc.keys)
                  || IsRejecting(s.shared.workers, k))
  {
    AlwaysWork(r, i);
    AlwaysConns(r, i);
    var s := r.states[i];
    assert ConnOk(s.mode, s.pc, KeyOf(fd, s.conns[fd]), s.conns[fd]);
    DebtsCounted(s, fd);
  }

  /** "Worker completion without admitted work" cannot happen. */
  lemma CompletionsWereAdmitted(r: Run, i: nat)
    requires r.Valid() && i < |r.states|
    requires r.states[i].pc.Responses? && r.states[i].shared.responses.items != []
    ensures var s := r.states[i];
            var k := s.shared.responses.items[0].key;
            Live(s.conns, k) ==> s.conns[k.fd].inFlight > 0
  {
    Always(r, i);
    ApplyReady(r.states[i]);
    var s := r.states[i];
    var k := s.shared.responses.items[0].key;
    if Live(s.conns, k) {
      assert ConnOk(s.mode, s.pc, KeyOf(k.fd, s.conns[k.fd]), s.conns[k.fd]);
      TakeOut(s.conns[k.fd].outstanding, ResponseTicket(s.shared.responses.items[0]));
    }
  }

  /**
   Exactly one response per request. Every request id a connection has decoded is
   accounted for as often as it was decoded: answered, in flight, or with the
   Reactor in the decode it is working on.
   */
  lemma EachRequestOnce(r: Run, i: nat, fd: int, id: nat)
    requires r.Valid() && i < |r.states| && fd in r.states[i].conns && !r.states[i].book.aborted
    ensures var s := r.states[i];
            var k := KeyOf(fd, s.conns[fd]);
            Tally(s.conns[fd].asked, FrameId, id)
            == Tally(s.conns[fd].applied, FrameId, id) + Flight(s.shared, Ticket(k, id, true))
               + Flight(s.shared, Ticket(k, id, false)) + Desk(s.pc, k, id)
  {
    AlwaysWork(r, i);
    AlwaysConns(r, i);
    var s := r.states[i];
    var k := KeyOf(fd, s.conns[fd]);
    assert ConnOk(s.mode, s.pc, k, s.conns[fd]);
    assert Live(s.conns, Ticket(k, id, true).key) && Live(s.conns, Ticket(k, id, false).key);
    assert Accounted(s.pc, k, s.conns[fd]);
  }

  /** A connection closed by the drain test was answered once for every request and given every byte. */
  lemma DrainedConnectionsAreDone(r: Run, i: nat, c: Conn)
    requires r.Valid() && i < |r.states| && c in r.states[i].book.finished
    ensures c.sent == EncodeAll(c.applied)
    ensures forall id: nat :: Tally(c.asked, FrameId, id) == Tally(c.applied, FrameId, id)
  {
    AlwaysConns(r, i);
  }

  // -------------------------------------------------------------------------
  // Output
  // -------------------------------------------------------------------------

  /** Bytes sent, then bytes waiting, are the encodings of the applied responses; what waits is bounded. */
  lemma OutputStream(r: Run, i: nat, fd: int)
    requires r.Valid() && i < |r.states| && fd in r.states[i].conns
    ensures var c := r.states[i].conns[fd];
            && c.offset <= |c.output|
            && c.sent + c.output[c.offset..] == EncodeAll(c.applied)
            && |c.output| - c.offset <= c.limit
  {
    AlwaysConns(r, i);
    var s := r.states[i];
    assert ConnOk(s.mode, s.pc, KeyOf(fd, s.conns[fd]), s.conns[fd]);
  }

  /** A peer that decodes what it was sent sees a prefix of the responses applied. */
  lemma PeerSeesAPrefix(r: Run, i: nat, fd: int, limit: nat)
    requires r.Valid() && i < |r.states| && fd in r.states[i].conns
    requires AllFit(r.states[i].conns[fd].applied, limit)
    ensures Decode(r.states[i].conns[fd].sent, limit).status != Invalid
    ensures Decode(r.states[i].conns[fd].sent, limit).frames <= r.states[i].conns[fd].applied
  {
    OutputStream(r, i, fd);
    PrefixDecodes(r.states[i].conns[fd].applied, r.states[i].conns[fd].sent, limit);
  }

  /** The registered interest is what the connection's state calls for, outside `beginDraining`. */
  lemma InterestAgrees(r: Run, i: nat, fd: int)
    requires r.Valid() && i < |r.states| && fd in r.states[i].conns && r.states[i].mode != Halted
    requires var pc := r.states[i].pc; !pc.StopRequests? && !pc.StopAuths? && !pc.Rearm?
    ensures r.states[i].conns[fd].interest == Events(r.states[i].mode, r.states[i].conns[fd])
  {
    AlwaysConns(r, i);
    var s := r.states[i];
    assert ConnOk(s.mode, s.pc, KeyOf(fd, s.conns[fd]), s.conns[fd]);
  }

  /** A connection that is closing or at end of file still waits for work or output. */
  lemma NoZombies(r: Run, i: nat, fd: int)
    requires r.Valid() && i < |r.states| && fd in r.states[i].conns
    requires r.states[i].conns[fd].closing || r.states[i].conns[fd].readEof
    ensures r.states[i].conns[fd].inFlight > 0 || r.states[i].conns[fd].offset < |r.states[i].conns[fd].output|
  {
    AlwaysConns(r, i);
    var s := r.states[i];
    assert ConnOk(s.mode, s.pc, KeyOf(fd, s.conns[fd]), s.conns[fd]);
  }

  // -------------------------------------------------------------------------
  // Wakeups and shutdown
  // -------------------------------------------------------------------------

  /**
   No lost wakeup. If the Reactor is in epoll_wait with the eventfd at zero, then
   for every response and every rejected key that waits for it, the worker that
   published this very item has yet to notify; and so has a thread that asked for
   the stop, if one is waiting to be seen.
   */
  lemma NoLostWakeup(r: Run, i: nat)
    requires r.Valid() && i < |r.states| && r.states[i].pc.Waiting? && r.states[i].shared.ev == 0
    ensures var s := r.states[i];
            && (forall x :: x in s.shared.responses.items ==> Announces(s.shared.workers, Answered(x)))
            && (forall k :: k in s.shared.rejected ==> Announces(s.shared.workers, Refused(k)))
            && (s.stop.requested && s.mode == Running ==> s.stop.notifies > 0)
  {
    AlwaysCrew(r, i);
  }

  /** With every producer gone and every queue empty, no live connection has work in flight. */
  lemma DrainedMeansIdle(r: Run, i: nat, fd: int)
    requires r.Valid() && i < |r.states| && fd in r.states[i].conns
    requires Drained(r.states[i].shared) && !r.states[i].pc.CloseRejected? && !r.states[i].book.aborted
    ensures r.states[i].conns[fd].inFlight == 0
  {
    AlwaysWork(r, i);
    AlwaysConns(r, i);
    AlwaysCrew(r, i);
    var s := r.states[i];
    assert ConnOk(s.mode, s.pc, KeyOf(fd, s.conns[fd]), s.conns[fd]);
    DrainedIsIdle(s, fd);
  }

  /**
   If a draining Reactor sleeps after the last worker has gone, with nothing to
   wake it, then connections remain, every one of them has output to send, and it
   is registered for writing.
   */
  lemma DrainWaitsOnlyForOutput(r: Run, i: nat)
    requires r.Valid() && i < |r.states| && r.states[i].pc.Waiting? && r.states[i].mode == Draining
    requires r.states[i].shared.ev == 0
    requires forall j :: 0 <= j < |r.states[i].shared.workers| ==> r.states[i].shared.workers[j] == Gone
    ensures var s := r.states[i];
            && s.conns != map[]
            && forall fd :: fd in s.conns ==> s.conns[fd].offset < |s.conns[fd].output| && s.conns[fd].interest.write
  {
    AlwaysConns(r, i);
    AlwaysCrew(r, i);
    var s := r.states[i];
    AllGone(s);
    forall fd | fd in s.conns ensures s.conns[fd].interest == Events(s.mode, s.conns[fd]) {
      assert ConnOk(s.mode, s.pc, KeyOf(fd, s.conns[fd]), s.conns[fd]);
    }
  }

  lemma {:induction false} NoneActive(ws: seq<Worker>)
    requires forall j :: 0 <= j < |ws| ==> ws[j] == Gone
    ensures Active(ws) == 0
  {
    if ws != [] {
      NoneActive(ws[..|ws| - 1]);
    }
  }

  lemma AllGone(s: State)
    requires CrewInv(s) && s.pc.Waiting? && s.mode == Draining && s.shared.ev == 0
    requires forall j :: 0 <= j < |s.shared.workers| ==> s.shared.workers[j] == Gone
    ensures AllUnsent(s.conns)
  {
    NoneActive(s.shared.workers);
  }

  /** Before the deadline, the response queue never refuses a worker because it is stopped. */
  lemma NoStoppedRefusal(r: Run, i: nat, w: nat)
    requires r.Valid() && i < |r.states| && w < |r.states[i].shared.workers| && !r.states[i].book.aborted
    requires r.states[i].shared.workers[w].Ready?
    ensures r.states[i].shared.responses.PushResult() != Stopped
  {
    AlwaysCrew(r, i);
    ActivePositive(r.states[i].shared.workers, w);
  }

  /** The Reactor never meets a stopped queue while it admits work. */
  lemma AdmissionIsOpen(r: Run, i: nat)
    requires r.Valid() && i < |r.states| && r.states[i].pc.Admit?
    ensures r.states[i].shared.requests.PushResult() != Stopped
    ensures r.states[i].shared.auths.PushResult() != Stopped
  {
    AlwaysConns(r, i);
    AlwaysCrew(r, i);
  }

  /** A server that halts without hitting its deadline leaves no connection, no work and no worker behind. */
  lemma GracefulEnd(r: Run, i: nat)
    requires r.Valid() && i < |r.states| && r.states[i].mode == Halted && !r.states[i].book.aborted
    ensures var s := r.states[i];
            && s.conns == map[]
            && s.shared.requests.items == [] && s.shared.auths.items == [] && s.shared.responses.items == []
            && forall j :: 0 <= j < |s.shared.workers| ==> !Producing(s.shared.workers[j])
  {
    AlwaysConns(r, i);
    AlwaysCrew(r, i);
    var s := r.states[i];
    NoProducers(s.shared, s.normals, s.mode, s.book.aborted);
  }
}
