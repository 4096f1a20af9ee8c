/** The invariant holds in every state of every run. */
module ServerRuns {
  import opened Server
  import opened ServerSteps
  import opened ServerInvariant
  import opened ServerWorkProof
  import opened ServerConnProof
  import opened ServerDecodeProof
  import opened ServerAuthProof
  import opened ServerLimitProof
  import opened ServerCrewProof
  import opened ServerOrderProof
  import opened Tallies

  // -------------------------------------------------------------------------
  // Steps
  // -------------------------------------------------------------------------

  lemma EnvKeeps(s: State, e: EnvStep)
    requires Inv(s) && EnvEnabled(s, e)
    ensures Inv(Env(s, e))
  {
    EnvKeepsWork(s, e);
    EnvKeepsConns(s, e);
    EnvKeepsAuth(s, e);
    EnvKeepsLimits(s, e);
    EnvKeepsCrew(s, e);
    EnvKeepsOrder(s, e);
  }

  lemma WorkKeeps(s: State, i: nat, w: WorkerStep)
    requires Inv(s) && WorkerEnabled(s.shared, s.normals, s.tokens.cancelled, i, w)
    ensures Inv(s.(shared := Work(s.shared, s.normals, s.tokens.cancelled, i, w)))
  {
    WorkKeepsWork(s, i, w);
    WorkKeepsConns(s, Work(s.shared, s.normals, s.tokens.cancelled, i, w));
    WorkKeepsAuth(s, i, w);
    WorkKeepsCrew(s, i, w);
    WorkKeepsOrder(s, i, w);
  }

  lemma LoopKeeps(s: State, l: LoopStep)
    requires Inv(s) && LoopEnabled(s, l)
    ensures Inv(Loop(s, l))
  {
    LoopKeepsWork(s, l);
    LoopKeepsConns(s, l);
    LoopKeepsAuth(s, l);
    LoopKeepsLimits(s, l);
    LoopKeepsCrew(s, l);
    LoopKeepsOrder(s, l);
  }

  lemma {:induction false} NothingHeld(ws: seq<Worker>, t: Ticket)
    requires forall i :: 0 <= i < |ws| ==> !Producing(ws[i])
    ensures InHands(ws, t) == 0
  {
    if ws != [] {
      NothingHeld(ws[..|ws| - 1], t);
    }
  }

  /** Once the producers are gone and every queue is empty, nothing is in flight for a live connection. */
  lemma DrainedIsIdle(s: State, fd: int)
    requires WorkInv(s) && CrewOk(s.shared, s.normals, s.mode, s.book.aborted) && !s.book.aborted
    requires Drained(s.shared) && !s.pc.CloseRejected? && fd in s.conns
    requires forall t :: t in s.conns[fd].outstanding ==> t.key == KeyOf(fd, s.conns[fd])
    ensures |s.conns[fd].outstanding| == 0
  {
    var h := s.shared;
    NoProducers(h, s.normals, s.mode, s.book.aborted);
    forall t: Ticket ensures s.conns[fd].outstanding[t] == 0 {
      if t in s.conns[fd].outstanding {
        NothingHeld(h.workers, t);
        assert Live(s.conns, t.key);
        assert Tally(h.lost, Itself, t) > 0;
        LostMember(h.lost, t);
        assert false;
      }
    }
    assert s.conns[fd].outstanding == multiset{};
  }

  lemma {:induction false} LostMember(q: seq<Ticket>, t: Ticket)
    requires Tally(q, Itself, t) > 0
    ensures t in q
  {
    if q[|q| - 1] != t {
      LostMember(q[..|q| - 1], t);
    }
  }

  lemma SweptIsIdle(s: State)
    requires Inv(s) && s.pc.Sweep?
    ensures forall fd :: fd in s.conns ==> s.conns[fd].inFlight == 0
  {
    forall fd | fd in s.conns ensures s.conns[fd].inFlight == 0 {
      assert ConnOk(s.mode, s.pc, KeyOf(fd, s.conns[fd]), s.conns[fd]);
      DrainedIsIdle(s, fd);
    }
  }

  lemma DrainKeeps(s: State, d: DrainStep)
    requires Inv(s) && DrainEnabled(s, d)
    ensures Inv(Drain(s, d))
  {
    if d.SweepDone? {
      SweptIsIdle(s);
    }
    DrainKeepsWork(s, d);
    DrainKeepsConns(s, d);
    DrainKeepsAuth(s, d);
    DrainKeepsLimits(s, d);
    DrainKeepsCrew(s, d);
    DrainKeepsOrder(s, d);
  }

  /** A response about to be applied to a live connection answers work the connection was credited for. */
  lemma ResponseIsOwed(s: State)
    requires Conserved(s.conns, s.shared) && s.shared.responses.items != []
    requires Live(s.conns, s.shared.responses.items[0].key)
    ensures var r := s.shared.responses.items[0];
            s.conns[r.key.fd].outstanding[ResponseTicket(r)] > 0
  {
    var r := s.shared.responses.items[0];
    TallyMember(s.shared.responses.items, ResponseTicket, 0);
    assert Live(s.conns, ResponseTicket(r).key);
  }

  lemma ConnStepKeeps(s: State, p: ConnStep)
    requires Inv(s) && ConnEnabled(s, p)
    ensures Inv(OnConn(s, p))
  {
    if p.ApplyNext? {
      ApplyReady(s);
    }
    ConnStepKeepsWork(s, p);
    ConnStepKeepsConns(s, p);
    ConnStepKeepsAuth(s, p);
    ConnStepKeepsLimits(s, p);
    ConnStepKeepsCrew(s, p);
    ConnStepKeepsOrder(s, p);
  }

  /** What the steps ask of the response at the front of the queue. */
  lemma ApplyReady(s: State)
    requires Inv(s) && s.pc.Responses? && s.shared.responses.items != []
    ensures Conserved(s.conns, s.shared)
    ensures var r := s.shared.responses.items[0];
            && AnswerOk(r)
            && (Live(s.conns, r.key) ==> s.conns[r.key.fd].outstanding[ResponseTicket(r)] > 0)
            && (Live(s.conns, r.key) && r.client.Some? ==> !s.conns[r.key.fd].authenticated)
  {
    var r := s.shared.responses.items[0];
    assert r in s.shared.responses.items;
    if Live(s.conns, r.key) {
      ResponseIsOwed(s);
      assert ConnOk(s.mode, s.pc, KeyOf(r.key.fd, s.conns[r.key.fd]), s.conns[r.key.fd]);
      if r.client.Some? {
        TakenAuth(s);
      }
    }
  }

  lemma DecodeReady(s: State, d: DecodeStep)
    requires WorkInv(s) && Phased(s.mode, s.pc, s.conns) && Ending(s.shared, s.pc, s.conns, s.book.aborted)
    requires DecodeEnabled(s, d)
    ensures Conserved(s.conns, s.shared)
    ensures d.Reply? ==> s.pc.batch.locals[0].client.None?
  {
    if d.Reply? {
      assert s.pc.batch.locals[0] in s.pc.batch.locals;
    }
  }

  lemma DecodeStepKeeps(s: State, d: DecodeStep)
    requires Inv(s) && DecodeEnabled(s, d)
    ensures Inv(Decoding(s, d))
  {
    DecodeReady(s, d);
    DecodeStepKeepsWork(s, d);
    DecodeStepKeepsConns(s, d);
    DecodeStepKeepsAuth(s, d);
    DecodeStepKeepsLimits(s, d);
    DecodeStepKeepsCrew(s, d);
    DecodeStepKeepsOrder(s, d);
  }

  /** Every step of every thread keeps the invariant. */
  lemma StepKeeps(s: State, p: Step)
    requires Inv(s) && Enabled(s, p)
    ensures Inv(Next(s, p))
  {
    match p
    case EnvMoves(e) => EnvKeeps(s, e);
    case WorkerMoves(i, w) => WorkKeeps(s, i, w);
    case LoopMoves(l) => LoopKeeps(s, l);
    case DrainMoves(d) => DrainKeeps(s, d);
    case ConnMoves(c) => ConnStepKeeps(s, c);
    case DecodeMoves(d) => DecodeStepKeeps(s, d);
  }

  // -------------------------------------------------------------------------
  // Runs
  // -------------------------------------------------------------------------

  lemma {:induction false} IdleCrew(ws: seq<Worker>)
    requires forall i :: 0 <= i < |ws| ==> ws[i] == Idle
    ensures Active(ws) == |ws|
    ensures forall t: Ticket :: InHands(ws, t) == 0
  {
    if ws != [] {
      IdleCrew(ws[..|ws| - 1]);
    }
  }

  lemma InitHolds(s: State)
    requires Init(s)
    ensures Inv(s)
  {
    IdleCrew(s.shared.workers);
    forall t: Ticket ensures Flight(s.shared, t) == 0 {
    }
    assert WorkInv(s);
    assert AuthInv(s);
    forall client: string ensures Members(s.conns, client) == {} {
    }
    assert LimitInv(s);
    assert OrderInv(s);
  }

  /** A run: any steps of any threads, in any order. */
  datatype Run = Run(states: seq<State>, steps: seq<Step>) {
    ghost predicate Valid() {
      && |states| == |steps| + 1
      && Init(states[0])
      && forall i: nat :: i < |steps| ==> Follows(i)
    }

    ghost predicate Follows(i: nat)
      requires i < |steps| && |states| == |steps| + 1
    {
      Enabled(states[i], steps[i]) && states[i + 1] == Next(states[i], steps[i])
    }
  }

  lemma FollowingKeeps(r: Run, i: nat, s': State)
    requires i < |r.steps| && |r.states| == |r.steps| + 1 && r.Follows(i) && Inv(r.states[i])
    requires s' == r.states[i + 1]
    ensures Inv(s')
  {
    StepKeeps(r.states[i], r.steps[i]);
  }

  lemma {:induction false} Always(r: Run, i: nat)
    requires r.Valid() && i < |r.states|
    ensures Inv(r.states[i])
  {
    if i == 0 {
      InitHolds(r.states[0]);
    } else {
      Always(r, i - 1);
      FollowingKeeps(r, i - 1, r.states[i]);
    }
  }

  lemma AlwaysWork(r: Run, i: nat)
    requires r.Valid() && i < |r.states|
    ensures WorkInv(r.states[i])
  {
    Always(r, i);
  }

  lemma AlwaysConns(r: Run, i: nat)
    requires r.Valid() && i < |r.states|
    ensures ConnInv(r.states[i])
  {
    Always(r, i);
  }

  lemma AlwaysAuth(r: Run, i: nat)
    requires r.Valid() && i < |r.states|
    ensures AuthInv(r.states[i])
  {
    Always(r, i);
  }

  lemma AlwaysLimits(r: Run, i: nat)
    requires r.Valid() && i < |r.states|
    ensures LimitInv(r.states[i])
  {
    Always(r, i);
  }

  lemma AlwaysCrew(r: Run, i: nat)
    requires r.Valid() && i < |r.states|
    ensures CrewInv(r.states[i])
  {
    Always(r, i);
  }

  lemma AlwaysOrder(r: Run, i: nat)
    requires r.Valid() && i < |r.states|
    ensures OrderInv(r.states[i])
  {
    Always(r, i);
  }
}
