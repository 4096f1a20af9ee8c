/** Once the gateway drains, its workers finish after a bounded number of steps, whatever peers do. */
module ServerDrain {
  import opened Server
  import opened ServerSteps
  import opened ServerInvariant
  import opened ServerCrewProof
  import opened ServerRuns
  import opened ServerTheorems
  import opened ServerOutcomes

  // -------------------------------------------------------------------------
  // Work left
  // -------------------------------------------------------------------------

  /** How many steps a worker is from the end of its loop, if its queue is empty. */
  function Rank(w: Worker): nat {
    match w
    case Busy(_) => 8
    case AuthBusy(_) => 8
    case Ready(_) => 7
    case Rejecting(_) => 6
    case Notifying(_) => 5
    case Idle => 4
    case Leaving => 3
    case Last => 2
    case LastNotifying => 1
    case Gone => 0
  }

  function Ranks(ws: seq<Worker>): nat {
    if ws == [] then 0 else Ranks(ws[..|ws| - 1]) + Rank(ws[|ws| - 1])
  }

  /** A queued item costs at most five steps. */
  function WorkLeft(h: Shared): nat {
    5 * |h.requests.items| + 5 * |h.auths.items| + Ranks(h.workers)
  }

  lemma {:induction false} RanksUpdate(ws: seq<Worker>, i: nat, w: Worker)
    requires i < |ws|
    ensures Ranks(ws[i := w]) + Rank(ws[i]) == Ranks(ws) + Rank(w)
  {
    var front := ws[..|ws| - 1];
    if i == |ws| - 1 {
      assert ws[i := w][..|ws| - 1] == front;
    } else {
      RanksUpdate(front, i, w);
      assert ws[i := w][..|ws| - 1] == front[i := w];
    }
  }

  lemma {:induction false} NoRankIsGone(ws: seq<Worker>)
    requires Ranks(ws) == 0
    ensures forall i :: 0 <= i < |ws| ==> ws[i] == Gone
  {
    if ws != [] {
      NoRankIsGone(ws[..|ws| - 1]);
    }
  }

  /** Every worker step uses up work. */
  lemma WorkShrinks(h: Shared, normals: nat, cancelled: set<nat>, i: nat, w: WorkerStep)
    requires WorkerEnabled(h, normals, cancelled, i, w)
    ensures WorkLeft(Work(h, normals, cancelled, i, w)) < WorkLeft(h)
  {
    var h' := Work(h, normals, cancelled, i, w);
    RanksUpdate(h.workers, i, h'.workers[i]);
    assert h'.workers == h.workers[i := h'.workers[i]];
  }

  // -------------------------------------------------------------------------
  // Nobody adds work to a gateway that drains
  // -------------------------------------------------------------------------

  /** The step adds no work and does not reopen the gateway. */
  ghost predicate Winds(s: State, s': State) {
    s'.mode != Running && WorkLeft(s'.shared) <= WorkLeft(s.shared)
  }

  /** A gateway that drains reads and decodes nothing. */
  lemma NothingIsDecoded(s: State, d: DecodeStep)
    requires s.mode != Running && Phased(s.mode, s.pc, s.conns)
    ensures !DecodeEnabled(s, d)
  {
  }

  lemma ConnWinds(s: State, p: ConnStep)
    requires ConnEnabled(s, p) && s.mode != Running
    ensures Winds(s, OnConn(s, p))
  {
    match p
    case ApplyNext(refusal, ok) => ApplyFrame(Take(s), s.shared.responses.items[0], true, refusal, ok);
    case _ =>
  }

  lemma StepWinds(s: State, p: Step)
    requires Enabled(s, p) && s.mode != Running && Phased(s.mode, s.pc, s.conns)
    ensures Winds(s, Next(s, p))
    ensures p.WorkerMoves? ==> WorkLeft(Next(s, p).shared) < WorkLeft(s.shared)
  {
    match p
    case WorkerMoves(i, w) => WorkShrinks(s.shared, s.normals, s.tokens.cancelled, i, w);
    case ConnMoves(c) => ConnWinds(s, c);
    case DecodeMoves(d) => NothingIsDecoded(s, d);
    case _ =>
  }

  // -------------------------------------------------------------------------
  // Runs
  // -------------------------------------------------------------------------

  /** The number of worker steps from the `i`th state to the `j`th. */
  function WorkerSteps(r: Run, i: nat, j: nat): nat
    requires i <= j <= |r.steps|
    decreases j
  {
    if i == j then 0 else WorkerSteps(r, i, j - 1) + if r.steps[j - 1].WorkerMoves? then 1 else 0
  }

  /** From any moment of a drain on, the workers take no more steps than there was work left. */
  lemma {:induction false} DrainIsBounded(r: Run, i: nat, j: nat)
    requires r.Valid() && i <= j < |r.states| && r.states[i].mode != Running
    ensures r.states[j].mode != Running
    ensures WorkerSteps(r, i, j) + WorkLeft(r.states[j].shared) <= WorkLeft(r.states[i].shared)
    decreases j
  {
    if i < j {
      DrainIsBounded(r, i, j - 1);
      AlwaysConns(r, j - 1);
      assert r.Follows(j - 1);
      StepWinds(r.states[j - 1], r.steps[j - 1]);
    }
  }

  /** What it means that the producers are done. */
  ghost predicate ProducersDone(h: Shared) {
    && (forall w :: 0 <= w < |h.workers| ==> h.workers[w] == Gone)
    && h.producers == 0 && h.responses.stopped
    && h.requests.stopped && h.requests.items == [] && h.auths.stopped && h.auths.items == []
  }

  lemma AllGoneIsDone(s: State)
    requires CrewInv(s) && forall w :: 0 <= w < |s.shared.workers| ==> s.shared.workers[w] == Gone
    ensures ProducersDone(s.shared)
  {
    NoneActive(s.shared.workers);
    NoProducers(s.shared, s.normals, s.mode, s.book.aborted);
  }

  /** After as many worker steps as there was work left, the producers are done. */
  lemma ProducersFinish(r: Run, i: nat, j: nat)
    requires r.Valid() && i <= j < |r.states| && r.states[i].mode != Running
    requires WorkerSteps(r, i, j) >= WorkLeft(r.states[i].shared)
    ensures ProducersDone(r.states[j].shared)
  {
    DrainIsBounded(r, i, j);
    NoRankIsGone(r.states[j].shared.workers);
    AlwaysCrew(r, j);
    AllGoneIsDone(r.states[j]);
  }

  /** Until then some worker always has a step to take, once `beginDraining` has stopped both work queues. */
  lemma ProducersNeverStuck(r: Run, i: nat) returns (w: nat, p: WorkerStep)
    requires r.Valid() && i < |r.states| && !ProducersDone(r.states[i].shared)
    requires r.states[i].shared.requests.stopped && r.states[i].shared.auths.stopped
    ensures Enabled(r.states[i], WorkerMoves(w, p))
  {
    var s := r.states[i];
    AlwaysCrew(r, i);
    if forall v :: 0 <= v < |s.shared.workers| ==> s.shared.workers[v] == Gone {
      AllGoneIsDone(s);
    }
    w :| w < |s.shared.workers| && s.shared.workers[w] != Gone;
    p := WorkersNeverStuck(s, w);
  }

  // -------------------------------------------------------------------------
  // The last sweep
  // -------------------------------------------------------------------------

  /** No connection has output left to send. */
  ghost predicate AllSent(conns: map<int, Conn>) {
    forall fd :: fd in conns ==> conns[fd].offset >= |conns[fd].output|
  }

  /** While it sweeps, the Reactor only takes connections away, and it stops only when none is ready. */
  lemma SweepStep(s: State, p: Step)
    requires Enabled(s, p) && s.pc.Sweep?
    ensures Next(s, p).pc.Sweep? ==> AllSent(s.conns) ==> AllSent(Next(s, p).conns)
    ensures !Next(s, p).pc.Sweep? ==> p == DrainMoves(SweepDone)
  {
  }

  lemma AllReady(s: State)
    requires Inv(s) && s.pc.Sweep? && AllSent(s.conns)
    ensures forall fd :: fd in s.conns ==> CanClose(s.mode, s.conns[fd])
  {
    SweptIsIdle(s);
  }

  lemma {:induction false} SweepKeepsSent(r: Run, i: nat, j: nat)
    requires r.Valid() && i <= j < |r.states| && AllSent(r.states[i].conns)
    requires forall k :: i <= k <= j ==> r.states[k].pc.Sweep?
    ensures AllSent(r.states[j].conns)
    decreases j
  {
    if i < j {
      SweepKeepsSent(r, i, j - 1);
      assert r.Follows(j - 1);
      SweepStep(r.states[j - 1], r.steps[j - 1]);
    }
  }

  /**
   The drain ends: once the guards of `drainComplete` have passed and no connection
   has output left, the sweep that follows closes them all and the gateway halts.
   */
  lemma SweepHalts(r: Run, i: nat, j: nat)
    requires r.Valid() && i < j < |r.states| && AllSent(r.states[i].conns)
    requires (forall k :: i <= k < j ==> r.states[k].pc.Sweep?) && !r.states[j].pc.Sweep?
    ensures r.states[j].mode == Halted && r.states[j].conns == map[]
  {
    SweepKeepsSent(r, i, j - 1);
    var s, p := r.states[j - 1], r.steps[j - 1];
    assert r.Follows(j - 1);
    SweepStep(s, p);
    SweepLeavesAt(r, j - 1);
  }

  lemma SweepLeavesAt(r: Run, i: nat)
    requires r.Valid() && i < |r.states| && r.states[i].pc.Sweep? && AllSent(r.states[i].conns)
    requires DrainEnabled(r.states[i], SweepDone)
    ensures r.states[i].conns == map[]
  {
    Always(r, i);
    AllReady(r.states[i]);
    NoneIsBoth(r.states[i].mode, r.states[i].conns);
  }

  lemma NoneIsBoth(mode: Mode, conns: map<int, Conn>)
    requires forall fd :: fd in conns ==> CanClose(mode, conns[fd])
    requires forall fd :: fd in conns ==> !CanClose(mode, conns[fd])
    ensures conns == map[]
  {
    assert forall fd: int :: fd !in conns;
  }
}
