/** Isolation, authentication, per-client limits, order and progress, over whole runs. */
module ServerOutcomes {
  import opened Bytes
  import opened Options
  import opened Server
  import opened ServerSteps
  import opened ServerInvariant
  import opened ServerRuns
  import opened ServerTheorems
  import opened ServerHistory
  import opened Tallies

  // -------------------------------------------------------------------------
  // Isolation
  // -------------------------------------------------------------------------

  /** The step applies a response of generation `k`, or closes `k` for a rejected one. */
  predicate Concerns(s: State, p: Step, k: Key) {
    && p.ConnMoves?
    && (|| (p.conn.ApplyNext? && s.shared.responses.items != [] && s.shared.responses.items[0].key == k)
        || p.conn == CloseOne(k))
  }

  /** Only the generation `k` may differ, and if it is gone nothing does. */
  ghost predicate Confined(s: State, s': State, k: Key) {
    && (forall fd :: fd in s.conns && KeyOf(fd, s.conns[fd]) != k ==>
          fd in s'.conns && s'.conns[fd] == s.conns[fd])
    && (!Live(s.conns, k) ==> s'.conns == s.conns && s'.windows == s.windows && s'.tokens == s.tokens)
  }

  lemma ApplyIsConfined(s: State, s1: State, r: Response, refusal: bytes, ok: bool)
    requires s1.conns == s.conns && s1.windows == s.windows && s1.tokens == s.tokens
    ensures Confined(s, Apply(s1, r, true, refusal, ok), r.key)
  {
  }

  lemma ConcernsOnly(s: State, p: Step, k: Key)
    requires Enabled(s, p) && Concerns(s, p, k)
    ensures Confined(s, Next(s, p), k)
  {
    if p.conn.ApplyNext? {
      ApplyIsConfined(s, Take(s), s.shared.responses.items[0], p.conn.refusal, p.conn.ok);
    }
  }

  /** In every run, such a step changes no connection of another generation. */
  lemma OnlyItsGeneration(r: Run, j: nat, k: Key, fd: int)
    requires r.Valid() && j < |r.steps| && Concerns(r.states[j], r.steps[j], k)
    requires fd in r.states[j].conns && KeyOf(fd, r.states[j].conns[fd]) != k
    ensures fd in r.states[j + 1].conns && r.states[j + 1].conns[fd] == r.states[j].conns[fd]
  {
    assert r.Follows(j);
    ConcernsOnly(r.states[j], r.steps[j], k);
  }

  /**
   Generation safety over runs. Once a generation is gone, its late responses and
   its rejected key change nothing, at any later step: no connection, whatever
   descriptor it has by then, no rate-limit window, no cancellation flag.
   */
  lemma StaleIsInert(r: Run, i: nat, j: nat, k: Key)
    requires r.Valid() && i <= j < |r.steps| && Concerns(r.states[j], r.steps[j], k)
    requires k.cid < r.states[i].nextId && !Live(r.states[i].conns, k)
    ensures var s, s' := r.states[j], r.states[j + 1];
            s'.conns == s.conns && s'.windows == s.windows && s'.tokens == s.tokens
  {
    DeadStayDead(r, i, j, k);
    assert r.Follows(j);
    ConcernsOnly(r.states[j], r.steps[j], k);
  }

  /** An AUTH task in a worker's hands is cancelled exactly when its connection is gone. */
  lemma CancelledMeansGone(r: Run, i: nat, w: nat)
    requires r.Valid() && i < |r.states| && w < |r.states[i].shared.workers|
    requires r.states[i].shared.workers[w].AuthBusy?
    ensures var s := r.states[i];
            var task := s.shared.workers[w].task;
            task.token in s.tokens.cancelled <==> !Live(s.conns, task.request.key)
  {
    AlwaysAuth(r, i);
    var s := r.states[i];
    assert TaskOk(s.shared.workers[w].task, s.conns, s.tokens);
  }

  // -------------------------------------------------------------------------
  // Authentication
  // -------------------------------------------------------------------------

  lemma {:induction false} MemberCounts(q: seq<Ticket>, t: Ticket)
    requires t in q
    ensures Tally(q, Itself, t) > 0
  {
    if q[|q| - 1] != t {
      assert t in q[..|q| - 1];
      MemberCounts(q[..|q| - 1], t);
    }
  }

  lemma InFlightIsOwed(s: State, fd: int, t: Ticket)
    requires Conserved(s.conns, s.shared) && fd in s.conns && t.key == KeyOf(fd, s.conns[fd])
    requires t in Everywhere(s.shared)
    ensures t in s.conns[fd].outstanding
  {
    MemberCounts(Everywhere(s.shared), t);
    EverywhereTally(s.shared, t);
    assert Live(s.conns, t.key);
  }

  /**
   An unauthenticated connection has an AUTH request on the way exactly while
   `auth_pending` is set, never a second one, and nothing else in flight. The one
   request is in a queue, with a worker, or with the Reactor itself.
   */
  lemma OneAuthAtATime(r: Run, i: nat, fd: int)
    requires r.Valid() && i < |r.states| && fd in r.states[i].conns && !r.states[i].book.aborted
    requires !r.states[i].conns[fd].authenticated
    ensures var s := r.states[i];
            var k := KeyOf(fd, s.conns[fd]);
            && Tally(Everywhere(s.shared), TicketKey, k) + AuthDesk(BatchOf(s.pc, k))
               == (if s.conns[fd].pending then 1 else 0)
            && (forall t :: t in Everywhere(s.shared) && t.key == k ==> t.auth)
  {
    AlwaysWork(r, i);
    AlwaysConns(r, i);
    var s := r.states[i];
    var k := KeyOf(fd, s.conns[fd]);
    assert ConnOk(s.mode, s.pc, k, s.conns[fd]);
    DebtsCounted(s, fd);
    forall t | t in Everywhere(s.shared) && t.key == k ensures t.auth {
      InFlightIsOwed(s, fd, t);
    }
  }

  /** An authenticated connection has no AUTH request anywhere, so it authenticates once. */
  lemma NoSecondAuth(r: Run, i: nat, fd: int)
    requires r.Valid() && i < |r.states| && fd in r.states[i].conns && !r.states[i].book.aborted
    requires r.states[i].conns[fd].authenticated
    ensures var s := r.states[i];
            var k := KeyOf(fd, s.conns[fd]);
            && !s.conns[fd].pending && BatchOf(s.pc, k).auths == []
            && (forall t :: t in Everywhere(s.shared) && t.key == k ==> !t.auth)
  {
    AlwaysWork(r, i);
    AlwaysConns(r, i);
    var s := r.states[i];
    var k := KeyOf(fd, s.conns[fd]);
    assert ConnOk(s.mode, s.pc, k, s.conns[fd]);
    forall t | t in Everywhere(s.shared) && t.key == k ensures !t.auth {
      InFlightIsOwed(s, fd, t);
    }
  }

  /** A request is pushed to the workers only for a live, authenticated connection, and never an AUTH request. */
  lemma AdmittedWhenAuthenticated(r: Run, i: nat)
    requires r.Valid() && i < |r.states| && r.states[i].pc.Admit? && r.states[i].pc.batch.requests != []
    ensures var s := r.states[i];
            var q := s.pc.batch.requests[0];
            Live(s.conns, q.key) && s.conns[q.key.fd].authenticated && q.frame.kind != AUTH
  {
    AlwaysConns(r, i);
    var s := r.states[i];
    var k := s.pc.key;
    assert s.pc.batch.requests[0] in s.pc.batch.requests;
    assert ConnOk(s.mode, s.pc, KeyOf(k.fd, s.conns[k.fd]), s.conns[k.fd]);
  }

  /** The dispatcher never meets an AUTH request, nor one of a generation that never authenticated. */
  lemma DispatcherSeesNoAuth(r: Run, i: nat, w: nat)
    requires r.Valid() && i < |r.states| && w < |r.states[i].shared.workers| && r.states[i].shared.workers[w].Busy?
    ensures r.states[i].shared.workers[w].request.frame.kind != AUTH
    ensures r.states[i].shared.workers[w].request.key in r.states[i].book.members
  {
    AlwaysAuth(r, i);
    assert WorkerOk(r.states[i].shared.workers[w], w < r.states[i].normals, r.states[i].book.members);
  }

  // -------------------------------------------------------------------------
  // Per-client limits
  // -------------------------------------------------------------------------

  /** The book's cap is a limit that was in force. */
  lemma {:induction false} CapWasInForce(r: Run, i: nat) returns (j: nat)
    requires r.Valid() && i < |r.states|
    ensures j <= i && r.states[j].config.maxConnections == r.states[i].book.cap
  {
    if i == 0 {
      j := 0;
    } else {
      var s, p := r.states[i - 1], r.steps[i - 1];
      assert r.Follows(i - 1);
      CapMoves(s, p);
      if r.states[i].book.cap == s.book.cap {
        j := CapWasInForce(r, i - 1);
      } else {
        j := i;
      }
    }
  }

  lemma CapMoves(s: State, p: Step)
    requires Enabled(s, p)
    ensures Next(s, p).book.cap == s.book.cap || Next(s, p).book.cap == Next(s, p).config.maxConnections
  {
    match p
    case ConnMoves(c) => ConnKeepsCap(s, c);
    case DecodeMoves(d) => DecodeKeepsCap(s, d);
    case _ =>
  }

  lemma ConnKeepsCap(s: State, p: ConnStep)
    requires ConnEnabled(s, p)
    ensures OnConn(s, p).book.cap == s.book.cap
  {
  }

  lemma DecodeKeepsCap(s: State, d: DecodeStep)
    requires DecodeEnabled(s, d)
    ensures Decoding(s, d).book.cap == s.book.cap
  {
  }

  /** No client ever holds more authenticated connections than a limit that was in force at some point so far. */
  lemma ConnectionCap(r: Run, i: nat, client: string) returns (j: nat)
    requires r.Valid() && i < |r.states|
    ensures j <= i && |Members(r.states[i].conns, client)| <= r.states[j].config.maxConnections
  {
    AlwaysLimits(r, i);
    j := CapWasInForce(r, i);
  }

  /** A rate-limit window never outlives its client's last connection. */
  lemma WindowsNeverLeak(r: Run, i: nat, client: string) returns (fd: int)
    requires r.Valid() && i < |r.states| && client in r.states[i].windows
    ensures fd in r.states[i].conns
    ensures r.states[i].conns[fd].authenticated && r.states[i].conns[fd].client == client
  {
    AlwaysLimits(r, i);
    fd := Any(Members(r.states[i].conns, client));
  }

  // -------------------------------------------------------------------------
  // Order
  // -------------------------------------------------------------------------

  /** The step applies a normal worker's response. */
  ghost predicate Serves(r: Run, i: nat)
    requires r.Valid() && i < |r.steps|
  {
    && r.steps[i].ConnMoves? && r.steps[i].conn.ApplyNext?
    && r.Follows(i) && r.states[i].shared.responses.items[0].frame.kind != AUTH_RESP
  }

  lemma {:induction false} FirstSerial(q: seq<Response>)
    requires q != [] && q[0].frame.kind != AUTH_RESP
    ensures NormalSerials(q) != [] && NormalSerials(q)[0] == q[0].serial
  {
    if |q| > 1 {
      FirstSerial(q[..|q| - 1]);
    }
  }

  /** With one normal worker, the next normal response is later than everything served. */
  lemma ServedInOrder(s: State, n: nat)
    requires OrderInv(s) && s.normals == 1 && |s.shared.workers| > 0
    requires s.shared.responses.items != [] && s.shared.responses.items[0].frame.kind != AUTH_RESP
    requires n in s.book.served
    ensures n < s.shared.responses.items[0].serial
  {
    FirstSerial(s.shared.responses.items);
    var all := s.book.served + Line(s.shared);
    var j :| 0 <= j < |s.book.served| && s.book.served[j] == n;
    assert all[j] == n;
    assert all[|s.book.served|] == s.shared.responses.items[0].serial;
  }

  lemma ServedIsSerialled(s: State)
    requires OrderInv(s)
    requires s.shared.responses.items != [] && s.shared.responses.items[0].frame.kind != AUTH_RESP
    ensures var q := s.shared.responses.items[0]; SerialOk(q.serial, ResponseTicket(q), s.book.admitted)
  {
    assert s.shared.responses.items[0] in s.shared.responses.items;
  }

  /** Applying notes the serial as served. */
  lemma ServingIsNoted(s: State, refusal: bytes, ok: bool)
    requires s.shared.responses.items != [] && s.shared.responses.items[0].frame.kind != AUTH_RESP
    ensures s.shared.responses.items[0].serial
            in Apply(Take(s), s.shared.responses.items[0], true, refusal, ok).book.served
  {
    var s' := Apply(Take(s), s.shared.responses.items[0], true, refusal, ok);
    assert s'.book.served == s.book.served + [s.shared.responses.items[0].serial];
  }

  /**
   With one normal worker, normal responses are applied in the order in which
   their requests were admitted: of two that are applied, the earlier one answers
   the request that was pushed first.
   */
  lemma SingleWorkerOrder(r: Run, i: nat, j: nat)
    requires r.Valid() && i < j < |r.steps| && r.states[i].normals == 1 && Serves(r, i) && Serves(r, j)
    ensures var a, b := r.states[i].shared.responses.items[0], r.states[j].shared.responses.items[0];
            var admitted := r.states[j].book.admitted;
            && a.serial < b.serial
            && SerialOk(a.serial, ResponseTicket(a), admitted)
            && SerialOk(b.serial, ResponseTicket(b), admitted)
  {
    ServedStaysServed(r, i, j);
    OrderAt(r, j, r.states[i].shared.responses.items[0].serial);
  }

  lemma ServedStaysServed(r: Run, i: nat, j: nat)
    requires r.Valid() && i < j < |r.states| && Serves(r, i)
    ensures var a := r.states[i].shared.responses.items[0];
            && a.serial in r.states[j].book.served
            && SerialOk(a.serial, ResponseTicket(a), r.states[j].book.admitted)
            && r.states[j].normals == r.states[i].normals
  {
    var s := r.states[i];
    SerialledAt(r, i);
    assert r.Follows(i);
    ServingIsNoted(s, r.steps[i].conn.refusal, r.steps[i].conn.ok);
    RunEvolves(r, i, i + 1);
    RunEvolves(r, i + 1, j);
  }

  lemma SerialledAt(r: Run, i: nat)
    requires r.Valid() && i < |r.steps| && Serves(r, i)
    ensures var q := r.states[i].shared.responses.items[0];
            SerialOk(q.serial, ResponseTicket(q), r.states[i].book.admitted)
  {
    AlwaysOrder(r, i);
    ServedIsSerialled(r.states[i]);
  }

  lemma OrderAt(r: Run, j: nat, n: nat)
    requires r.Valid() && j < |r.steps| && r.states[j].normals == 1 && Serves(r, j) && n in r.states[j].book.served
    ensures var b := r.states[j].shared.responses.items[0];
            n < b.serial && SerialOk(b.serial, ResponseTicket(b), r.states[j].book.admitted)
  {
    AlwaysOrder(r, j);
    AlwaysCrew(r, j);
    ServedInOrder(r.states[j], n);
    ServedIsSerialled(r.states[j]);
  }

  // -------------------------------------------------------------------------
  // Progress
  // -------------------------------------------------------------------------

  predicate ByReactor(p: Step) {
    p.LoopMoves? || p.DrainMoves? || p.ConnMoves? || p.DecodeMoves?
  }

  /** The Reactor always has a next step until it is done. */
  lemma ReactorNeverStuck(r: Run, i: nat) returns (p: Step)
    requires r.Valid() && i < |r.states| && !r.states[i].pc.Done?
    ensures ByReactor(p) && Enabled(r.states[i], p)
  {
    AlwaysConns(r, i);
    p := ReactorStep(r.states[i]);
  }

  lemma ReactorStep(s: State) returns (p: Step)
    requires Phased(s.mode, s.pc, s.conns) && !s.pc.Done?
    ensures ByReactor(p) && Enabled(s, p)
  {
    match s.pc {
      case Top => p := LoopMoves(if StopSeen(s) then BeginDrain else Wait);
      case Waiting => p := LoopMoves(Awake);
      case Handling => p := LoopMoves(HandlingDone);
      case Classify(_, todo, _, _, _, _) => p := DecodeMoves(if todo == [] then SortDone else Sort(0, []));
      case Admit(_, b, _) =>
        p := DecodeMoves(if b.auths != [] then AdmitAuth([])
                         else if b.requests != [] then AdmitRequest([])
                         else AdmitDone);
      case Credit(_, _, _) => p := DecodeMoves(Raise);
      case Answer(_, b, _) => p := DecodeMoves(if b.locals == [] then ReplyDone else Reply([], true));
      case PeerEof(_) => p := ConnMoves(Eof(true));
      case Responses =>
        p := if s.shared.responses.items == [] then DrainMoves(ResponsesDone) else ConnMoves(ApplyNext([], true));
      case Rejections => p := DrainMoves(Swap);
      case CloseRejected(keys) =>
        if keys == {} { p := DrainMoves(CloseDone); } else { var k :| k in keys; p := ConnMoves(CloseOne(k)); }
      case Check => p := DrainMoves(if s.mode == Draining then CheckDrain else CheckRunning);
      case Sweep =>
        if fd :| fd in s.conns && CanClose(s.mode, s.conns[fd]) {
          p := ConnMoves(SweepOne(fd));
        } else {
          p := DrainMoves(SweepDone);
        }
      case Deadline => p := DrainMoves(Pass);
      case StopRequests => p := LoopMoves(StopRequestQueue);
      case StopAuths => p := LoopMoves(StopAuthQueue);
      case Rearm(fds) =>
        if fds == {} { p := LoopMoves(RearmDone); } else { var fd := Any(fds); p := ConnMoves(RearmOne(fd, true)); }
      case AbortAuths => p := DrainMoves(AbortAuthQueue);
      case AbortResponses => p := DrainMoves(AbortResponseQueue);
    }
  }

  /** A worker is held up only in `pop`, on an open and empty queue. */
  lemma WorkersNeverStuck(s: State, i: nat) returns (w: WorkerStep)
    requires i < |s.shared.workers| && s.shared.workers[i] != Gone
    requires s.shared.workers[i].Idle? ==>
               if i < s.normals then s.shared.requests.items != [] || s.shared.requests.stopped
               else s.shared.auths.items != [] || s.shared.auths.stopped
    ensures WorkerEnabled(s.shared, s.normals, s.tokens.cancelled, i, w)
  {
    match s.shared.workers[i] {
      case Idle =>
        w := if i < s.normals then (if s.shared.requests.items == [] then Leave else TakeRequest)
             else if s.shared.auths.items == [] then Leave else TakeAuth;
      case Busy(q) =>
        w := Dispatch(Response(q.key, q.frame.(kind := ERROR_RESP), None, false, false, q.serial));
      case AuthBusy(t) =>
        var q := t.request;
        w := Authenticate(Response(q.key, q.frame.(kind := AUTH_RESP), None, true, false, q.serial));
      case Ready(_) => w := Push;
      case Rejecting(_) => w := Record;
      case Notifying(_) => w := Wake;
      case Leaving => w := Exit;
      case Last => w := StopResponses;
      case LastNotifying => w := FinalWake;
    }
  }
}
