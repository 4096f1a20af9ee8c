/** For every connection limit, a run in which one client holds exactly that many connections. */
module ServerWitness {
  import opened Bytes
  import opened FrameCodec
  import opened Options
  import opened Queues
  import opened Server
  import opened ServerSteps
  import opened ServerRuns
  import opened ServerLife

  const HELLO := Frame(1, AUTH, 0, [])

  function Granted(k: Key): Response {
    Response(k, Frame(1, AUTH_RESP, 0, []), Some("a"), false, false, 0)
  }

  /** The first `m` descriptors are authenticated as one client, and a guest may be on the next. */
  ghost predicate Crowd(conns: map<int, Conn>, m: nat) {
    && (forall fd :: 0 <= fd < m ==> fd in conns && conns[fd].authenticated && conns[fd].client == "a")
    && (forall fd :: fd in conns ==> 0 <= fd <= m)
  }

  /** A gateway with a limit of `n` connections, one AUTH worker and room in its queues. */
  ghost predicate Stage(s: State, n: nat, m: nat, auths: seq<AuthTask>, responses: seq<Response>, worker: Worker) {
    && s.mode == Running && !s.stop.requested && s.config == Config(1048576, n, 100, 8388608)
    && s.normals == 1 && |s.shared.workers| == 2 && s.shared.workers[1] == worker && s.shared.rejected == {}
    && !s.shared.auths.stopped && s.shared.auths.capacity == 1 && s.shared.auths.items == auths
    && !s.shared.responses.stopped && s.shared.responses.capacity == 1 && s.shared.responses.items == responses
    && Crowd(s.conns, m)
  }

  /** The connection `k` has yet to authenticate. */
  ghost predicate Guest(conns: map<int, Conn>, k: Key, pending: bool) {
    && Live(conns, k)
    && var c := conns[k.fd];
       && !c.authenticated && c.pending == pending && !c.closing && !c.readEof
       && c.input == [] && c.output == [] && c.offset == 0
  }

  ghost predicate Quiet(s: State, n: nat, m: nat) {
    Stage(s, n, m, [], [], Idle)
  }

  // -------------------------------------------------------------------------
  // Steps
  // -------------------------------------------------------------------------

  lemma Accepts(s: State, n: nat, m: nat)
    requires Quiet(s, n, m) && s.pc == Handling && m !in s.conns
    ensures var p := ConnMoves(Accept(m, true));
            && Enabled(s, p) && Quiet(Next(s, p), n, m) && Next(s, p).pc == Handling
            && Guest(Next(s, p).conns, Key(m, s.nextId), false)
  {
  }

  lemma HelloDecodes()
    ensures Decode(Encode(HELLO), 1048576) == Decoded([HELLO], [], Ok)
  {
    DecodeOne(HELLO, 1048576);
  }

  lemma Hears(s: State, n: nat, m: nat, k: Key)
    requires Quiet(s, n, m) && s.pc == Handling && Guest(s.conns, k, false) && k.fd == m
    ensures var p := DecodeMoves(Read(m, Encode(HELLO), false));
            && Enabled(s, p) && Quiet(Next(s, p), n, m) && Guest(Next(s, p).conns, k, false)
            && Next(s, p).pc == Classify(k, [HELLO], s.config, EMPTY, false, false)
  {
    HelloDecodes();
    assert s.conns[m].input + Encode(HELLO) == Encode(HELLO);
  }

  lemma Sorts(s: State, n: nat, m: nat, k: Key)
    requires Quiet(s, n, m) && Guest(s.conns, k, false) && k.fd == m
    requires s.pc == Classify(k, [HELLO], s.config, EMPTY, false, false)
    ensures var p, task := DecodeMoves(Sort(0, [])), AuthTask(Request(k, HELLO, 0), s.tokens.next);
            && Enabled(s, p) && Quiet(Next(s, p), n, m) && Guest(Next(s, p).conns, k, true)
            && Next(s, p).pc == Classify(k, [], s.config, Batch([task], [], []), false, false)
  {
  }

  lemma Enqueues(s: State, n: nat, m: nat, k: Key, task: AuthTask)
    requires Quiet(s, n, m) && Guest(s.conns, k, true) && k.fd == m && task.request.key == k
    requires s.pc == Admit(k, Batch([task], [], []), false)
    ensures var p := DecodeMoves(AdmitAuth([]));
            && Enabled(s, p) && Stage(Next(s, p), n, m, [task], [], Idle) && Guest(Next(s, p).conns, k, true)
            && Next(s, p).pc == Credit(k, EMPTY, false)
  {
    assert s.shared.auths.PushResult() == Pushed;
    OweKeepsGuest(s.conns, m, k, AuthTicket(task));
  }

  lemma OweKeepsGuest(conns: map<int, Conn>, m: nat, k: Key, t: Ticket)
    requires Crowd(conns, m) && Guest(conns, k, true) && k.fd == m && t.key == k
    ensures Crowd(Owe(conns, t), m) && Guest(Owe(conns, t), k, true)
  {
  }

  lemma Raises(s: State, n: nat, m: nat, k: Key, task: AuthTask)
    requires Stage(s, n, m, [task], [], Idle) && Guest(s.conns, k, true) && k.fd == m
    requires s.pc == Credit(k, EMPTY, false)
    ensures var p := DecodeMoves(Raise);
            && Enabled(s, p) && Stage(Next(s, p), n, m, [task], [], Idle) && Guest(Next(s, p).conns, k, true)
            && Next(s, p).pc == Admit(k, EMPTY, false)
  {
  }

  lemma Joins(s: State, n: nat, m: nat, k: Key)
    requires Crowd(s.conns, m) && Guest(s.conns, k, true) && k.fd == m < n
    requires s.config == Config(1048576, n, 100, 8388608)
    ensures var s' := Apply(s, Granted(k), true, [], true);
            m in s'.conns && s'.conns[m].authenticated && s'.conns[m].client == "a"
  {
    FewOthers(s.conns, m);
    ApplyTakes(s, Granted(k), true, [], true);
  }

  lemma StaysCrowded(s: State, m: nat, k: Key)
    requires Crowd(s.conns, m) && k.fd == m
    ensures var s' := Apply(s, Granted(k), true, [], true);
            forall fd :: 0 <= fd < m ==> fd in s'.conns && s'.conns[fd].authenticated && s'.conns[fd].client == "a"
  {
    var s' := Apply(s, Granted(k), true, [], true);
    forall fd | 0 <= fd < m ensures fd in s'.conns && s'.conns[fd] == s.conns[fd] {
      ApplySpares(s, Granted(k), true, [], true, KeyOf(fd, s.conns[fd]));
    }
  }

  lemma Applies(s: State, n: nat, m: nat, k: Key)
    requires Stage(s, n, m, [], [Granted(k)], Idle) && Guest(s.conns, k, true) && k.fd == m < n && s.pc == Responses
    ensures var p := ConnMoves(ApplyNext([], true));
            && Enabled(s, p) && Quiet(Next(s, p), n, m + 1) && Next(s, p).pc == Responses
            && m + 1 !in Next(s, p).conns
  {
    var s1 := Take(s);
    Joins(s1, n, m, k);
    StaysCrowded(s1, m, k);
    ApplyElsewhere(s1, Granted(k), [], true);
    assert s1.shared.responses.items == [];
  }

  /** Applying an answer changes the connections and the book, and no key of the map but its own. */
  lemma ApplyElsewhere(s: State, a: Response, refusal: bytes, ok: bool)
    ensures var s' := Apply(s, a, true, refusal, ok);
            && s'.mode == s.mode && s'.pc == s.pc && s'.stop == s.stop && s'.config == s.config
            && s'.normals == s.normals && s'.shared == s.shared && s'.conns.Keys <= s.conns.Keys
  {
  }

  function Upto(m: nat): (s: set<int>)
    ensures |s| == m && forall fd :: fd in s <==> 0 <= fd < m
  {
    if m == 0 then {} else Upto(m - 1) + {m - 1}
  }

  lemma Fewer<T>(a: set<T>, b: set<T>)
    requires a <= b
    ensures |a| <= |b|
  {
    assert b == a + (b - a);
  }

  lemma FewOthers(conns: map<int, Conn>, m: nat)
    requires Crowd(conns, m)
    ensures |Others(conns, "a", m)| <= m
  {
    Fewer(Others(conns, "a", m), Upto(m));
  }

  // -------------------------------------------------------------------------
  // Runs
  // -------------------------------------------------------------------------

  function LastOf(r: Run): State
    requires r.states != []
  {
    r.states[|r.states| - 1]
  }

  lemma Grow(r: Run, p: Step) returns (r': Run)
    requires r.Valid() && Enabled(LastOf(r), p)
    ensures r'.Valid() && LastOf(r') == Next(LastOf(r), p) && r'.states[0] == r.states[0]
  {
    var s := LastOf(r);
    r' := Run(r.states + [Next(s, p)], r.steps + [p]);
    forall i: nat | i < |r'.steps| ensures r'.Follows(i) {
      if i < |r.steps| {
        assert r.Follows(i);
      }
    }
  }

  /** A guest arrives and asks. */
  lemma Arrival(q: Run, n: nat, m: nat) returns (r: Run, k: Key, task: AuthTask)
    requires q.Valid() && Quiet(LastOf(q), n, m) && LastOf(q).pc == Handling && m !in LastOf(q).conns
    ensures r.Valid() && r.states[0] == q.states[0]
    ensures k.fd == m && task.request == Request(k, HELLO, 0)
    ensures Quiet(LastOf(r), n, m) && Guest(LastOf(r).conns, k, true)
    ensures LastOf(r).pc == Admit(k, Batch([task], [], []), false)
  {
    Accepts(LastOf(q), n, m);
    k := Key(m, LastOf(q).nextId);
    r := Grow(q, ConnMoves(Accept(m, true)));
    Hears(LastOf(r), n, m, k);
    r := Grow(r, DecodeMoves(Read(m, Encode(HELLO), false)));
    Sorts(LastOf(r), n, m, k);
    task := AuthTask(Request(k, HELLO, 0), LastOf(r).tokens.next);
    r := Grow(r, DecodeMoves(Sort(0, [])));
    r := Grow(r, DecodeMoves(SortDone));
  }

  /** The guest's task is queued and the decode ends. */
  lemma Admission(q: Run, n: nat, m: nat, k: Key, task: AuthTask) returns (r: Run)
    requires q.Valid() && k.fd == m && task.request.key == k
    requires Quiet(LastOf(q), n, m) && Guest(LastOf(q).conns, k, true)
    requires LastOf(q).pc == Admit(k, Batch([task], [], []), false)
    ensures r.Valid() && r.states[0] == q.states[0]
    ensures Stage(LastOf(r), n, m, [task], [], Idle) && Guest(LastOf(r).conns, k, true) && LastOf(r).pc == Handling
  {
    Enqueues(LastOf(q), n, m, k, task);
    r := Grow(q, DecodeMoves(AdmitAuth([])));
    Raises(LastOf(r), n, m, k, task);
    r := Grow(r, DecodeMoves(Raise));
    r := DecodeEnd(r, n, m, k, task);
  }

  lemma DecodeEnd(q: Run, n: nat, m: nat, k: Key, task: AuthTask) returns (r: Run)
    requires q.Valid() && LastOf(q).pc == Admit(k, EMPTY, false)
    requires Stage(LastOf(q), n, m, [task], [], Idle) && Guest(LastOf(q).conns, k, true)
    ensures r.Valid() && r.states[0] == q.states[0]
    ensures Stage(LastOf(r), n, m, [task], [], Idle) && Guest(LastOf(r).conns, k, true) && LastOf(r).pc == Handling
  {
    r := Grow(q, DecodeMoves(AdmitDone));
    r := Grow(r, DecodeMoves(ReplyDone));
  }

  /** The AUTH worker takes the task and grants it. */
  lemma Grant(q: Run, n: nat, m: nat, k: Key, task: AuthTask) returns (r: Run)
    requires q.Valid() && task.request == Request(k, HELLO, 0)
    requires Stage(LastOf(q), n, m, [task], [], Idle) && Guest(LastOf(q).conns, k, true) && LastOf(q).pc == Handling
    ensures r.Valid() && r.states[0] == q.states[0]
    ensures Stage(LastOf(r), n, m, [], [], Ready(Granted(k))) && Guest(LastOf(r).conns, k, true)
    ensures LastOf(r).pc == Handling
  {
    r := Grow(q, WorkerMoves(1, TakeAuth));
    assert Stage(LastOf(r), n, m, [], [], AuthBusy(task));
    r := Grow(r, WorkerMoves(1, Authenticate(Granted(k))));
  }

  /** The answer reaches the Reactor. */
  lemma Publication(q: Run, n: nat, m: nat, k: Key) returns (r: Run)
    requires q.Valid() && LastOf(q).pc == Handling
    requires Stage(LastOf(q), n, m, [], [], Ready(Granted(k))) && Guest(LastOf(q).conns, k, true)
    ensures r.Valid() && r.states[0] == q.states[0]
    ensures Stage(LastOf(r), n, m, [], [Granted(k)], Idle) && Guest(LastOf(r).conns, k, true)
    ensures LastOf(r).pc == Responses
  {
    r := Grow(q, WorkerMoves(1, Push));
    assert Stage(LastOf(r), n, m, [], [Granted(k)], Notifying(Answered(Granted(k))));
    r := Grow(r, WorkerMoves(1, Wake));
    assert Stage(LastOf(r), n, m, [], [Granted(k)], Idle);
    r := Grow(r, LoopMoves(HandlingDone));
  }

  /** The Reactor finishes its turn and comes back. */
  lemma Return(q: Run, n: nat, m: nat) returns (r: Run)
    requires q.Valid() && Quiet(LastOf(q), n, m) && m !in LastOf(q).conns && LastOf(q).pc == Responses
    ensures r.Valid() && r.states[0] == q.states[0]
    ensures Quiet(LastOf(r), n, m) && m !in LastOf(r).conns && LastOf(r).pc == Check
  {
    r := Grow(q, DrainMoves(ResponsesDone));
    r := Grow(r, DrainMoves(Swap));
    assert Quiet(LastOf(r), n, m) && LastOf(r).conns == LastOf(q).conns;
    r := Grow(r, DrainMoves(CloseDone));
  }

  lemma NextTurn(q: Run, n: nat, m: nat) returns (r: Run)
    requires q.Valid() && Quiet(LastOf(q), n, m) && m !in LastOf(q).conns && LastOf(q).pc == Check
    ensures r.Valid() && r.states[0] == q.states[0]
    ensures Quiet(LastOf(r), n, m) && m !in LastOf(r).conns && LastOf(r).pc == Handling
  {
    r := Grow(q, DrainMoves(CheckRunning));
    assert Quiet(LastOf(r), n, m) && LastOf(r).conns == LastOf(q).conns;
    r := Grow(r, LoopMoves(Wait));
    r := Grow(r, LoopMoves(Awake));
  }

  lemma Opening(n: nat) returns (r: Run)
    ensures r.Valid() && r.states[0].config.maxConnections == n
    ensures Quiet(LastOf(r), n, 0) && 0 !in LastOf(r).conns && LastOf(r).pc == Handling
  {
    var h := Shared(Queue([], 1, 0, false), Queue([], 1, 0, false), Queue([], 1, 0, false), [Idle, Idle], 2, {}, 0, []);
    var s := State(Running, Top, map[], 1, h, 1, Stop(false, 0), Config(1048576, n, 100, 8388608), map[],
                   Tokens({}, 0, map[]), Book([], [], {}, n, [], false));
    r := Run([s], []);
    assert Init(s);
    r := Grow(r, LoopMoves(Wait));
    r := Grow(r, LoopMoves(Awake));
  }

  lemma Asking(q: Run, n: nat, m: nat) returns (r: Run, k: Key)
    requires q.Valid() && Quiet(LastOf(q), n, m) && m !in LastOf(q).conns && LastOf(q).pc == Handling
    ensures r.Valid() && r.states[0] == q.states[0] && k.fd == m && LastOf(r).pc == Responses
    ensures Stage(LastOf(r), n, m, [], [Granted(k)], Idle) && Guest(LastOf(r).conns, k, true)
  {
    var task;
    r, k, task := Arrival(q, n, m);
    r := Admission(r, n, m, k, task);
    r := Grant(r, n, m, k, task);
    r := Publication(r, n, m, k);
  }

  lemma Joining(q: Run, n: nat, m: nat, k: Key) returns (r: Run)
    requires q.Valid() && k.fd == m < n && LastOf(q).pc == Responses
    requires Stage(LastOf(q), n, m, [], [Granted(k)], Idle) && Guest(LastOf(q).conns, k, true)
    ensures r.Valid() && r.states[0] == q.states[0]
    ensures Quiet(LastOf(r), n, m + 1) && m + 1 !in LastOf(r).conns && LastOf(r).pc == Responses
  {
    Applies(LastOf(q), n, m, k);
    r := Grow(q, ConnMoves(ApplyNext([], true)));
  }

  lemma {:induction false} Filling(n: nat, m: nat) returns (r: Run)
    requires m <= n
    ensures r.Valid() && r.states[0].config.maxConnections == n
    ensures Quiet(LastOf(r), n, m) && m !in LastOf(r).conns && LastOf(r).pc == Handling
    decreases m
  {
    if m == 0 {
      r := Opening(n);
    } else {
      r := Filling(n, m - 1);
      var k;
      r, k := Asking(r, n, m - 1);
      r := Joining(r, n, m - 1, k);
      r := Return(r, n, m);
      r := NextTurn(r, n, m);
    }
  }

  /** The limit is exact: for every limit some run has one client holding that many connections, and no more. */
  lemma LimitIsReached(n: nat) returns (r: Run)
    ensures r.Valid() && r.states[0].config.maxConnections == n && LastOf(r).config.maxConnections == n
    ensures var conns := LastOf(r).conns;
            |set fd | fd in conns && conns[fd].authenticated && conns[fd].client == "a"| == n
  {
    r := Filling(n, n);
    var conns := LastOf(r).conns;
    assert (set fd | fd in conns && conns[fd].authenticated && conns[fd].client == "a") == Upto(n);
  }
}
