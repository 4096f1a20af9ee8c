/**
 The gateway's data plane as a transition system: one Reactor thread that owns
 every connection, normal and AUTH workers, three bounded queues, the set of
 rejected responses and the eventfd.

 A step is what one thread does between two points where another thread can see
 or change shared state. The Reactor's place in its loop is `Pc`. Fields marked
 "history" are written and never read by a step.
 */
module Server {
  import opened Bytes
  import opened FrameCodec
  import opened Options
  import opened Queues
  import opened RateLimit

  // -------------------------------------------------------------------------
  // Values that cross threads
  // -------------------------------------------------------------------------

  const ERROR_RESP: byte := 7
  const AUTH: byte := 10
  const AUTH_RESP: byte := 11

  /** A connection's generation: the kernel reuses `fd`, never the pair. */
  datatype Key = Key(fd: int, cid: nat)

  /** `serial` is history: the request's place among all that entered the request queue. */
  datatype Request = Request(key: Key, frame: Frame, serial: nat)

  /** `token` names the shared cancellation flag. */
  datatype AuthTask = AuthTask(request: Request, token: nat)

  datatype Response = Response(key: Key, frame: Frame, client: Option<string>, close: bool, skipWrite: bool,
                               serial: nat)

  /** One piece of admitted work, as seen from its connection. */
  datatype Ticket = Ticket(key: Key, id: nat, auth: bool)

  function Itself(t: Ticket): Ticket {
    t
  }

  function RequestTicket(r: Request): Ticket {
    Ticket(r.key, r.frame.requestId, false)
  }

  function AuthTicket(t: AuthTask): Ticket {
    Ticket(t.request.key, t.request.frame.requestId, true)
  }

  function ResponseTicket(r: Response): Ticket {
    Ticket(r.key, r.frame.requestId, r.frame.kind == AUTH_RESP)
  }

  // -------------------------------------------------------------------------
  // State
  // -------------------------------------------------------------------------

  datatype Config = Config(maxBody: nat, maxConnections: nat, maxRequests: nat, outputLimit: nat)

  datatype Mode = Running | Draining | Halted

  /** The epoll interest of a client: EPOLLIN and EPOLLOUT. */
  datatype Interest = Interest(read: bool, write: bool)

  datatype Conn = Conn(
    cid: nat, input: bytes, output: bytes, offset: nat, client: string, authenticated: bool, pending: bool,
    closing: bool, readEof: bool, inFlight: nat, cancel: Option<nat>, interest: Interest,
    // History: requests decoded, responses applied, work admitted and not yet answered, bytes
    // handed to the socket, the output limit in force at the last append.
    asked: seq<Frame>, applied: seq<Frame>, outstanding: multiset<Ticket>, sent: bytes, limit: nat)

  /** What a worker has published and is about to notify the Reactor of. */
  datatype Note = Answered(response: Response) | Refused(key: Key)

  /** Where a worker is in its loop. */
  datatype Worker =
    | Idle                        // in pop
    | Busy(request: Request)      // dispatching
    | AuthBusy(task: AuthTask)    // popped an AUTH task
    | Ready(response: Response)   // about to push
    | Rejecting(key: Key)         // push refused, key not yet recorded
    | Notifying(note: Note)       // published, about to notify
    | Leaving                     // pop returned false
    | Last                        // the last producer, about to stop the response queue
    | LastNotifying
    | Gone

  /** What one call of `decodeAndEnqueue` has sorted its frames into. */
  datatype Batch = Batch(auths: seq<AuthTask>, requests: seq<Request>, locals: seq<Response>)

  const EMPTY := Batch([], [], [])

  datatype Pc =
    | Top                                              // head of the loop
    | Waiting                                          // in epoll_wait
    | Handling                                         // dispatching events
    | Classify(key: Key, todo: seq<Frame>, config: Config, batch: Batch, eof: bool, doomed: bool)
    | Admit(key: Key, batch: Batch, eof: bool)
    | Credit(key: Key, batch: Batch, eof: bool)        // pushed, in_flight_work not yet raised
    | Answer(key: Key, batch: Batch, eof: bool)        // applying local responses
    | PeerEof(key: Key)
    | Responses                                        // drainResponseQueue
    | Rejections                                       // drainRejectedResponses, before the swap
    | CloseRejected(keys: set<Key>)
    | Check                                            // after both drains
    | Sweep                                            // drainComplete, past its guards
    | Deadline
    | StopRequests | StopAuths | Rearm(fds: set<int>)  // beginDraining
    | AbortAuths | AbortResponses                      // past the deadline
    | Done

  /** What the workers read and write. */
  datatype Shared = Shared(
    requests: Queue<Request>, auths: Queue<AuthTask>, responses: Queue<Response>,
    workers: seq<Worker>, producers: nat, rejected: set<Key>, ev: nat,
    lost: seq<Ticket>)           // history: responses refused by the response queue

  /** `stop()` and the signal handler: the request, and the threads yet to notify. */
  datatype Stop = Stop(requested: bool, notifies: nat)

  /** Cancellation flags: those raised, the next fresh one, and (history) whose task each was made for. */
  datatype Tokens = Tokens(cancelled: set<nat>, next: nat, owner: map<nat, Key>)

  /** History. */
  datatype Book = Book(
    admitted: seq<Ticket>,       // what entered the request queue, in order
    served: seq<nat>,            // serials of the normal responses taken off the response queue
    members: set<Key>,           // generations that have authenticated
    cap: nat,                    // the largest connection limit ever in force
    finished: seq<Conn>,         // connections closed by the drain test
    aborted: bool)               // the shutdown deadline fired

  /** The first `normals` workers serve the request queue, the others the AUTH queue. */
  datatype State = State(
    mode: Mode, pc: Pc, conns: map<int, Conn>, nextId: nat, shared: Shared, normals: nat, stop: Stop,
    config: Config, windows: Windows, tokens: Tokens, book: Book)

  predicate Live(conns: map<int, Conn>, k: Key) {
    k.fd in conns && conns[k.fd].cid == k.cid
  }

  function KeyOf(fd: int, c: Conn): Key {
    Key(fd, c.cid)
  }

  function Unsent(c: Conn): int {
    |c.output| - c.offset
  }

  /** `connectionEvents` */
  function Events(mode: Mode, c: Conn): Interest {
    Interest(mode == Running && !c.closing && !c.readEof, c.offset < |c.output|)
  }

  /** `canCloseAfterDrain` */
  predicate CanClose(mode: Mode, c: Conn) {
    (c.closing || c.readEof || mode == Draining) && c.inFlight == 0 && c.offset >= |c.output|
  }

  /** The descriptors authenticated as `client`. */
  function Members(conns: map<int, Conn>, client: string): set<int> {
    set fd | fd in conns && conns[fd].authenticated && conns[fd].client == client
  }

  /** The client id a connection has before it authenticates is not looked at. */
  function Fresh(cid: nat, mode: Mode): Conn {
    Conn(cid, [], [], 0, "", false, false, false, false, 0, None, Interest(mode == Running, false),
         [], [], multiset{}, [], 0)
  }

  // -------------------------------------------------------------------------
  // eventfd
  // -------------------------------------------------------------------------

  const EVENTFD_MAX: nat := 0xffff_ffff_ffff_fffe

  /** `ReactorNotifier::notify`: a full counter refuses the write and is already readable. */
  function Notify(ev: nat): (r: nat)
    ensures r > 0
  {
    if ev < EVENTFD_MAX then ev + 1 else ev
  }

  // -------------------------------------------------------------------------
  // closeConnection and applyResponse
  // -------------------------------------------------------------------------

  function Cancel(tokens: Tokens, token: Option<nat>): Tokens {
    if token.Some? then tokens.(cancelled := tokens.cancelled + {token.value}) else tokens
  }

  /** What becomes of a connection: it stays, or is closed, by the drain test (`clean`) or not. */
  datatype Fate = Keep | Shut(clean: bool)

  /**
   The connection on `fd` now has record `c` and meets its fate. Closing is
   `closeConnection`: the record leaves the map, its cancellation flag is raised,
   and the client's rate-limit window goes with its last connection.
   */
  function Put(s: State, fd: int, c: Conn, fate: Fate): State {
    if fate.Keep? then s.(conns := s.conns[fd := c])
    else
      var conns := s.conns - {fd};
      s.(conns := conns, tokens := Cancel(s.tokens, c.cancel),
         windows := if c.authenticated && Members(conns, c.client) == {} then s.windows - {c.client} else s.windows,
         book := if fate.clean then s.book.(finished := s.book.finished + [c]) else s.book)
  }

  /** `closeConnection` by descriptor. */
  function CloseFd(s: State, fd: int): State {
    if fd in s.conns then Put(s, fd, s.conns[fd], Shut(false)) else s
  }

  /** `modifyConnectionEvents`: epoll_ctl may fail, and then the connection is closed. */
  function Registered(mode: Mode, c: Conn): Conn {
    c.(interest := Events(mode, c))
  }

  function IfOk(ok: bool): Fate {
    if ok then Keep else Shut(false)
  }

  /** Too many connections of this client: the answer turns into a refusal. */
  predicate OverLimit(s: State, r: Response) {
    r.client.Some? && |Members(s.conns, r.client.value) - {r.key.fd}| >= s.config.maxConnections
  }

  /** The response after the connection limit has been applied. */
  function Ruled(s: State, r: Response, refusal: bytes): (r': Response)
    ensures r'.key == r.key && r'.frame.requestId == r.frame.requestId && r'.skipWrite == r.skipWrite
  {
    if OverLimit(s, r) then
      r.(client := None, close := true, frame := r.frame.(kind := AUTH_RESP, payload := refusal))
    else r
  }

  /** The connection after its work is settled and the AUTH outcome is taken, before any output. */
  function Settled(c: Conn, r: Response, ruled: Response, worker: bool): Conn {
    var c1 := if worker then
                c.(inFlight := if c.inFlight == 0 then 0 else c.inFlight - 1,
                   outstanding := c.outstanding - multiset{ResponseTicket(r)})
              else c;
    var c2 := if r.frame.kind == AUTH_RESP || r.close then c1.(pending := false, cancel := None) else c1;
    if ruled.client.Some? then c2.(authenticated := true, client := ruled.client.value) else c2
  }

  /** The connection after `r` is appended to its output buffer. */
  function Appended(c: Conn, r: Response, limit: nat): Conn
    requires c.offset <= |c.output|
  {
    c.(output := c.output[c.offset..] + Encode(r.frame), offset := 0, closing := c.closing || r.close,
       applied := c.applied + [r.frame], limit := limit)
  }

  /**
   The answer does not go out: it asks for silence, or the client reads too
   slowly. An offset past the end never occurs; the clause only keeps this defined
   there.
   */
  predicate Withheld(c: Conn, r: Response, limit: nat) {
    (r.close && r.skipWrite) || c.offset > |c.output| || Unsent(c) + |Encode(r.frame)| > limit
  }

  /** `applyResponse`; `refusal` is the payload sent when the client has too many connections. */
  function Apply(s: State, r: Response, worker: bool, refusal: bytes, ok: bool): State {
    if !Live(s.conns, r.key) then s
    else
      var fd := r.key.fd;
      var ruled := Ruled(s, r, refusal);
      var c := Settled(s.conns[fd], r, ruled, worker);
      var s1 := if ruled.client.Some? then s.(book := s.book.(members := s.book.members + {r.key})) else s;
      if Withheld(c, ruled, s.config.outputLimit) then Put(s1, fd, c, Shut(false))
      else Put(s1, fd, Registered(s.mode, Appended(c, ruled, s.config.outputLimit)), IfOk(ok))
  }

  // -------------------------------------------------------------------------
  // What the handlers may answer
  // -------------------------------------------------------------------------

  predicate CopiesIdentity(q: Request, r: Response) {
    r.key == q.key && r.frame.version == q.frame.version && r.frame.requestId == q.frame.requestId
    && r.serial == q.serial
  }

  /** Any dispatcher answer, the internal-error answer included. */
  predicate NormalAnswer(q: Request, r: Response) {
    CopiesIdentity(q, r) && r.frame.kind != AUTH_RESP && r.client.None? && !r.close && !r.skipWrite
  }

  /** Any answer of `handleAuth`: it names a client or closes the connection. */
  predicate AuthAnswer(q: Request, r: Response) {
    CopiesIdentity(q, r) && r.frame.kind == AUTH_RESP && (r.close <==> r.client.None?) && !r.skipWrite
  }

  /** A locally made ERROR_RESP or AUTH_RESP. */
  function Local(k: Key, f: Frame, kind: byte, payload: bytes, close: bool): Response {
    Response(k, f.(kind := kind, payload := payload), None, close, false, 0)
  }
}
