/** The steps of the data plane: what each thread may do, and what it does. */
module ServerSteps {
  import opened Bytes
  import opened FrameCodec
  import opened Options
  import opened Queues
  import opened RateLimit
  import opened Server

  // -------------------------------------------------------------------------
  // Other threads: stop(), signals, the configuration puller
  // -------------------------------------------------------------------------

  datatype EnvStep = RequestStop | StopNotify | Reconfigure(config: Config)

  predicate EnvEnabled(s: State, e: EnvStep) {
    e.StopNotify? ==> s.stop.notifies > 0
  }

  function Env(s: State, e: EnvStep): State
    requires EnvEnabled(s, e)
  {
    match e
    case RequestStop => s.(stop := Stop(true, s.stop.notifies + 1))
    case StopNotify =>
      s.(stop := Stop(s.stop.requested, s.stop.notifies - 1), shared := s.shared.(ev := Notify(s.shared.ev)))
    case Reconfigure(config) =>
      s.(config := config,
         book := s.book.(cap := if config.maxConnections > s.book.cap then config.maxConnections else s.book.cap))
  }

  // -------------------------------------------------------------------------
  // Workers: normalWorkerLoop, authWorkerLoop, enqueueWorkerResponse, onResponseProducerExited
  // -------------------------------------------------------------------------

  datatype WorkerStep =
    | TakeRequest | TakeAuth | Leave
    | Dispatch(answer: Response) | DropCancelled | Authenticate(answer: Response)
    | Push | Record | Wake
    | Exit | StopResponses | FinalWake

  /** The producer count is a 32-bit unsigned atomic. */
  const PRODUCERS_MAX: nat := 0xffff_ffff

  predicate WorkerEnabled(h: Shared, normals: nat, cancelled: set<nat>, i: nat, w: WorkerStep) {
    && i < |h.workers|
    && match w
       case TakeRequest => i < normals && h.workers[i].Idle? && h.requests.items != []
       case TakeAuth => i >= normals && h.workers[i].Idle? && h.auths.items != []
       case Leave =>
         && h.workers[i].Idle?
         && (if i < normals then h.requests.items == [] && h.requests.stopped
             else h.auths.items == [] && h.auths.stopped)
       case Dispatch(r) => h.workers[i].Busy? && NormalAnswer(h.workers[i].request, r)
       case DropCancelled => h.workers[i].AuthBusy? && h.workers[i].task.token in cancelled
       case Authenticate(r) => h.workers[i].AuthBusy? && AuthAnswer(h.workers[i].task.request, r)
       case Push => h.workers[i].Ready?
       case Record => h.workers[i].Rejecting?
       case Wake => h.workers[i].Notifying?
       case Exit => h.workers[i].Leaving?
       case StopResponses => h.workers[i].Last?
       case FinalWake => h.workers[i].LastNotifying?
  }

  /** `response_queue_.push`: a refused response is gone, and its key is to be recorded. */
  function PushResponse(h: Shared, i: nat, r: Response): Shared
    requires i < |h.workers|
  {
    if h.responses.PushResult() == Pushed then
      h.(responses := h.responses.Push(r), workers := h.workers[i := Notifying(Answered(r))])
    else
      h.(lost := h.lost + [ResponseTicket(r)], workers := h.workers[i := Rejecting(r.key)])
  }

  function Work(h: Shared, normals: nat, cancelled: set<nat>, i: nat, w: WorkerStep): Shared
    requires WorkerEnabled(h, normals, cancelled, i, w)
  {
    match w
    case TakeRequest =>
      h.(workers := h.workers[i := Busy(h.requests.items[0])], requests := h.requests.Pop())
    case TakeAuth =>
      h.(workers := h.workers[i := AuthBusy(h.auths.items[0])], auths := h.auths.Pop())
    case Leave => h.(workers := h.workers[i := Leaving])
    case Dispatch(r) => h.(workers := h.workers[i := Ready(r)])
    case DropCancelled => h.(workers := h.workers[i := Idle])
    case Authenticate(r) => h.(workers := h.workers[i := Ready(r)])
    case Push => PushResponse(h, i, h.workers[i].response)
    case Record =>
      h.(workers := h.workers[i := Notifying(Refused(h.workers[i].key))], rejected := h.rejected + {h.workers[i].key})
    case Wake => h.(workers := h.workers[i := Idle], ev := Notify(h.ev))
    case Exit =>
      h.(workers := h.workers[i := if h.producers == 1 then Last else Gone],
         producers := if h.producers == 0 then PRODUCERS_MAX else h.producers - 1)
    case StopResponses => h.(workers := h.workers[i := LastNotifying], responses := h.responses.Stop())
    case FinalWake => h.(workers := h.workers[i := Gone], ev := Notify(h.ev))
  }

  // -------------------------------------------------------------------------
  // Reactor: its way around the loop
  // -------------------------------------------------------------------------

  /** Steps of `loop` and `beginDraining` that touch no connection. */
  datatype LoopStep =
    | BeginDrain | EpollError | StopRequestQueue | StopAuthQueue | RearmDone
    | Wait | Awake | Interrupted | Consume | HandlingDone

  predicate StopSeen(s: State) {
    s.stop.requested && s.mode == Running
  }

  predicate LoopEnabled(s: State, l: LoopStep) {
    match l
    case BeginDrain => s.pc.Top? && StopSeen(s)
    case EpollError => s.pc.Waiting?
    case StopRequestQueue => s.pc.StopRequests?
    case StopAuthQueue => s.pc.StopAuths?
    case RearmDone => s.pc.Rearm? && s.pc.fds == {}
    case Wait => s.pc.Top? && !StopSeen(s)
    case Awake => s.pc.Waiting?
    case Interrupted => s.pc.Waiting?
    case Consume => s.pc.Handling?
    case HandlingDone => s.pc.Handling?
  }

  function Loop(s: State, l: LoopStep): State
    requires LoopEnabled(s, l)
  {
    match l
    case BeginDrain => s.(mode := Draining, pc := StopRequests)
    case EpollError => if s.mode == Running then s.(mode := Draining, pc := StopRequests) else s.(pc := Top)
    case StopRequestQueue => s.(shared := s.shared.(requests := s.shared.requests.Stop()), pc := StopAuths)
    case StopAuthQueue => s.(shared := s.shared.(auths := s.shared.auths.Stop()), pc := Rearm(s.conns.Keys))
    case RearmDone => s.(pc := Top)
    case Wait => s.(pc := Waiting)
    case Awake => s.(pc := Handling)
    case Interrupted => s.(pc := Top)
    case Consume => s.(shared := s.shared.(ev := 0))
    case HandlingDone => s.(pc := Responses)
  }

  /** Steps after the events that touch no connection: the two drains, `drainComplete`, the deadline. */
  datatype DrainStep =
    | ResponsesDone | Swap | CloseDone | CheckRunning | CheckDrain | SweepDone
    | Pass | Expire | AbortAuthQueue | AbortResponseQueue

  /**
   The guards of `drainComplete`. Each is stable once the producer count is zero,
   so reading them one at a time is reading them together.
   */
  predicate Drained(h: Shared) {
    && h.producers == 0
    && h.requests.stopped && h.requests.items == []
    && h.auths.stopped && h.auths.items == []
    && h.responses.stopped && h.responses.items == []
    && h.rejected == {}
  }

  predicate DrainEnabled(s: State, d: DrainStep) {
    match d
    case ResponsesDone => s.pc.Responses? && s.shared.responses.items == []
    case Swap => s.pc.Rejections?
    case CloseDone => s.pc.CloseRejected? && s.pc.keys == {}
    case CheckRunning => s.pc.Check? && s.mode != Draining
    case CheckDrain => s.pc.Check? && s.mode == Draining
    case SweepDone => s.pc.Sweep? && forall fd :: fd in s.conns ==> !CanClose(s.mode, s.conns[fd])
    case Pass => s.pc.Deadline?
    case Expire => s.pc.Deadline?
    case AbortAuthQueue => s.pc.AbortAuths?
    case AbortResponseQueue => s.pc.AbortResponses?
  }

  function Drain(s: State, d: DrainStep): State
    requires DrainEnabled(s, d)
  {
    match d
    case ResponsesDone => s.(pc := Rejections)
    case Swap => s.(pc := CloseRejected(s.shared.rejected), shared := s.shared.(rejected := {}))
    case CloseDone => s.(pc := Check)
    case CheckRunning => s.(pc := Top)
    case CheckDrain => s.(pc := if Drained(s.shared) then Sweep else Deadline)
    case SweepDone => if s.conns == map[] then s.(mode := Halted, pc := Done) else s.(pc := Deadline)
    case Pass => s.(pc := Top)
    case Expire =>
      s.(shared := s.shared.(requests := s.shared.requests.Abort()), book := s.book.(aborted := true),
         pc := AbortAuths)
    case AbortAuthQueue => s.(shared := s.shared.(auths := s.shared.auths.Abort()), pc := AbortResponses)
    case AbortResponseQueue =>
      s.(shared := s.shared.(responses := s.shared.responses.Abort()), mode := Halted, pc := Done)
  }

  // -------------------------------------------------------------------------
  // Reactor: steps on one connection
  // -------------------------------------------------------------------------

  datatype ConnStep =
    | RearmOne(fd: int, ok: bool)                                        // beginDraining
    | Accept(fd: int, ok: bool) | Fail(fd: int) | HangUp(fd: int, ok: bool) | Write(fd: int, n: nat, ok: bool)
    | Eof(ok: bool)                                                      // handleRead, after recv returned 0
    | CloseOne(key: Key)                                                 // drainRejectedResponses
    | SweepOne(fd: int)                                                  // drainComplete
    | ApplyNext(refusal: bytes, ok: bool)                                // drainResponseQueue

  predicate ConnEnabled(s: State, p: ConnStep) {
    match p
    case RearmOne(fd, _) => s.pc.Rearm? && fd in s.pc.fds
    case Accept(fd, _) => s.pc.Handling? && s.mode == Running && fd !in s.conns
    case Fail(_) => s.pc.Handling?
    case HangUp(_, _) => s.pc.Handling?
    case Write(fd, n, _) =>
      s.pc.Handling? && fd in s.conns && (0 < Unsent(s.conns[fd]) ==> 0 < n <= Unsent(s.conns[fd]))
    case Eof(_) => s.pc.PeerEof?
    case CloseOne(k) => s.pc.CloseRejected? && k in s.pc.keys
    case SweepOne(fd) => s.pc.Sweep? && fd in s.conns && CanClose(s.mode, s.conns[fd])
    case ApplyNext(_, _) => s.pc.Responses? && s.shared.responses.items != []
  }

  function DoRearm(s: State, fd: int, ok: bool): State
    requires s.pc.Rearm?
  {
    var s1 := s.(pc := Rearm(s.pc.fds - {fd}));
    if fd in s.conns then Put(s1, fd, Registered(s.mode, s.conns[fd]), IfOk(ok)) else s1
  }

  /** The generation is spent even if the descriptor cannot be registered. */
  function DoAccept(s: State, fd: int, ok: bool): State {
    var s1 := s.(nextId := s.nextId + 1);
    if ok then s1.(conns := s.conns[fd := Fresh(s.nextId, s.mode)]) else s1
  }

  /** `markReadEof` */
  function MarkEof(s: State, fd: int, ok: bool): State {
    if fd !in s.conns then s
    else
      var c := s.conns[fd].(readEof := true);
      if CanClose(s.mode, c) then Put(s, fd, c, Shut(true))
      else if s.conns[fd].readEof then s
      else Put(s, fd, Registered(s.mode, c), IfOk(ok))
  }

  /** What `send` accepted is gone from the buffer; an emptied buffer is cleared. */
  function Sent(c: Conn, n: nat): Conn
    requires c.offset + n <= |c.output|
  {
    var c1 := c.(offset := c.offset + n, sent := c.sent + c.output[c.offset..c.offset + n]);
    if c1.offset == |c1.output| then c1.(output := [], offset := 0) else c1
  }

  /** One turn of `handleWrite`'s loop, in which `send` takes `n` bytes. */
  function WriteTurn(s: State, fd: int, n: nat, ok: bool): State
    requires fd in s.conns && (0 < Unsent(s.conns[fd]) ==> n <= Unsent(s.conns[fd]))
  {
    var c := if 0 < Unsent(s.conns[fd]) then Sent(s.conns[fd], n) else s.conns[fd];
    if c.offset < |c.output| then Put(s, fd, c, Keep)
    else if CanClose(s.mode, c) then Put(s, fd, c, Shut(true))
    else Put(s, fd, Registered(s.mode, c), IfOk(ok))
  }

  function CloseRejectedKey(s: State, k: Key): State
    requires s.pc.CloseRejected?
  {
    var s1 := s.(pc := CloseRejected(s.pc.keys - {k}));
    if Live(s.conns, k) then Put(s1, k.fd, s.conns[k.fd], Shut(false)) else s1
  }

  /** The front of the response queue is popped. */
  function Take(s: State): State
    requires s.shared.responses.items != []
  {
    var r := s.shared.responses.items[0];
    s.(shared := s.shared.(responses := s.shared.responses.Pop()),
       book := if r.frame.kind == AUTH_RESP then s.book else s.book.(served := s.book.served + [r.serial]))
  }

  function OnConn(s: State, p: ConnStep): State
    requires ConnEnabled(s, p)
  {
    match p
    case RearmOne(fd, ok) => DoRearm(s, fd, ok)
    case Accept(fd, ok) => DoAccept(s, fd, ok)
    case Fail(fd) => CloseFd(s, fd)
    case HangUp(fd, ok) => MarkEof(s, fd, ok)
    case Write(fd, n, ok) => WriteTurn(s, fd, n, ok)
    case Eof(ok) => MarkEof(s.(pc := Handling), s.pc.key.fd, ok)
    case CloseOne(k) => CloseRejectedKey(s, k)
    case SweepOne(fd) => Put(s, fd, s.conns[fd], Shut(true))
    case ApplyNext(refusal, ok) => Apply(Take(s), s.shared.responses.items[0], true, refusal, ok)
  }

  // -------------------------------------------------------------------------
  // Reactor: handleRead and decodeAndEnqueue
  // -------------------------------------------------------------------------

  /** `text` is the payload of a locally made answer. */
  datatype DecodeStep =
    | Read(fd: int, chunk: bytes, eof: bool)
    | Sort(now: int, text: bytes) | SortDone
    | AdmitAuth(text: bytes) | AdmitRequest(text: bytes) | Raise | AdmitDone
    | Reply(refusal: bytes, ok: bool) | ReplyDone

  predicate CanRead(s: State, fd: int) {
    s.mode == Running && fd in s.conns && !s.conns[fd].closing && !s.conns[fd].readEof
  }

  predicate DecodeEnabled(s: State, d: DecodeStep) {
    match d
    case Read(fd, chunk, eof) => s.pc.Handling? && CanRead(s, fd) && (eof ==> chunk == [])
    case Sort(_, _) => s.pc.Classify? && s.pc.todo != [] && Live(s.conns, s.pc.key)
    case SortDone => s.pc.Classify? && s.pc.todo == []
    case AdmitAuth(_) => s.pc.Admit? && s.pc.batch.auths != []
    case AdmitRequest(_) => s.pc.Admit? && s.pc.batch.auths == [] && s.pc.batch.requests != []
    case Raise => s.pc.Credit?
    case AdmitDone => s.pc.Admit? && s.pc.batch.auths == [] && s.pc.batch.requests == []
    case Reply(_, _) => s.pc.Answer? && s.pc.batch.locals != []
    case ReplyDone => s.pc.Answer? && s.pc.batch.locals == []
  }

  function FrameId(f: Frame): nat {
    f.requestId
  }

  /**
   One successful `recv`, or its end of file or EAGAIN, and the decoding that
   follows. A rejected length dooms the connection after its frames are sorted.
   */
  function ReadAndDecode(s: State, fd: int, chunk: bytes, eof: bool): State
    requires fd in s.conns
  {
    var c := s.conns[fd];
    var d := Decode(c.input + chunk, s.config.maxBody);
    var rest := if d.status == Invalid then c.input + chunk
                else if eof && d.status == NeedMore then []
                else d.rest;
    var s1 := s.(pc := Classify(KeyOf(fd, c), d.frames, s.config, EMPTY, eof, d.status == Invalid));
    Put(s1, fd, c.(input := rest, asked := c.asked + d.frames), Keep)
  }

  /** The connection is dropped, and with it everything sorted so far. */
  function Abandon(s: State, fd: int): State {
    CloseFd(s.(pc := Handling), fd)
  }

  /** An unauthenticated connection's AUTH frame becomes a task with a fresh cancellation flag. */
  function SortAuth(s: State, f: Frame): State
    requires s.pc.Classify? && s.pc.todo != [] && Live(s.conns, s.pc.key)
  {
    var k := s.pc.key;
    var token := s.tokens.next;
    var task := AuthTask(Request(k, f, 0), token);
    var s1 := s.(tokens := s.tokens.(owner := s.tokens.owner[token := k], next := token + 1),
                 pc := s.pc.(todo := s.pc.todo[1..], batch := s.pc.batch.(auths := s.pc.batch.auths + [task])));
    Put(s1, k.fd, s.conns[k.fd].(pending := true, cancel := Some(token)), Keep)
  }

  function SortLocal(s: State, r: Response): State
    requires s.pc.Classify? && s.pc.todo != []
  {
    s.(pc := s.pc.(todo := s.pc.todo[1..], batch := s.pc.batch.(locals := s.pc.batch.locals + [r])))
  }

  function SortRequest(s: State, f: Frame): State
    requires s.pc.Classify? && s.pc.todo != []
  {
    var r := Request(s.pc.key, f, 0);
    s.(pc := s.pc.(todo := s.pc.todo[1..], batch := s.pc.batch.(requests := s.pc.batch.requests + [r])))
  }

  /** An authenticated connection's request is rate limited. */
  function SortNormal(s: State, f: Frame, now: int, text: bytes): State
    requires s.pc.Classify? && s.pc.todo != [] && Live(s.conns, s.pc.key)
  {
    var client := s.conns[s.pc.key.fd].client;
    var w := WindowOf(s.windows, client);
    var s1 := s.(windows := s.windows[client := Counted(w, now, s.pc.config.maxRequests)]);
    if Admits(w, now, s.pc.config.maxRequests) then SortRequest(s1, f)
    else SortLocal(s1, Local(s.pc.key, f, ERROR_RESP, text, false))
  }

  /** One turn of the loop over the decoded requests. */
  function SortTurn(s: State, now: int, text: bytes): State
    requires s.pc.Classify? && s.pc.todo != [] && Live(s.conns, s.pc.key)
  {
    var k := s.pc.key;
    var f := s.pc.todo[0];
    var c := s.conns[k.fd];
    if |f.payload| + 10 > s.pc.config.maxBody then Abandon(s, k.fd)
    else if !c.authenticated then
      if f.kind != AUTH || c.pending then Abandon(s, k.fd) else SortAuth(s, f)
    else if f.kind == AUTH then SortLocal(s, Local(k, f, ERROR_RESP, text, false))
    else SortNormal(s, f, now, text)
  }

  /** History: the connection owes an answer for what was just pushed. */
  function Owe(conns: map<int, Conn>, t: Ticket): map<int, Conn> {
    if !Live(conns, t.key) then conns
    else
      var c := conns[t.key.fd];
      conns[t.key.fd := c.(outstanding := c.outstanding + multiset{t})]
  }

  /** A refused push leaves the item with the Reactor, which answers it itself. */
  function PushAuth(s: State, text: bytes): State
    requires s.pc.Admit? && s.pc.batch.auths != []
  {
    var task := s.pc.batch.auths[0];
    var batch := s.pc.batch.(auths := s.pc.batch.auths[1..]);
    if s.shared.auths.PushResult() == Pushed then
      s.(shared := s.shared.(auths := s.shared.auths.Push(task)), conns := Owe(s.conns, AuthTicket(task)),
         pc := Credit(s.pc.key, batch, s.pc.eof))
    else
      var r := Local(task.request.key, task.request.frame, AUTH_RESP, text, true);
      s.(pc := Admit(s.pc.key, batch.(locals := batch.locals + [r]), s.pc.eof))
  }

  function PushRequest(s: State, text: bytes): State
    requires s.pc.Admit? && s.pc.batch.requests != []
  {
    var request := s.pc.batch.requests[0].(serial := |s.book.admitted|);
    var batch := s.pc.batch.(requests := s.pc.batch.requests[1..]);
    if s.shared.requests.PushResult() == Pushed then
      s.(shared := s.shared.(requests := s.shared.requests.Push(request)),
         conns := Owe(s.conns, RequestTicket(request)),
         book := s.book.(admitted := s.book.admitted + [RequestTicket(request)]),
         pc := Credit(s.pc.key, batch, s.pc.eof))
    else
      var r := Local(request.key, request.frame, ERROR_RESP, text, false);
      s.(pc := Admit(s.pc.key, batch.(locals := batch.locals + [r]), s.pc.eof))
  }

  /** `++in_flight_work`, if the connection is still the same one. */
  function RaiseCount(s: State): State
    requires s.pc.Credit?
  {
    var k := s.pc.key;
    var s1 := s.(pc := Admit(k, s.pc.batch, s.pc.eof));
    if Live(s.conns, k) then Put(s1, k.fd, s.conns[k.fd].(inFlight := s.conns[k.fd].inFlight + 1), Keep) else s1
  }

  function ReplyOne(s: State, refusal: bytes, ok: bool): State
    requires s.pc.Answer? && s.pc.batch.locals != []
  {
    var rest := s.pc.batch.(locals := s.pc.batch.locals[1..]);
    Apply(s.(pc := Answer(s.pc.key, rest, s.pc.eof)), s.pc.batch.locals[0], false, refusal, ok)
  }

  function Decoding(s: State, d: DecodeStep): State
    requires DecodeEnabled(s, d)
  {
    match d
    case Read(fd, chunk, eof) => ReadAndDecode(s, fd, chunk, eof)
    case Sort(now, text) => SortTurn(s, now, text)
    case SortDone =>
      if s.pc.doomed then Abandon(s, s.pc.key.fd) else s.(pc := Admit(s.pc.key, s.pc.batch, s.pc.eof))
    case AdmitAuth(text) => PushAuth(s, text)
    case AdmitRequest(text) => PushRequest(s, text)
    case Raise => RaiseCount(s)
    case AdmitDone => s.(pc := Answer(s.pc.key, s.pc.batch, s.pc.eof))
    case Reply(refusal, ok) => ReplyOne(s, refusal, ok)
    case ReplyDone => s.(pc := if s.pc.eof then PeerEof(s.pc.key) else Handling)
  }

  // -------------------------------------------------------------------------
  // Runs
  // -------------------------------------------------------------------------

  datatype Step =
    | EnvMoves(env: EnvStep)
    | WorkerMoves(i: nat, work: WorkerStep)
    | LoopMoves(loop: LoopStep)
    | DrainMoves(drain: DrainStep)
    | ConnMoves(conn: ConnStep)
    | DecodeMoves(decode: DecodeStep)

  predicate Enabled(s: State, p: Step) {
    match p
    case EnvMoves(e) => EnvEnabled(s, e)
    case WorkerMoves(i, w) => WorkerEnabled(s.shared, s.normals, s.tokens.cancelled, i, w)
    case LoopMoves(l) => LoopEnabled(s, l)
    case DrainMoves(d) => DrainEnabled(s, d)
    case ConnMoves(p) => ConnEnabled(s, p)
    case DecodeMoves(d) => DecodeEnabled(s, d)
  }

  function Next(s: State, p: Step): State
    requires Enabled(s, p)
  {
    match p
    case EnvMoves(e) => Env(s, e)
    case WorkerMoves(i, w) => s.(shared := Work(s.shared, s.normals, s.tokens.cancelled, i, w))
    case LoopMoves(l) => Loop(s, l)
    case DrainMoves(d) => Drain(s, d)
    case ConnMoves(p) => OnConn(s, p)
    case DecodeMoves(d) => Decoding(s, d)
  }

  /** `start` has spawned at least one worker of each kind and entered the loop. */
  predicate Init(s: State) {
    var h := s.shared;
    && s.mode == Running && s.pc == Top && s.conns == map[] && s.nextId == 1
    && h == Shared(Queue([], h.requests.capacity, 0, false), Queue([], h.auths.capacity, 0, false),
                   Queue([], h.responses.capacity, 0, false), h.workers, |h.workers|, {}, 0, [])
    && 0 < s.normals < |h.workers|
    && (forall i :: 0 <= i < |h.workers| ==> h.workers[i] == Idle)
    && s.stop == Stop(false, 0) && s.windows == map[] && s.tokens == Tokens({}, 0, map[])
    && s.book == Book([], [], {}, s.config.maxConnections, [], false)
  }
}
