/** What holds of the data plane in every reachable state. */
module ServerInvariant {
  import opened FrameCodec
  import opened Options
  import opened RateLimit
  import opened Server
  import opened ServerSteps
  import opened Tallies

  // -------------------------------------------------------------------------
  // Work in flight
  // -------------------------------------------------------------------------

  /** How often a worker holds the work `t`. */
  function Held(w: Worker, t: Ticket): nat {
    match w
    case Busy(r) => if RequestTicket(r) == t then 1 else 0
    case AuthBusy(a) => if AuthTicket(a) == t then 1 else 0
    case Ready(r) => if ResponseTicket(r) == t then 1 else 0
    case _ => 0
  }

  function InHands(ws: seq<Worker>, t: Ticket): nat {
    if ws == [] then 0 else InHands(ws[..|ws| - 1], t) + Held(ws[|ws| - 1], t)
  }

  /** How often the work `t` is admitted and neither settled nor dropped. */
  function Flight(h: Shared, t: Ticket): nat {
    Tally(h.requests.items, RequestTicket, t) + Tally(h.auths.items, AuthTicket, t) + InHands(h.workers, t)
    + Tally(h.responses.items, ResponseTicket, t) + Tally(h.lost, Itself, t)
  }

  /** What a live connection is owed is exactly what is in flight for it. */
  ghost predicate Conserved(conns: map<int, Conn>, h: Shared) {
    forall t: Ticket :: Live(conns, t.key) ==> conns[t.key.fd].outstanding[t] == Flight(h, t)
  }

  /** No generation in use is yet to be handed out. */
  ghost predicate Dated(conns: map<int, Conn>, h: Shared, nextId: nat) {
    && (forall fd :: fd in conns ==> conns[fd].cid < nextId)
    && (forall t: Ticket :: Flight(h, t) > 0 ==> t.key.cid < nextId)
  }

  ghost predicate IsRejecting(ws: seq<Worker>, k: Key) {
    exists i :: 0 <= i < |ws| && ws[i] == Rejecting(k)
  }

  /** A lost response of a live connection still has its key on the way to the Reactor. */
  ghost predicate Awaited(conns: map<int, Conn>, h: Shared, pc: Pc) {
    forall t: Ticket :: t in h.lost && Live(conns, t.key) ==>
      t.key in h.rejected || (pc.CloseRejected? && t.key in pc.keys) || IsRejecting(h.workers, t.key)
  }

  // -------------------------------------------------------------------------
  // The Reactor's place in its loop
  // -------------------------------------------------------------------------

  /** Everything sorted by one decode belongs to its connection; only AUTH answers close. */
  ghost predicate BatchOk(k: Key, b: Batch) {
    && (forall t :: t in b.auths ==> t.request.key == k && t.request.frame.kind == AUTH)
    && (forall r :: r in b.requests ==> r.key == k && r.frame.kind != AUTH)
    && (forall r :: r in b.locals ==>
          r.key == k && r.client.None? && !r.skipWrite && (r.close <==> r.frame.kind == AUTH_RESP))
  }

  /** The connection being decoded is live and still reading, whatever other threads do. */
  ghost predicate Reading(conns: map<int, Conn>, k: Key) {
    Live(conns, k) && !conns[k.fd].closing && !conns[k.fd].readEof
  }

  ghost predicate Phased(mode: Mode, pc: Pc, conns: map<int, Conn>) {
    match pc
    case Classify(k, _, _, b, _, _) => mode == Running && Reading(conns, k) && BatchOk(k, b)
    case Admit(k, b, _) => mode == Running && Reading(conns, k) && BatchOk(k, b)
    case Credit(k, b, _) => mode == Running && Reading(conns, k) && BatchOk(k, b)
    case Answer(k, b, _) =>
      mode == Running && BatchOk(k, b) && b.auths == [] && b.requests == [] && (k.fd in conns ==> Live(conns, k))
    case PeerEof(k) => mode == Running && (k.fd in conns ==> Live(conns, k))
    case Sweep => mode == Draining
    case Deadline => mode == Draining
    case StopRequests => mode == Draining
    case StopAuths => mode == Draining
    case Rearm(_) => mode == Draining
    case AbortAuths => mode == Draining
    case AbortResponses => mode == Draining
    case Done => mode == Halted
    case _ => mode != Halted
  }

  function TaskId(t: AuthTask): nat {
    t.request.frame.requestId
  }

  function RequestId(r: Request): nat {
    r.frame.requestId
  }

  function ResponseId(r: Response): nat {
    r.frame.requestId
  }

  function Closes(r: Response): bool {
    r.close
  }

  /** Requests with id `id` that a decode has sorted and not yet pushed or answered. */
  function BatchIds(b: Batch, id: nat): nat {
    Tally(b.auths, TaskId, id) + Tally(b.requests, RequestId, id) + Tally(b.locals, ResponseId, id)
  }

  /** Requests of `k` with id `id` that the Reactor is working on. */
  function Desk(pc: Pc, k: Key, id: nat): nat {
    match pc
    case Classify(key, todo, _, b, _, _) => if key == k then Tally(todo, FrameId, id) + BatchIds(b, id) else 0
    case Admit(key, b, _) => if key == k then BatchIds(b, id) else 0
    case Credit(key, b, _) => if key == k then BatchIds(b, id) else 0
    case Answer(key, b, _) => if key == k then BatchIds(b, id) else 0
    case _ => 0
  }

  function BatchOf(pc: Pc, k: Key): Batch {
    match pc
    case Classify(key, _, _, b, _, _) => if key == k then b else EMPTY
    case Admit(key, b, _) => if key == k then b else EMPTY
    case Credit(key, b, _) => if key == k then b else EMPTY
    case Answer(key, b, _) => if key == k then b else EMPTY
    case _ => EMPTY
  }

  /** AUTH work of a connection that is with the Reactor itself. */
  function AuthDesk(b: Batch): nat {
    |b.auths| + Tally(b.locals, Closes, true)
  }

  // -------------------------------------------------------------------------
  // One connection
  // -------------------------------------------------------------------------

  /** Bytes sent, then bytes waiting, are the encodings of the responses applied. */
  ghost predicate Streams(c: Conn) {
    && c.offset <= |c.output|
    && c.sent + c.output[c.offset..] == EncodeAll(c.applied)
    && Unsent(c) <= c.limit
  }

  /** A connection that only waits to be closed still has work or output to wait for. */
  ghost predicate Lively(c: Conn) {
    c.closing || c.readEof ==> c.inFlight > 0 || c.offset < |c.output|
  }

  /** Every decoded request is answered, in flight or with the Reactor, and in exactly one of these. */
  ghost predicate Accounted(pc: Pc, k: Key, c: Conn) {
    && c.inFlight + (if pc.Credit? && pc.key == k then 1 else 0) == |c.outstanding|
    && forall id: nat ::
         Tally(c.asked, FrameId, id)
         == Tally(c.applied, FrameId, id) + c.outstanding[Ticket(k, id, true)] + c.outstanding[Ticket(k, id, false)]
            + Desk(pc, k, id)
  }

  /** `auth_pending` is the one AUTH request an unauthenticated connection may have outstanding. */
  ghost predicate AuthTracked(b: Batch, k: Key, c: Conn) {
    && (forall t :: t in c.outstanding ==> t.key == k && (t.auth <==> !c.authenticated))
    && if c.authenticated then !c.pending && AuthDesk(b) == 0
       else |c.outstanding| + AuthDesk(b) == (if c.pending then 1 else 0) && b.requests == []
  }

  /** The registered epoll interest is the one the connection's state calls for. */
  ghost predicate Armed(mode: Mode, pc: Pc, fd: int, c: Conn) {
    || pc.StopRequests? || pc.StopAuths? || (pc.Rearm? && fd in pc.fds) || mode == Halted
    || c.interest == Events(mode, c)
  }

  ghost predicate ConnOk(mode: Mode, pc: Pc, k: Key, c: Conn) {
    Streams(c) && Lively(c) && Accounted(pc, k, c) && AuthTracked(BatchOf(pc, k), k, c) && Armed(mode, pc, k.fd, c)
  }

  ghost predicate ConnsOk(mode: Mode, pc: Pc, conns: map<int, Conn>) {
    forall fd :: fd in conns ==> ConnOk(mode, pc, KeyOf(fd, conns[fd]), conns[fd])
  }

  /** A connection closed by the drain test answered every request once and handed over every byte. */
  ghost predicate Clean(c: Conn) {
    && c.inFlight == 0
    && c.sent == EncodeAll(c.applied)
    && forall id: nat :: Tally(c.asked, FrameId, id) == Tally(c.applied, FrameId, id)
  }

  ghost predicate AllClean(finished: seq<Conn>) {
    forall c :: c in finished ==> Clean(c)
  }

  // -------------------------------------------------------------------------
  // Authentication, cancellation, per-client limits
  // -------------------------------------------------------------------------

  ghost predicate AnswerOk(r: Response) {
    !r.skipWrite && if r.frame.kind == AUTH_RESP then r.close <==> r.client.None? else r.client.None? && !r.close
  }

  ghost predicate NormalRequest(r: Request, members: set<Key>) {
    r.frame.kind != AUTH && r.key in members
  }

  ghost predicate WorkerOk(w: Worker, normal: bool, members: set<Key>) {
    match w
    case Busy(r) => normal && NormalRequest(r, members)
    case AuthBusy(t) => !normal && t.request.frame.kind == AUTH
    case Ready(r) => AnswerOk(r) && (r.frame.kind == AUTH_RESP <==> !normal)
    case _ => true
  }

  /** AUTH work and normal work never meet. */
  ghost predicate ItemsOk(h: Shared, normals: nat, members: set<Key>) {
    && (forall r :: r in h.requests.items ==> NormalRequest(r, members))
    && (forall t :: t in h.auths.items ==> t.request.frame.kind == AUTH)
    && (forall r :: r in h.responses.items ==> AnswerOk(r))
    && (forall i :: 0 <= i < |h.workers| ==> WorkerOk(h.workers[i], i < normals, members))
  }

  ghost predicate MembersOk(conns: map<int, Conn>, members: set<Key>) {
    forall fd :: fd in conns && conns[fd].authenticated ==> KeyOf(fd, conns[fd]) in members
  }

  /** A task's flag is raised exactly when its connection is gone; a live connection holds its task's flag. */
  ghost predicate TaskOk(t: AuthTask, conns: map<int, Conn>, tokens: Tokens) {
    var k := t.request.key;
    && t.token in tokens.owner && tokens.owner[t.token] == k
    && (t.token in tokens.cancelled <==> !Live(conns, k))
    && (Live(conns, k) ==> conns[k.fd].cancel == Some(t.token))
  }

  ghost predicate TasksOk(tasks: seq<AuthTask>, conns: map<int, Conn>, tokens: Tokens) {
    forall t :: t in tasks ==> TaskOk(t, conns, tokens)
  }

  ghost predicate HandsOk(ws: seq<Worker>, conns: map<int, Conn>, tokens: Tokens) {
    forall i :: 0 <= i < |ws| && ws[i].AuthBusy? ==> TaskOk(ws[i].task, conns, tokens)
  }

  ghost predicate TokensOk(conns: map<int, Conn>, tokens: Tokens, nextId: nat) {
    && (forall fd :: fd in conns && conns[fd].cancel.Some? ==>
          var token := conns[fd].cancel.value;
          token in tokens.owner && tokens.owner[token] == KeyOf(fd, conns[fd]) && token !in tokens.cancelled)
    && (forall token :: token in tokens.owner ==> token < tokens.next && tokens.owner[token].cid < nextId)
    && (forall token :: token in tokens.cancelled ==> token in tokens.owner)
  }

  function TasksOf(pc: Pc): seq<AuthTask> {
    match pc
    case Classify(_, _, _, b, _, _) => b.auths
    case Admit(_, b, _) => b.auths
    case Credit(_, b, _) => b.auths
    case _ => []
  }

  /** No client holds more authenticated connections than some limit that was in force. */
  ghost predicate Capped(conns: map<int, Conn>, cap: nat) {
    forall client: string :: |Members(conns, client)| <= cap
  }

  /** A rate-limit window exists only for a client that is connected. */
  ghost predicate WindowsOk(conns: map<int, Conn>, windows: Windows) {
    forall client :: client in windows ==> Members(conns, client) != {}
  }

  // -------------------------------------------------------------------------
  // Producers and wakeups
  // -------------------------------------------------------------------------

  /** A worker that has not yet given up its place among the response producers. */
  predicate Producing(w: Worker) {
    !w.Last? && !w.LastNotifying? && !w.Gone?
  }

  predicate Quitting(w: Worker) {
    w.Leaving? || w.Last? || w.LastNotifying? || w.Gone?
  }

  function Active(ws: seq<Worker>): (n: nat) {
    if ws == [] then 0 else Active(ws[..|ws| - 1]) + if Producing(ws[|ws| - 1]) then 1 else 0
  }

  /** A worker leaves only a stopped and empty queue. */
  ghost predicate LeavesEmpty(h: Shared, normals: nat) {
    forall i :: 0 <= i < |h.workers| && Quitting(h.workers[i]) ==>
      if i < normals then h.requests.stopped && h.requests.items == [] else h.auths.stopped && h.auths.items == []
  }

  /** The last producer has left and is about to stop the response queue. */
  ghost predicate LastIsClosing(ws: seq<Worker>) {
    exists i :: 0 <= i < |ws| && ws[i].Last?
  }

  ghost predicate CrewOk(h: Shared, normals: nat, mode: Mode, aborted: bool) {
    && 0 < normals < |h.workers|
    && h.producers == Active(h.workers)
    && LeavesEmpty(h, normals)
    && (h.responses.stopped && !aborted ==> h.producers == 0)
    && (h.producers == 0 ==> h.responses.stopped || LastIsClosing(h.workers))
    && (forall i :: 0 <= i < |h.workers| && (h.workers[i].Last? || h.workers[i].LastNotifying?) ==> h.producers == 0)
    && (h.requests.stopped || h.auths.stopped ==> mode != Running)
  }

  /** Some worker has published something and not yet notified. */
  ghost predicate Rings(ws: seq<Worker>) {
    exists i :: 0 <= i < |ws| && (ws[i].Notifying? || ws[i].LastNotifying?)
  }

  /** The worker that published `note` has yet to notify. */
  ghost predicate Announces(ws: seq<Worker>, note: Note) {
    exists i :: 0 <= i < |ws| && ws[i] == Notifying(note)
  }

  ghost predicate AnswersAnnounced(h: Shared) {
    forall r :: r in h.responses.items ==> Announces(h.workers, Answered(r))
  }

  ghost predicate RefusalsAnnounced(h: Shared) {
    forall k :: k in h.rejected ==> Announces(h.workers, Refused(k))
  }

  ghost predicate Alerted(h: Shared) {
    h.ev > 0 || Rings(h.workers)
  }

  predicate Over(pc: Pc) {
    pc.AbortAuths? || pc.AbortResponses? || pc.Done?
  }

  /** The response queue is still to be drained in this turn of the loop. */
  predicate WillDrain(pc: Pc) {
    pc.Handling? || pc.Classify? || pc.Admit? || pc.Credit? || pc.Answer? || pc.PeerEof? || pc.Responses?
  }

  ghost predicate AllUnsent(conns: map<int, Conn>) {
    conns != map[] && forall fd :: fd in conns ==> conns[fd].offset < |conns[fd].output|
  }

  /** Whatever the Reactor has to look at, it will look at or be woken for. */
  ghost predicate Wakeful(h: Shared, stop: Stop, mode: Mode, pc: Pc, conns: map<int, Conn>) {
    && (h.ev == 0 && !Over(pc) && !WillDrain(pc) ==> AnswersAnnounced(h))
    && (h.ev == 0 && !Over(pc) && !WillDrain(pc) && !pc.Rejections? ==> RefusalsAnnounced(h))
    && (pc.Waiting? && stop.requested && mode == Running ==> h.ev > 0 || stop.notifies > 0)
    && (h.responses.stopped && (pc.StopRequests? || pc.StopAuths? || pc.Rearm?) ==> Alerted(h))
    && (h.responses.stopped && mode == Draining && (pc.Deadline? || pc.Top? || pc.Waiting?) ==>
          Alerted(h) || AllUnsent(conns))
  }

  /** The drain test is passed for good; a graceful end leaves nothing behind. */
  ghost predicate Ending(h: Shared, pc: Pc, conns: map<int, Conn>, aborted: bool) {
    && (aborted ==> Over(pc))
    && (pc.AbortAuths? || pc.AbortResponses? ==> aborted)
    && (pc.Sweep? ==> Drained(h))
    && (pc.Done? && !aborted ==> Drained(h) && conns == map[])
  }

  // -------------------------------------------------------------------------
  // Order
  // -------------------------------------------------------------------------

  predicate Increasing(q: seq<nat>) {
    forall i, j :: 0 <= i < j < |q| ==> q[i] < q[j]
  }

  /** The serials of the normal responses in `q`, in order. */
  function NormalSerials(q: seq<Response>): seq<nat> {
    if q == [] then []
    else
      var r := q[|q| - 1];
      NormalSerials(q[..|q| - 1]) + if r.frame.kind == AUTH_RESP then [] else [r.serial]
  }

  function RequestSerials(q: seq<Request>): (n: seq<nat>)
    ensures |n| == |q|
  {
    seq(|q|, i requires 0 <= i < |q| => q[i].serial)
  }

  function HeldSerial(w: Worker): seq<nat> {
    match w
    case Busy(r) => [r.serial]
    case Ready(r) => [r.serial]
    case _ => []
  }

  /** With one normal worker, all normal work that is not yet served, oldest first. */
  function Line(h: Shared): seq<nat>
    requires |h.workers| > 0
  {
    NormalSerials(h.responses.items) + HeldSerial(h.workers[0]) + RequestSerials(h.requests.items)
  }

  ghost predicate Ordered(h: Shared, normals: nat, book: Book) {
    normals == 1 && |h.workers| > 0 ==>
      && Increasing(book.served + Line(h))
      && forall n :: n in book.served + Line(h) ==> n < |book.admitted|
  }

  predicate SerialOk(serial: nat, t: Ticket, admitted: seq<Ticket>) {
    serial < |admitted| && admitted[serial] == t
  }

  ghost predicate HeldSerialOk(w: Worker, admitted: seq<Ticket>) {
    match w
    case Busy(r) => SerialOk(r.serial, RequestTicket(r), admitted)
    case Ready(r) => r.frame.kind == AUTH_RESP || SerialOk(r.serial, ResponseTicket(r), admitted)
    case _ => true
  }

  /** A normal request keeps its serial from admission to response. */
  ghost predicate Serialled(h: Shared, admitted: seq<Ticket>) {
    && (forall r :: r in h.requests.items ==> SerialOk(r.serial, RequestTicket(r), admitted))
    && (forall r :: r in h.responses.items && r.frame.kind != AUTH_RESP ==>
          SerialOk(r.serial, ResponseTicket(r), admitted))
    && (forall i :: 0 <= i < |h.workers| ==> HeldSerialOk(h.workers[i], admitted))
  }

  ghost predicate QueuesOk(h: Shared) {
    h.requests.Valid() && h.auths.Valid() && h.responses.Valid()
  }

  // -------------------------------------------------------------------------
  // Together
  // -------------------------------------------------------------------------

  /** Work: conserved until the shutdown deadline fires. */
  ghost predicate WorkInv(s: State) {
    && Dated(s.conns, s.shared, s.nextId)
    && (!s.book.aborted ==> Conserved(s.conns, s.shared))
    && Awaited(s.conns, s.shared, s.pc)
  }

  /** Connections, one by one, and the Reactor's place. */
  ghost predicate ConnInv(s: State) {
    && Phased(s.mode, s.pc, s.conns)
    && ConnsOk(s.mode, s.pc, s.conns)
    && AllClean(s.book.finished)
  }

  ghost predicate AuthInv(s: State) {
    && ItemsOk(s.shared, s.normals, s.book.members)
    && MembersOk(s.conns, s.book.members)
    && TasksOk(s.shared.auths.items, s.conns, s.tokens)
    && HandsOk(s.shared.workers, s.conns, s.tokens)
    && TasksOk(TasksOf(s.pc), s.conns, s.tokens)
    && TokensOk(s.conns, s.tokens, s.nextId)
  }

  ghost predicate LimitInv(s: State) {
    && s.config.maxConnections <= s.book.cap
    && Capped(s.conns, s.book.cap)
    && WindowsOk(s.conns, s.windows)
  }

  ghost predicate CrewInv(s: State) {
    && CrewOk(s.shared, s.normals, s.mode, s.book.aborted)
    && Wakeful(s.shared, s.stop, s.mode, s.pc, s.conns)
    && Ending(s.shared, s.pc, s.conns, s.book.aborted)
    && QueuesOk(s.shared)
  }

  ghost predicate OrderInv(s: State) {
    Ordered(s.shared, s.normals, s.book) && Serialled(s.shared, s.book.admitted)
  }

  ghost predicate Inv(s: State) {
    WorkInv(s) && ConnInv(s) && AuthInv(s) && LimitInv(s) && CrewInv(s) && OrderInv(s)
  }
}
