/** A connection's record as the Reactor updates it in place. */
module Connections {
  import opened Bytes
  import opened FrameCodec
  import opened Options
  import opened Server
  import opened ServerSteps
  import opened Tallies

  /** What one `send` comes to: bytes taken, EINTR, EAGAIN, another error. */
  datatype SendResult = Took(n: nat) | Interrupt | WouldBlock | SendError

  datatype WriteEnd = Emptied | Blocked | Failed

  /** How many bytes each `send` took, and how the loop ended. */
  datatype WriteLog = WriteLog(taken: seq<nat>, end: WriteEnd)

  function Least(a: nat, b: nat): nat {
    if a < b then a else b
  }

  /**
   What `handleWrite` makes of a kernel's answers, from the `k`th on, while
   `unsent` bytes wait: it stops when nothing waits, at the first refusal or
   error, and goes on after an interruption. A kernel that has no more answers
   blocks.
   */
  function Wrote(answers: seq<SendResult>, k: nat, unsent: nat): WriteLog
    requires k <= |answers|
    decreases |answers| - k
  {
    if unsent == 0 then WriteLog([], Emptied)
    else if k == |answers| then WriteLog([], Blocked)
    else
      match answers[k]
      case Interrupt => Wrote(answers, k + 1, unsent)
      case WouldBlock => WriteLog([], Blocked)
      case SendError => WriteLog([], Failed)
      case Took(n) =>
        if n == 0 then WriteLog([], Failed)
        else
          var m := Least(n, unsent);
          var rest := Wrote(answers, k + 1, unsent - m);
          WriteLog([m] + rest.taken, rest.end)
  }

  /** What the answers from the `i`th up to the `k`th offer to take. */
  function Offered(answers: seq<SendResult>, i: nat, k: nat): nat
    requires i <= k <= |answers|
    decreases k - i
  {
    if i == k then 0 else (if answers[i].Took? then answers[i].n else 0) + Offered(answers, i + 1, k)
  }

  predicate Goes(answer: SendResult) {
    answer.Interrupt? || (answer.Took? && answer.n > 0)
  }

  ghost predicate AllGo(answers: seq<SendResult>, i: nat, k: nat)
    requires i <= k <= |answers|
  {
    forall j :: i <= j < k ==> Goes(answers[j])
  }

  lemma {:induction false} OfferedGrows(answers: seq<SendResult>, i: nat, k: nat, l: nat)
    requires i <= k <= l <= |answers|
    ensures Offered(answers, i, k) <= Offered(answers, i, l)
    decreases k - i
  {
    if i < k {
      OfferedGrows(answers, i + 1, k, l);
    }
  }

  lemma {:induction false} SumCons(m: nat, ns: seq<nat>)
    ensures Sum([m] + ns) == m + Sum(ns)
  {
    var all := [m] + ns;
    if ns == [] {
      assert all[..|all| - 1] == ns;
    } else {
      assert all[..|all| - 1] == [m] + ns[..|ns| - 1];
      SumCons(m, ns[..|ns| - 1]);
    }
  }

  /** Where the loop stops, and what that says about its end and the bytes taken. */
  ghost predicate StopsAt(answers: seq<SendResult>, i: nat, unsent: nat, w: WriteLog, k: nat)
    requires i <= |answers|
  {
    && i <= k <= |answers| && AllGo(answers, i, k)
    && match w.end
       case Emptied => unsent <= Offered(answers, i, k) && Sum(w.taken) == unsent
       case Blocked =>
         && Offered(answers, i, k) < unsent && Sum(w.taken) == Offered(answers, i, k)
         && (k < |answers| ==> answers[k].WouldBlock?)
       case Failed =>
         && Offered(answers, i, k) < unsent && Sum(w.taken) == Offered(answers, i, k)
         && k < |answers| && !Goes(answers[k]) && !answers[k].WouldBlock?
  }

  /** The loop sends all that is offered a place until it is done or an answer stops it. */
  lemma {:induction false} WroteIs(answers: seq<SendResult>, i: nat, unsent: nat) returns (k: nat)
    requires i <= |answers|
    ensures StopsAt(answers, i, unsent, Wrote(answers, i, unsent), k)
    ensures forall n :: n in Wrote(answers, i, unsent).taken ==> n > 0
    decreases |answers| - i
  {
    k := i;
    if unsent > 0 && i < |answers| && Goes(answers[i]) {
      var m := if answers[i].Took? then Least(answers[i].n, unsent) else 0;
      k := WroteIs(answers, i + 1, unsent - m);
      SumCons(m, Wrote(answers, i + 1, unsent - m).taken);
    }
  }

  /** Everything is sent exactly when answers that keep the loop going offer enough. */
  lemma EmptiedExactly(answers: seq<SendResult>, unsent: nat)
    ensures Wrote(answers, 0, unsent).end == Emptied <==>
              exists k: nat :: k <= |answers| && AllGo(answers, 0, k) && unsent <= Offered(answers, 0, k)
  {
    var stop := WroteIs(answers, 0, unsent);
    if k: nat :| k <= |answers| && AllGo(answers, 0, k) && unsent <= Offered(answers, 0, k) {
      if k <= stop {
        OfferedGrows(answers, 0, k, stop);
      }
    }
  }

  /** A log that already holds `taken`. */
  function After(taken: seq<nat>, w: WriteLog): WriteLog {
    WriteLog(taken + w.taken, w.end)
  }

  /** One turn of the loop. */
  lemma WroteStep(answers: seq<SendResult>, k: nat, unsent: nat, taken: seq<nat>)
    requires k <= |answers| && unsent > 0
    ensures var now := After(taken, Wrote(answers, k, unsent));
            if k == |answers| || answers[k].WouldBlock? then now == WriteLog(taken, Blocked)
            else if answers[k].Interrupt? then now == After(taken, Wrote(answers, k + 1, unsent))
            else if !Goes(answers[k]) then now == WriteLog(taken, Failed)
            else
              var m := Least(answers[k].n, unsent);
              now == After(taken + [m], Wrote(answers, k + 1, unsent - m))
  {
    assert taken + [] == taken;
    if k < |answers| && answers[k].Took? {
      var m := Least(answers[k].n, unsent);
      var rest := Wrote(answers, k + 1, unsent - m).taken;
      assert taken + ([m] + rest) == taken + [m] + rest;
    }
  }

  /** The record after `send` has taken each of `ns` in turn. */
  function SentAll(c: Conn, ns: seq<nat>): (c': Conn)
    requires c.offset <= |c.output| && Sum(ns) <= |c.output| - c.offset
    ensures c'.offset <= |c'.output| && |c'.output| - c'.offset == |c.output| - c.offset - Sum(ns)
  {
    if ns == [] then c else Sent(SentAll(c, ns[..|ns| - 1]), ns[|ns| - 1])
  }

  function Sum(ns: seq<nat>): nat {
    if ns == [] then 0 else Sum(ns[..|ns| - 1]) + ns[|ns| - 1]
  }

  lemma SentAllNext(c: Conn, ns: seq<nat>, n: nat)
    requires c.offset <= |c.output| && Sum(ns) + n <= |c.output| - c.offset
    ensures Sum(ns + [n]) == Sum(ns) + n
    ensures SentAll(c, ns + [n]) == Sent(SentAll(c, ns), n)
  {
    assert (ns + [n])[..|ns|] == ns;
  }

  /** However the bytes went out, the stream is the same: what was unsent is sent or still unsent, in order. */
  lemma {:induction false} SentAllStream(c: Conn, ns: seq<nat>)
    requires c.offset <= |c.output| && Sum(ns) <= |c.output| - c.offset
    ensures var c' := SentAll(c, ns);
            && c'.sent + c'.output[c'.offset..] == c.sent + c.output[c.offset..]
            && |c'.sent| == |c.sent| + Sum(ns)
  {
    if ns != [] {
      var front, n := ns[..|ns| - 1], ns[|ns| - 1];
      SentAllStream(c, front);
      SentStream(SentAll(c, front), n);
    }
  }

  lemma SentStream(c: Conn, n: nat)
    requires c.offset + n <= |c.output|
    ensures var c' := Sent(c, n);
            && c'.sent + c'.output[c'.offset..] == c.sent + c.output[c.offset..]
            && |c'.sent| == |c.sent| + n
  {
    MovedOver(c.sent, c.output, c.offset, n);
    if c.offset + n == |c.output| {
      assert c.output[c.offset + n..] == [];
    }
  }

  lemma MovedOver(sent: bytes, output: bytes, offset: nat, n: nat)
    requires offset + n <= |output|
    ensures sent + output[offset..offset + n] + output[offset + n..] == sent + output[offset..]
  {
    assert output[offset..] == output[offset..offset + n] + output[offset + n..];
  }

  /** The completion of work, the end of an AUTH exchange and its outcome, one by one. */
  function Completed(c: Conn, r: Response, worker: bool): Conn {
    if worker then
      c.(inFlight := if c.inFlight == 0 then 0 else c.inFlight - 1,
         outstanding := c.outstanding - multiset{ResponseTicket(r)})
    else c
  }

  function Cleared(c: Conn, r: Response): Conn {
    if r.frame.kind == AUTH_RESP || r.close then c.(pending := false, cancel := None) else c
  }

  function Granted(c: Conn, newClient: Option<string>): Conn {
    if newClient.Some? then c.(authenticated := true, client := newClient.value) else c
  }

  lemma SettledInParts(c: Conn, r: Response, ruled: Response, worker: bool)
    ensures Settled(c, r, ruled, worker) == Granted(Cleared(Completed(c, r, worker), r), ruled.client)
  {
  }

  /** `countAuthenticatedConnectionsForClient`: a walk over the connection map, in any order. */
  method CountAuthenticated(conns: map<int, Conn>, client: string, exclude: int) returns (count: nat)
    ensures count == |Members(conns, client) - {exclude}|
  {
    count := 0;
    var todo := conns.Keys;
    ghost var found: set<int> := {};
    while todo != {}
      invariant todo <= conns.Keys
      invariant found == (Members(conns, client) - {exclude}) - todo
      invariant count == |found|
      decreases |todo|
    {
      ghost var some := Any(todo);
      assert some in todo;
      var fd :| fd in todo;
      todo := todo - {fd};
      if fd != exclude && conns[fd].authenticated && conns[fd].client == client {
        count := count + 1;
        found := found + {fd};
      }
    }
    assert found == Members(conns, client) - {exclude};
  }

  /** The fields of `Connection`; the ghost fields are the history of the transition system. */
  class Connection {
    const cid: nat
    var input: bytes
    var output: bytes
    var writeOffset: nat
    var client: string
    var authenticated: bool
    var authPending: bool
    var closing: bool
    var readEof: bool
    var inFlightWork: nat
    var cancellation: Option<nat>
    var interest: Interest
    ghost var asked: seq<Frame>
    ghost var applied: seq<Frame>
    ghost var outstanding: multiset<Ticket>
    ghost var sent: bytes
    ghost var limit: nat

    ghost function View(): Conn
      reads this
    {
      Conn(cid, input, output, writeOffset, client, authenticated, authPending, closing, readEof, inFlightWork,
           cancellation, interest, asked, applied, outstanding, sent, limit)
    }

    /** `handleAccept` registers a connection for reading. */
    constructor (cid: nat)
      ensures View() == Fresh(cid, Running)
    {
      this.cid, input, output, writeOffset := cid, [], [], 0;
      client, authenticated, authPending, closing, readEof := "", false, false, false, false;
      inFlightWork, cancellation, interest := 0, None, Interest(true, false);
      asked, applied, outstanding, sent, limit := [], [], multiset{}, [], 0;
    }

    /** `applyResponse` up to its output: `newClient` is the identity granted after the connection limit. */
    method Settle(r: Response, newClient: Option<string>, worker: bool)
      modifies this`inFlightWork, this`outstanding, this`authPending, this`cancellation, this`authenticated, this`client
      ensures View() == Settled(old(View()), r, r.(client := newClient), worker)
    {
      SettledInParts(View(), r, r.(client := newClient), worker);
      CompleteWork(r, worker);
      ClearAuth(r);
      Grant(newClient);
    }

    method CompleteWork(r: Response, worker: bool)
      modifies this`inFlightWork, this`outstanding
      ensures View() == Completed(old(View()), r, worker)
    {
      if worker {
        if inFlightWork != 0 {
          inFlightWork := inFlightWork - 1;
        }
        outstanding := outstanding - multiset{ResponseTicket(r)};
      }
    }

    method ClearAuth(r: Response)
      modifies this`authPending, this`cancellation
      ensures View() == Cleared(old(View()), r)
    {
      if r.frame.kind == AUTH_RESP || r.close {
        authPending := false;
        cancellation := None;
      }
    }

    method Grant(newClient: Option<string>)
      modifies this`authenticated, this`client
      ensures View() == Granted(old(View()), newClient)
    {
      if newClient.Some? {
        authenticated := true;
        client := newClient.value;
      }
    }

    /** The output half of `applyResponse`: refuse, or drop what was sent and append. */
    method Append(r: Response, outputLimit: nat) returns (appended: bool)
      requires writeOffset <= |output|
      modifies this`output, this`writeOffset, this`closing, this`applied, this`limit
      ensures appended <==> !Withheld(old(View()), r, outputLimit)
      ensures View() == if appended then Appended(old(View()), r, outputLimit) else old(View())
    {
      if r.close && r.skipWrite {
        return false;
      }
      var encoded := Encode(r.frame);
      var pendingBytes := |output| - writeOffset;
      if pendingBytes + |encoded| > outputLimit {
        return false;
      }
      Compact();
      Extend(encoded, r.close);
      applied := applied + [r.frame];
      limit := outputLimit;
      return true;
    }

    method Extend(encoded: bytes, close: bool)
      modifies this`output, this`closing
      ensures output == old(output) + encoded && closing == (old(closing) || close)
    {
      output := output + encoded;
      closing := closing || close;
    }

    /** The sent bytes are erased from the front of the buffer. */
    method Compact()
      requires writeOffset <= |output|
      modifies this`output, this`writeOffset
      ensures output == old(output[writeOffset..]) && writeOffset == 0
    {
      if writeOffset > 0 {
        output := output[writeOffset..];
        writeOffset := 0;
      }
    }

    /**
     The loop of `handleWrite`, against a kernel that answers `answers` in turn and
     then blocks. A kernel takes no more than it is offered.
     */
    method Flush(answers: seq<SendResult>) returns (end: WriteEnd, taken: seq<nat>)
      requires writeOffset <= |output|
      modifies this`output, this`writeOffset, this`sent
      ensures WriteLog(taken, end) == Wrote(answers, 0, old(|output| - writeOffset))
      ensures Sum(taken) <= old(|output| - writeOffset)
      ensures View() == SentAll(old(View()), taken)
      ensures end == Emptied <==> Sum(taken) == old(|output| - writeOffset)
      ensures forall n :: n in taken ==> n > 0
    {
      ghost var start := View();
      end, taken := Sends(answers, start);
      var _ := WroteIs(answers, 0, |start.output| - start.offset);
    }

    /** The record is `start` after `taken` went out. */
    ghost predicate Past(start: Conn, taken: seq<nat>)
      reads this
    {
      && start.offset <= |start.output| && Sum(taken) <= |start.output| - start.offset
      && View() == SentAll(start, taken)
    }

    method Sends(answers: seq<SendResult>, ghost start: Conn) returns (end: WriteEnd, taken: seq<nat>)
      requires start == View() && writeOffset <= |output|
      modifies this`output, this`writeOffset, this`sent
      ensures Past(start, taken)
      ensures WriteLog(taken, end) == Wrote(answers, 0, |start.output| - start.offset)
    {
      var k := 0;
      taken := [];
      ghost var all := Wrote(answers, 0, |output| - writeOffset);
      while true
        invariant k <= |answers| && Past(start, taken)
        invariant all == After(taken, Wrote(answers, k, |output| - writeOffset))
        decreases |answers| - k
      {
        if writeOffset >= |output| {
          return Emptied, taken;
        }
        WroteStep(answers, k, |output| - writeOffset, taken);
        var answer := if k < |answers| then answers[k] else WouldBlock;
        if answer.Took? && answer.n > 0 {
          var n := Least(answer.n, |output| - writeOffset);
          Send(n, start, taken);
          taken := taken + [n];
        } else if answer.WouldBlock? {
          return Blocked, taken;
        } else if !answer.Interrupt? {
          return Failed, taken;
        }
        k := k + 1;
      }
    }

    method Send(n: nat, ghost start: Conn, ghost taken: seq<nat>)
      requires Past(start, taken) && 0 < n <= |output| - writeOffset
      modifies this`output, this`writeOffset, this`sent
      ensures Past(start, taken + [n])
      ensures |output| - writeOffset == old(|output| - writeOffset) - n
    {
      SentAllNext(start, taken, n);
      TakeBytes(n);
    }

    method TakeBytes(n: nat)
      requires 0 < n <= |output| - writeOffset
      modifies this`output, this`writeOffset, this`sent
      ensures View() == Sent(old(View()), n)
    {
      sent := sent + output[writeOffset..writeOffset + n];
      writeOffset := writeOffset + n;
      if writeOffset == |output| {
        output := [];
        writeOffset := 0;
      }
    }
  }
}
