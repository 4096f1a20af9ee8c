/** Every step keeps the order of normal work when one worker serves it. */
module ServerOrderProof {
  import opened Bytes
  import opened Queues
  import opened Server
  import opened ServerSteps
  import opened ServerInvariant

  // -------------------------------------------------------------------------
  // Sequences
  // -------------------------------------------------------------------------

  lemma IncreasingWithout(a: seq<nat>, b: seq<nat>, c: seq<nat>)
    requires Increasing(a + b + c)
    ensures Increasing(a + c)
    ensures forall n :: n in a + c ==> n in a + b + c
  {
    var whole, part := a + b + c, a + c;
    forall i | 0 <= i < |part| ensures part[i] == whole[if i < |a| then i else i + |b|] {
    }
  }

  lemma Regroup(s: seq<nat>, a: seq<nat>, b: seq<nat>, c: seq<nat>, d: seq<nat>)
    ensures s + (a + b + c + d) == (s + a) + (b + c + d)
  {
  }

  lemma Shift(a: seq<nat>, b: seq<nat>, c: seq<nat>)
    ensures a + b + [] + c == a + b + c
    ensures a + [] + c == a + c
  {
  }

  lemma IncreasingAppend(q: seq<nat>, n: nat)
    requires Increasing(q) && forall m :: m in q ==> m < n
    ensures Increasing(q + [n])
    ensures forall m :: m in q + [n] ==> m < n + 1
  {
    forall i | 0 <= i < |q| ensures (q + [n])[i] < n {
      assert q[i] in q;
    }
  }

  lemma {:induction false} NormalSerialsHead(q: seq<Response>)
    requires q != []
    ensures NormalSerials(q) == (if q[0].frame.kind == AUTH_RESP then [] else [q[0].serial]) + NormalSerials(q[1..])
  {
    if |q| > 1 {
      NormalSerialsHead(q[..|q| - 1]);
      assert q[..|q| - 1][1..] == q[1..][..|q| - 2];
    }
  }

  lemma NormalSerialsAppend(q: seq<Response>, r: Response)
    ensures r.frame.kind == AUTH_RESP ==> NormalSerials(q + [r]) == NormalSerials(q)
    ensures r.frame.kind != AUTH_RESP ==> NormalSerials(q + [r]) == NormalSerials(q) + [r.serial]
  {
    assert (q + [r])[..|q|] == q;
    assert NormalSerials(q) + [] == NormalSerials(q);
  }

  // -------------------------------------------------------------------------
  // Workers
  // -------------------------------------------------------------------------

  /** A worker step moves a serial along the line or takes one out of it. */
  ghost predicate Advances(h: Shared, h': Shared) {
    && |h'.workers| == |h.workers| > 0
    && exists a: seq<nat>, b: seq<nat>, c: seq<nat> {:trigger a + b + c} :: Line(h) == a + b + c && Line(h') == a + c
  }

  lemma AdvanceKeepsOrder(h: Shared, h': Shared, normals: nat, book: Book)
    requires Ordered(h, normals, book) && Advances(h, h')
    ensures Ordered(h', normals, book)
  {
    if normals == 1 {
      var a, b, c :| Line(h) == a + b + c && Line(h') == a + c;
      OrderWithout(book.served, a, b, c, |book.admitted|);
    }
  }

  lemma OrderWithout(served: seq<nat>, a: seq<nat>, b: seq<nat>, c: seq<nat>, bound: nat)
    requires Increasing(served + (a + b + c)) && forall n :: n in served + (a + b + c) ==> n < bound
    ensures Increasing(served + (a + c)) && forall n :: n in served + (a + c) ==> n < bound
  {
    assert served + (a + b + c) == (served + a) + b + c;
    assert served + (a + c) == (served + a) + c;
    IncreasingWithout(served + a, b, c);
  }

  lemma SameAdvances(h: Shared, h': Shared)
    requires |h'.workers| == |h.workers| > 0 && Line(h) == Line(h')
    ensures Advances(h, h')
  {
    assert Line(h) + [] + [] == Line(h) && Line(h) + [] == Line(h);
  }

  lemma PushLine(h: Shared, i: nat, r: Response)
    requires i < |h.workers| && h.workers[i] == Ready(r) && (r.frame.kind == AUTH_RESP <==> i > 0)
    requires i > 0 || h.responses.PushResult() == Pushed
    ensures Line(PushResponse(h, i, r)) == Line(h)
  {
    NormalSerialsAppend(h.responses.items, r);
    assert PushResponse(h, i, r).workers[0] == if i == 0 then Notifying(Answered(r)) else h.workers[0];
    Shift(NormalSerials(h.responses.items), [r.serial], RequestSerials(h.requests.items));
  }

  lemma LostLine(h: Shared, r: Response)
    requires 0 < |h.workers| && h.workers[0] == Ready(r) && h.responses.PushResult() != Pushed
    ensures Line(h) == NormalSerials(h.responses.items) + [r.serial] + RequestSerials(h.requests.items)
    ensures Line(PushResponse(h, 0, r)) == NormalSerials(h.responses.items) + RequestSerials(h.requests.items)
  {
    Shift(NormalSerials(h.responses.items), [r.serial], RequestSerials(h.requests.items));
  }

  lemma PushAdvances(h: Shared, i: nat, r: Response)
    requires i < |h.workers| && h.workers[i] == Ready(r) && (r.frame.kind == AUTH_RESP <==> i > 0)
    ensures Advances(h, PushResponse(h, i, r))
  {
    if i > 0 || h.responses.PushResult() == Pushed {
      PushLine(h, i, r);
      SameAdvances(h, PushResponse(h, i, r));
    } else {
      LostLine(h, r);
    }
  }

  lemma TakeAdvances(h: Shared, i: nat)
    requires i < |h.workers| && h.workers[i].Idle? && h.requests.items != [] && i == 0
    ensures Advances(h, h.(workers := h.workers[i := Busy(h.requests.items[0])], requests := h.requests.Pop()))
  {
    var q := h.requests.items;
    assert RequestSerials(q) == [q[0].serial] + RequestSerials(q[1..]);
    SameAdvances(h, h.(workers := h.workers[i := Busy(q[0])], requests := h.requests.Pop()));
  }

  lemma WorkAdvances(h: Shared, normals: nat, cancelled: set<nat>, members: set<Key>, i: nat, w: WorkerStep)
    requires WorkerEnabled(h, normals, cancelled, i, w) && normals == 1 && ItemsOk(h, normals, members)
    ensures Advances(h, Work(h, normals, cancelled, i, w))
  {
    assert WorkerOk(h.workers[i], i < normals, members);
    match w
    case TakeRequest => TakeAdvances(h, i);
    case Push => PushAdvances(h, i, h.workers[i].response);
    case _ => SameAdvances(h, Work(h, normals, cancelled, i, w));
  }

  lemma WorkKeepsSerials(h: Shared, normals: nat, cancelled: set<nat>, admitted: seq<Ticket>, i: nat, w: WorkerStep)
    requires WorkerEnabled(h, normals, cancelled, i, w) && Serialled(h, admitted)
    requires w.Dispatch? ==> h.workers[i].request.frame.kind != AUTH
    ensures Serialled(Work(h, normals, cancelled, i, w), admitted)
  {
    assert HeldSerialOk(h.workers[i], admitted);
  }

  lemma WorkKeepsOrder(s: State, i: nat, w: WorkerStep)
    requires OrderInv(s) && ItemsOk(s.shared, s.normals, s.book.members)
    requires WorkerEnabled(s.shared, s.normals, s.tokens.cancelled, i, w)
    ensures OrderInv(s.(shared := Work(s.shared, s.normals, s.tokens.cancelled, i, w)))
  {
    var h' := Work(s.shared, s.normals, s.tokens.cancelled, i, w);
    WorkKeepsSerials(s.shared, s.normals, s.tokens.cancelled, s.book.admitted, i, w);
    if s.normals == 1 {
      WorkAdvances(s.shared, s.normals, s.tokens.cancelled, s.book.members, i, w);
      AdvanceKeepsOrder(s.shared, h', s.normals, s.book);
    }
  }

  // -------------------------------------------------------------------------
  // The Reactor
  // -------------------------------------------------------------------------

  lemma MoveKeepsOrder(s: State, s': State)
    requires OrderInv(s)
    requires s'.shared.requests.items == s.shared.requests.items
    requires s'.shared.responses.items == s.shared.responses.items && s'.shared.workers == s.shared.workers
    requires s'.normals == s.normals && s'.book.served == s.book.served && s'.book.admitted == s.book.admitted
    ensures OrderInv(s')
  {
  }

  lemma EnvKeepsOrder(s: State, e: EnvStep)
    requires OrderInv(s) && EnvEnabled(s, e)
    ensures OrderInv(Env(s, e))
  {
    MoveKeepsOrder(s, Env(s, e));
  }

  lemma LoopKeepsOrder(s: State, l: LoopStep)
    requires OrderInv(s) && LoopEnabled(s, l)
    ensures OrderInv(Loop(s, l))
  {
    MoveKeepsOrder(s, Loop(s, l));
  }

  lemma AbortKeepsOrder(s: State, h': Shared, aborted: bool)
    requires OrderInv(s) && h'.workers == s.shared.workers
    requires h'.requests.items == s.shared.requests.items || h'.requests.items == []
    requires h'.responses.items == s.shared.responses.items || h'.responses.items == []
    ensures Ordered(h', s.normals, s.book) && Serialled(h', s.book.admitted)
  {
    var h := s.shared;
    if s.normals == 1 && |h.workers| > 0 {
      var h1 := h.(requests := h'.requests);
      assert Advances(h, h1) by {
        var a := NormalSerials(h.responses.items) + HeldSerial(h.workers[0]);
        if h'.requests.items == [] {
          assert a + [] == a && a + RequestSerials(h.requests.items) + [] == Line(h);
        } else {
          SameAdvances(h, h1);
        }
      }
      AdvanceKeepsOrder(h, h1, s.normals, s.book);
      assert Advances(h1, h') by {
        var c := HeldSerial(h.workers[0]) + RequestSerials(h'.requests.items);
        var b := NormalSerials(h.responses.items);
        if h'.responses.items == [] {
          assert [] + b + c == Line(h1) && [] + c == Line(h');
        } else {
          SameAdvances(h1, h');
        }
      }
      AdvanceKeepsOrder(h1, h', s.normals, s.book);
    }
  }

  lemma DrainKeepsOrder(s: State, d: DrainStep)
    requires OrderInv(s) && DrainEnabled(s, d)
    ensures OrderInv(Drain(s, d))
  {
    var s' := Drain(s, d);
    AbortKeepsOrder(s, s'.shared, s'.book.aborted);
  }

  lemma ApplyKeepsOrder(s: State, r: Response, worker: bool, refusal: bytes, ok: bool)
    requires OrderInv(s)
    ensures OrderInv(Apply(s, r, worker, refusal, ok))
  {
    MoveKeepsOrder(s, Apply(s, r, worker, refusal, ok));
  }

  /** The serial a response adds to what is served. */
  function HeadSerial(q: seq<Response>): seq<nat>
    requires q != []
  {
    if q[0].frame.kind == AUTH_RESP then [] else [q[0].serial]
  }

  lemma TakeLine(h: Shared, served: seq<nat>)
    requires h.responses.items != [] && |h.workers| > 0
    ensures served + Line(h) == (served + HeadSerial(h.responses.items)) + Line(h.(responses := h.responses.Pop()))
  {
    var q := h.responses.items;
    NormalSerialsHead(q);
    Regroup(served, HeadSerial(q), NormalSerials(q[1..]), HeldSerial(h.workers[0]), RequestSerials(h.requests.items));
  }

  /** The response taken off the queue is the oldest normal work there is. */
  lemma TakeKeepsOrder(s: State)
    requires OrderInv(s) && s.shared.responses.items != []
    ensures OrderInv(Take(s))
  {
    var s' := Take(s);
    if s.normals == 1 && |s.shared.workers| > 0 {
      TakeLine(s.shared, s.book.served);
      assert s'.book.served == s.book.served + HeadSerial(s.shared.responses.items);
    }
    assert Serialled(s'.shared, s'.book.admitted);
  }

  lemma ConnStepKeepsOrder(s: State, p: ConnStep)
    requires OrderInv(s) && ConnEnabled(s, p)
    ensures OrderInv(OnConn(s, p))
  {
    match p
    case ApplyNext(refusal, ok) =>
      TakeKeepsOrder(s);
      ApplyKeepsOrder(Take(s), s.shared.responses.items[0], true, refusal, ok);
    case _ => MoveKeepsOrder(s, OnConn(s, p));
  }

  lemma PushRequestLine(h: Shared, request: Request)
    requires |h.workers| > 0 && h.requests.PushResult() == Pushed
    ensures Line(h.(requests := h.requests.Push(request))) == Line(h) + [request.serial]
  {
    var q := h.requests.items;
    assert RequestSerials(q + [request]) == RequestSerials(q) + [request.serial];
  }

  /** A request admitted now is the youngest work there is. */
  lemma PushRequestKeepsOrder(s: State, text: bytes)
    requires OrderInv(s) && s.pc.Admit? && s.pc.batch.requests != []
    ensures OrderInv(PushRequest(s, text))
  {
    var s' := PushRequest(s, text);
    if s.shared.requests.PushResult() == Pushed {
      var request := s.pc.batch.requests[0].(serial := |s.book.admitted|);
      if s.normals == 1 && |s.shared.workers| > 0 {
        PushRequestLine(s.shared, request);
        var line := s.book.served + Line(s.shared);
        IncreasingAppend(line, request.serial);
        assert s.book.served + (Line(s.shared) + [request.serial]) == line + [request.serial];
      }
    }
  }

  lemma DecodeStepKeepsOrder(s: State, d: DecodeStep)
    requires OrderInv(s) && DecodeEnabled(s, d)
    ensures OrderInv(Decoding(s, d))
  {
    match d
    case AdmitRequest(text) => PushRequestKeepsOrder(s, text);
    case Reply(refusal, ok) =>
      var rest := s.pc.batch.(locals := s.pc.batch.locals[1..]);
      ApplyKeepsOrder(s.(pc := Answer(s.pc.key, rest, s.pc.eof)), s.pc.batch.locals[0], false, refusal, ok);
    case Sort(now, text) => MoveKeepsOrder(s, SortTurn(s, now, text));
    case _ => MoveKeepsOrder(s, Decoding(s, d));
  }
}
