/** The rate limiter inside the data plane: its bound over runs of the whole gateway. */
module ServerRates {
  import opened Bytes
  import RateLimit
  import opened Server
  import opened ServerSteps
  import opened ServerRuns
  import opened ServerHistory

  // -------------------------------------------------------------------------
  // Metered steps
  // -------------------------------------------------------------------------

  /** The step asks the limiter about a request of `client`. */
  predicate Metered(s: State, p: Step, client: string) {
    && p.DecodeMoves? && p.decode.Sort? && s.pc.Classify? && s.pc.todo != [] && Live(s.conns, s.pc.key)
    && |s.pc.todo[0].payload| + 10 <= s.pc.config.maxBody && s.pc.todo[0].kind != AUTH
    && s.conns[s.pc.key.fd].authenticated && s.conns[s.pc.key.fd].client == client
  }

  /** A metered step counts the request in the client's window, and queues it exactly if the window admits it. */
  lemma MeteredStep(s: State, p: Step, client: string)
    requires Enabled(s, p) && Metered(s, p, client)
    ensures var now, limit, w := p.decode.now, s.pc.config.maxRequests, RateLimit.WindowOf(s.windows, client);
            var s' := Next(s, p);
            && s'.windows == s.windows[client := RateLimit.Counted(w, now, limit)]
            && s'.pc.Classify?
            && s'.pc.batch.requests
               == s.pc.batch.requests
                  + (if RateLimit.Admits(w, now, limit) then [Request(s.pc.key, s.pc.todo[0], 0)] else [])
            && |s'.pc.batch.locals| == |s.pc.batch.locals| + (if RateLimit.Admits(w, now, limit) then 0 else 1)
  {
  }

  /** No other step touches the window of `client`, except to drop it. */
  ghost predicate WindowKept(s: State, s': State, client: string) {
    client in s'.windows ==> client in s.windows && s'.windows[client] == s.windows[client]
  }

  lemma ApplyKeepsWindow(s: State, r: Response, worker: bool, refusal: bytes, ok: bool, client: string)
    ensures WindowKept(s, Apply(s, r, worker, refusal, ok), client)
  {
  }

  lemma ConnKeepsWindow(s: State, p: ConnStep, client: string)
    requires ConnEnabled(s, p)
    ensures WindowKept(s, OnConn(s, p), client)
  {
    match p
    case ApplyNext(refusal, ok) => ApplyKeepsWindow(Take(s), s.shared.responses.items[0], true, refusal, ok, client);
    case _ =>
  }

  lemma SortKeepsWindow(s: State, now: int, text: bytes, client: string)
    requires s.pc.Classify? && s.pc.todo != [] && Live(s.conns, s.pc.key)
    requires !Metered(s, DecodeMoves(Sort(now, text)), client)
    ensures WindowKept(s, SortTurn(s, now, text), client)
  {
  }

  lemma DecodeKeepsWindow(s: State, d: DecodeStep, client: string)
    requires DecodeEnabled(s, d) && !Metered(s, DecodeMoves(d), client)
    ensures WindowKept(s, Decoding(s, d), client)
  {
    match d
    case Sort(now, text) => SortKeepsWindow(s, now, text, client);
    case Reply(refusal, ok) =>
      var s1 := s.(pc := Answer(s.pc.key, s.pc.batch.(locals := s.pc.batch.locals[1..]), s.pc.eof));
      ApplyKeepsWindow(s1, s.pc.batch.locals[0], false, refusal, ok, client);
    case _ =>
  }

  lemma StepKeepsWindow(s: State, p: Step, client: string)
    requires Enabled(s, p) && !Metered(s, p, client)
    ensures WindowKept(s, Next(s, p), client)
  {
    match p
    case ConnMoves(c) => ConnKeepsWindow(s, c, client);
    case DecodeMoves(d) => DecodeKeepsWindow(s, d, client);
    case _ =>
  }

  // -------------------------------------------------------------------------
  // The configuration a decode works with
  // -------------------------------------------------------------------------

  /** A decode works with the configuration of one earlier moment. */
  lemma {:induction false} SnapshotWasCurrent(r: Run, i: nat) returns (j: nat)
    requires r.Valid() && i < |r.states| && r.states[i].pc.Classify?
    ensures j <= i && r.states[i].pc.config == r.states[j].config
  {
    j := i;
    if i > 0 {
      assert r.Follows(i - 1);
      StepTakesSnapshot(r.states[i - 1], r.steps[i - 1]);
      if Reads(r.steps[i - 1]) {
        j := i - 1;
      } else {
        j := SnapshotWasCurrent(r, i - 1);
      }
    }
  }

  lemma StepTakesSnapshot(s: State, p: Step)
    requires Enabled(s, p) && Next(s, p).pc.Classify?
    ensures if Reads(p) then Next(s, p).pc.config == s.config
            else s.pc.Classify? && Next(s, p).pc.config == s.pc.config
  {
    match p
    case ConnMoves(c) => ConnIsNoDecode(s, c);
    case DecodeMoves(d) => DecodeTakesSnapshot(s, d);
    case _ =>
  }

  lemma ConnIsNoDecode(s: State, p: ConnStep)
    requires ConnEnabled(s, p)
    ensures OnConn(s, p).pc.Classify? ==> s.pc.Classify? && OnConn(s, p).pc == s.pc
  {
  }

  lemma DecodeTakesSnapshot(s: State, d: DecodeStep)
    requires DecodeEnabled(s, d) && Decoding(s, d).pc.Classify?
    ensures if d.Read? then Decoding(s, d).pc.config == s.config
            else s.pc.Classify? && Decoding(s, d).pc.config == s.pc.config
  {
  }

  // -------------------------------------------------------------------------
  // Runs
  // -------------------------------------------------------------------------

  /** What happened to the window of `client`: the requests the limiter was asked about, and its losses. */
  ghost function Calls(r: Run, i: nat, client: string): seq<RateLimit.Event>
    requires r.Valid() && i < |r.states|
  {
    if i == 0 then []
    else Calls(r, i - 1, client) + EventOf(r.states[i - 1], r.steps[i - 1], r.states[i], client)
  }

  ghost function EventOf(s: State, p: Step, s': State, client: string): seq<RateLimit.Event> {
    if Metered(s, p, client) then [RateLimit.Call(p.decode.now, s.pc.config.maxRequests)]
    else if client in s.windows && client !in s'.windows then [RateLimit.Drop]
    else []
  }

  /** In every run, a client's window is what its calls and losses make of it. */
  lemma {:induction false} WindowIsItsCalls(r: Run, i: nat, client: string)
    requires r.Valid() && i < |r.states|
    ensures RateLimit.WindowOf(r.states[i].windows, client) == RateLimit.After(Calls(r, i, client))
  {
    if i > 0 {
      var s, p, s' := r.states[i - 1], r.steps[i - 1], r.states[i];
      assert r.Follows(i - 1);
      WindowIsItsCalls(r, i - 1, client);
      WindowMoves(s, p, client);
      var before, event := Calls(r, i - 1, client), EventOf(s, p, s', client);
      if event == [] {
        assert before + event == before;
      } else {
        assert (before + event)[..|before|] == before;
      }
    }
  }

  /** One step of the gateway as an event of the limiter. */
  lemma WindowMoves(s: State, p: Step, client: string)
    requires Enabled(s, p)
    ensures var w, w' := RateLimit.WindowOf(s.windows, client), RateLimit.WindowOf(Next(s, p).windows, client);
            var event := EventOf(s, p, Next(s, p), client);
            if event == [] then w' == w
            else if event[0].Drop? then w' == RateLimit.UNSTARTED
            else w' == RateLimit.Counted(w, event[0].now, event[0].limit)
  {
    if Metered(s, p, client) {
      MeteredStep(s, p, client);
    } else {
      StepKeepsWindow(s, p, client);
    }
  }

  /** The limiter inside the gateway admits as the one on its own does: by the calls and losses so far. */
  lemma AdmittedByTheCalls(r: Run, i: nat, client: string)
    requires r.Valid() && i < |r.steps| && Metered(r.states[i], r.steps[i], client)
    ensures var s, now := r.states[i], r.steps[i].decode.now;
            var window, limit := RateLimit.After(Calls(r, i, client)), s.pc.config.maxRequests;
            && r.states[i + 1].pc.Classify?
            && r.states[i + 1].pc.batch.requests
               == s.pc.batch.requests
                  + if RateLimit.Admits(window, now, limit) then [Request(s.pc.key, s.pc.todo[0], 0)] else []
  {
    assert r.Follows(i);
    MeteredStep(r.states[i], r.steps[i], client);
    WindowIsItsCalls(r, i, client);
  }

  /**
   In every run with a clock that does not run backwards, a request is queued if
   and only if the window it falls into, counted from the list of the client's
   requests and losses alone, has admitted fewer than the limit.
   */
  lemma AdmittedByTheCount(r: Run, i: nat, client: string)
    requires r.Valid() && i < |r.steps| && Metered(r.states[i], r.steps[i], client)
    requires RateLimit.Clock(Calls(r, i, client))
    ensures var s, es := r.states[i], Calls(r, i, client);
            var o := RateLimit.OpenerFor(es, r.steps[i].decode.now);
            && r.states[i + 1].pc.Classify?
            && r.states[i + 1].pc.batch.requests
               == s.pc.batch.requests
                  + if RateLimit.AdmittedFrom(es, o) < s.pc.config.maxRequests then
                      [Request(s.pc.key, s.pc.todo[0], 0)]
                    else []
  {
    AdmittedByTheCalls(r, i, client);
    var es, e := Calls(r, i, client), RateLimit.Call(r.steps[i].decode.now, r.states[i].pc.config.maxRequests);
    assert (es + [e])[..|es|] == es;
    RateLimit.RefusedExactly(es + [e], |es|);
  }

  /** The limits in force up to the `i`th state are positive and at most `limit`. */
  ghost predicate RatesWithin(r: Run, i: nat, limit: nat)
    requires r.Valid() && i < |r.states|
  {
    forall j :: 0 <= j <= i ==> 1 <= r.states[j].config.maxRequests <= limit
  }

  lemma {:induction false} CallsWithin(r: Run, i: nat, client: string, limit: nat)
    requires r.Valid() && i < |r.states| && RatesWithin(r, i, limit)
    ensures RateLimit.Within(Calls(r, i, client), limit)
  {
    if i > 0 {
      CallsWithin(r, i - 1, client, limit);
      if Metered(r.states[i - 1], r.steps[i - 1], client) {
        var j := SnapshotWasCurrent(r, i - 1);
        assert 1 <= r.states[j].config.maxRequests <= limit;
      }
    }
  }

  /**
   Over any run of the gateway, with limits that change at will and a clock that
   does not run backwards, a second in which the client's window is lost `m` times
   admits at most (m + 2)L - 1 of its requests, L being the largest limit in force.
   */
  lemma RateIsBounded(r: Run, i: nat, client: string, limit: nat, from: int)
    requires r.Valid() && i < |r.states| && limit > 0 && RatesWithin(r, i, limit)
    requires RateLimit.Clock(Calls(r, i, client))
    ensures var es := Calls(r, i, client);
            RateLimit.AdmittedIn(es, from, from + RateLimit.SECOND)
            <= (RateLimit.DropsIn(es, from, from + RateLimit.SECOND) + 2) * limit - 1
  {
    CallsWithin(r, i, client, limit);
    RateLimit.RateBound(Calls(r, i, client), limit, from);
  }

  /** The window is lost only when a step takes away the client's last authenticated connection. */
  lemma LossIsLastClose(r: Run, i: nat, client: string)
    requires r.Valid() && i < |r.steps|
    requires EventOf(r.states[i], r.steps[i], r.states[i + 1], client) == [RateLimit.Drop]
    ensures Members(r.states[i].conns, client) != {} && Members(r.states[i + 1].conns, client) == {}
  {
    AlwaysLimits(r, i);
    assert r.Follows(i);
    StepLoses(r.states[i], r.steps[i], client);
  }

  lemma StepLoses(s: State, p: Step, client: string)
    requires Enabled(s, p) && client in s.windows && client !in Next(s, p).windows
    ensures Members(Next(s, p).conns, client) == {}
  {
    match p
    case ConnMoves(c) => ConnLoses(s, c, client);
    case DecodeMoves(d) => DecodeLoses(s, d, client);
    case _ =>
  }

  lemma ApplyLoses(s: State, r: Response, worker: bool, refusal: bytes, ok: bool, client: string)
    requires client in s.windows && client !in Apply(s, r, worker, refusal, ok).windows
    ensures Members(Apply(s, r, worker, refusal, ok).conns, client) == {}
  {
  }

  lemma ConnLoses(s: State, p: ConnStep, client: string)
    requires ConnEnabled(s, p) && client in s.windows && client !in OnConn(s, p).windows
    ensures Members(OnConn(s, p).conns, client) == {}
  {
    match p
    case ApplyNext(refusal, ok) => ApplyLoses(Take(s), s.shared.responses.items[0], true, refusal, ok, client);
    case _ =>
  }

  lemma DecodeLoses(s: State, d: DecodeStep, client: string)
    requires DecodeEnabled(s, d) && client in s.windows && client !in Decoding(s, d).windows
    ensures Members(Decoding(s, d).conns, client) == {}
  {
    match d
    case Reply(refusal, ok) =>
      var s1 := s.(pc := Answer(s.pc.key, s.pc.batch.(locals := s.pc.batch.locals[1..]), s.pc.eof));
      ApplyLoses(s1, s.pc.batch.locals[0], false, refusal, ok, client);
    case _ =>
  }
}
