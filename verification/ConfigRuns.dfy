/**
 Versioned configuration across the control plane and its gateways: writers that
 compare and swap, reads that may be delayed, repeated or lost, and gateways that
 keep the newest configuration they have seen.
 */
module ConfigRuns {
  import opened Options
  import opened ControlPlane
  import Server

  // -------------------------------------------------------------------------
  // Steps
  // -------------------------------------------------------------------------

  /**
   `log` holds every configuration the store has ever had, the current one last.
   `transit` holds responses on their way to some gateway. `gateways` are the
   snapshots. `writers` (history) names the writer of each entry of `log` but the
   first.
   */
  datatype State = State(log: seq<RuntimeConfig>, transit: set<RuntimeConfig>, gateways: seq<RuntimeConfig>,
                         writers: seq<nat>)

  datatype Step =
    | Write(writer: nat, expected: int, update: Update)   // handleConfigUpdate
    | Fetch                                               // getConfig
    | Deliver(gateway: nat, config: RuntimeConfig)        // parseRuntimeConfig, applyRuntimeConfigIfNewer
    | Lose(config: RuntimeConfig)

  function CurrentOf(s: State): RuntimeConfig {
    if s.log == [] then STORE_DEFAULT else s.log[|s.log| - 1]
  }

  /** The If-Match header is a positive number; anything else never reaches the store. */
  predicate Enabled(s: State, p: Step) {
    match p
    case Write(_, expected, _) => 1 <= expected <= INT64_MAX
    case Fetch => true
    case Deliver(g, c) => g < |s.gateways| && c in s.transit
    case Lose(c) => c in s.transit
  }

  /** The update is valid and its version is still the current one. */
  predicate Wins(s: State, p: Step, upper: string -> string) {
    p.Write? && ValidUpdate(p.update, upper) && Updated(CurrentOf(s), p.expected, p.update, upper).Some?
  }

  function Next(s: State, p: Step, upper: string -> string): State
    requires Enabled(s, p)
  {
    match p
    case Write(w, expected, u) =>
      if Wins(s, p, upper) then
        s.(log := s.log + [Updated(CurrentOf(s), expected, u, upper).value], writers := s.writers + [w])
      else s
    case Fetch => s.(transit := s.transit + {CurrentOf(s)})
    case Deliver(g, c) =>
      if GatewayAccepts(c) then s.(gateways := s.gateways[g := Newer(s.gateways[g], c)]) else s
    case Lose(c) => s.(transit := s.transit - {c})
  }

  predicate Init(s: State) {
    && s.log == [STORE_DEFAULT] && s.transit == {} && s.writers == []
    && forall g :: 0 <= g < |s.gateways| ==> s.gateways[g] == GATEWAY_DEFAULT
  }

  // -------------------------------------------------------------------------
  // Invariant
  // -------------------------------------------------------------------------

  /** The version of the `i`th configuration: the counter wraps once and is then stuck. */
  function VersionAt(i: nat): int {
    if i < INT64_MAX then i + 1 else INT64_MIN
  }

  /** Everything the gateway checks but the version. */
  predicate Sound(c: RuntimeConfig) {
    GatewayAccepts(c.(version := 1))
  }

  ghost predicate LogOk(log: seq<RuntimeConfig>) {
    && 0 < |log| <= INT64_MAX + 1
    && forall i :: 0 <= i < |log| ==> log[i].version == VersionAt(i) && Sound(log[i])
  }

  /** The snapshot is the configuration the store committed under that version. */
  ghost predicate Agrees(log: seq<RuntimeConfig>, c: RuntimeConfig) {
    1 <= c.version <= |log| && c == log[c.version - 1]
  }

  ghost predicate Inv(s: State) {
    && LogOk(s.log) && |s.writers| == |s.log| - 1
    && (forall c :: c in s.transit ==> c in s.log)
    && (forall g :: 0 <= g < |s.gateways| ==> Agrees(s.log, s.gateways[g]))
  }

  /** A valid update of a sound configuration is sound: what the control plane validates, the gateway accepts. */
  lemma ValidUpdateIsSound(c: RuntimeConfig, expected: int, u: Update, upper: string -> string)
    requires Sound(c) && ValidUpdate(u, upper) && Updated(c, expected, u, upper).Some?
    ensures Sound(Updated(c, expected, u, upper).value)
  {
  }

  lemma WriteKeeps(s: State, p: Step, upper: string -> string)
    requires Inv(s) && Enabled(s, p) && Wins(s, p, upper)
    ensures Inv(Next(s, p, upper))
  {
    var n := |s.log|;
    assert s.log[n - 1].version == VersionAt(n - 1);
    ValidUpdateIsSound(CurrentOf(s), p.expected, p.update, upper);
  }

  /** A configuration from the log that a gateway accepts stands in the log under its version. */
  lemma AcceptedAgrees(log: seq<RuntimeConfig>, c: RuntimeConfig)
    requires LogOk(log) && c in log && GatewayAccepts(c)
    ensures Agrees(log, c)
  {
    var i :| 0 <= i < |log| && log[i] == c;
    assert log[i].version == VersionAt(i);
  }

  lemma StepKeeps(s: State, p: Step, upper: string -> string)
    requires Inv(s) && Enabled(s, p)
    ensures Inv(Next(s, p, upper))
  {
    match p
    case Write(_, _, _) =>
      if Wins(s, p, upper) {
        WriteKeeps(s, p, upper);
      }
    case Deliver(g, c) =>
      if GatewayAccepts(c) {
        AcceptedAgrees(s.log, c);
      }
    case _ =>
  }

  lemma InitHolds(s: State)
    requires Init(s)
    ensures Inv(s)
  {
  }

  // -------------------------------------------------------------------------
  // Runs
  // -------------------------------------------------------------------------

  datatype Run = Run(states: seq<State>, steps: seq<Step>, upper: string -> string) {
    ghost predicate Valid() {
      && |states| == |steps| + 1
      && Init(states[0])
      && forall i :: 0 <= i < |steps| ==>
           Enabled(states[i], steps[i]) && states[i + 1] == Next(states[i], steps[i], upper)
    }
  }

  lemma {:induction false} Always(r: Run, i: nat)
    requires r.Valid() && i < |r.states|
    ensures Inv(r.states[i])
  {
    if i == 0 {
      InitHolds(r.states[0]);
    } else {
      Always(r, i - 1);
      StepKeeps(r.states[i - 1], r.steps[i - 1], r.upper);
    }
  }

  /** The log only grows, and no gateway ever goes back. */
  ghost predicate Onward(s: State, s': State) {
    && s.log <= s'.log && s.writers <= s'.writers && |s.gateways| == |s'.gateways|
    && forall g :: 0 <= g < |s.gateways| ==> s.gateways[g].version <= s'.gateways[g].version
  }

  lemma {:induction false} RunOnward(r: Run, i: nat, j: nat)
    requires r.Valid() && i <= j < |r.states|
    ensures Onward(r.states[i], r.states[j])
    decreases j
  {
    if i < j {
      RunOnward(r, i, j - 1);
      var s, p := r.states[j - 1], r.steps[j - 1];
      assert Enabled(s, p) && r.states[j] == Next(s, p, r.upper);
      assert Onward(s, r.states[j]);
    }
  }

  /**
   Agreement. Whatever was delayed, repeated or lost, every gateway runs on
   exactly the configuration the store committed under the version it reports,
   and it passes the gateway's own checks.
   */
  lemma Agreement(r: Run, i: nat, g: nat)
    requires r.Valid() && i < |r.states| && g < |r.states[i].gateways|
    ensures var s := r.states[i];
            var c := s.gateways[g];
            1 <= c.version <= |s.log| && c == s.log[c.version - 1] && GatewayAccepts(c)
  {
    Always(r, i);
    var s := r.states[i];
    assert Agrees(s.log, s.gateways[g]);
    assert Sound(s.log[s.gateways[g].version - 1]);
  }

  /** Two gateways that report the same version run on the same configuration, even at different times. */
  lemma SameVersionSameConfig(r: Run, i: nat, j: nat, g: nat, h: nat)
    requires r.Valid() && i <= j < |r.states| && g < |r.states[i].gateways| && h < |r.states[j].gateways|
    requires r.states[i].gateways[g].version == r.states[j].gateways[h].version
    ensures r.states[i].gateways[g] == r.states[j].gateways[h]
  {
    Agreement(r, i, g);
    Agreement(r, j, h);
    RunOnward(r, i, j);
  }

  /** A gateway's version never decreases. */
  lemma VersionsNeverDecrease(r: Run, i: nat, j: nat, g: nat)
    requires r.Valid() && i <= j < |r.states| && g < |r.states[i].gateways|
    ensures g < |r.states[j].gateways| && r.states[i].gateways[g].version <= r.states[j].gateways[g].version
  {
    RunOnward(r, i, j);
  }

  /**
   One writer per version. Of all writers that name the same version, at most one
   wins, ever; the one that wins writes the next version, on top of the
   configuration it named.
   */
  lemma OneWriterPerVersion(r: Run, i: nat, j: nat)
    requires r.Valid() && i < j < |r.steps|
    requires Wins(r.states[i], r.steps[i], r.upper) && Wins(r.states[j], r.steps[j], r.upper)
    ensures r.steps[i].expected < r.steps[j].expected
  {
    Always(r, i);
    Always(r, j);
    RunOnward(r, i + 1, j);
    var s, s' := r.states[i], r.states[j];
    assert s.log[|s.log| - 1].version == VersionAt(|s.log| - 1);
    assert s'.log[|s'.log| - 1].version == VersionAt(|s'.log| - 1);
    assert r.states[i + 1] == Next(s, r.steps[i], r.upper);
  }

  /** `c` is the update field by field, on top of `before`: the next version, and what no update sets. */
  predicate Carries(u: Update, upper: string -> string, before: RuntimeConfig, c: RuntimeConfig) {
    && c.version == (if before.version == INT64_MAX then INT64_MIN else before.version + 1)
    && c.maxPayload == u.maxPayload && c.maxConnections == u.maxConnections && c.maxRequests == u.maxRequests
    && c.outputLimit == u.outputLimit && c.logLevel == upper(u.logLevel) && c.queueDisplay == before.queueDisplay
  }

  /** The ranges a writer must keep to. */
  predicate InRange(u: Update, upper: string -> string) {
    && 10 <= u.maxPayload <= 4194314 && u.maxPayload + 4 <= u.outputLimit <= 67108864
    && 1 <= u.maxConnections <= 2147483647 && 1 <= u.maxRequests <= 2147483647
    && (|| upper(u.logLevel) == "DEBUG" || upper(u.logLevel) == "INFO"
        || upper(u.logLevel) == "WARN" || upper(u.logLevel) == "ERROR")
  }

  /** In every run, a write is taken exactly if it names the current version and keeps to the ranges. */
  lemma WriteDecides(r: Run, i: nat, writer: nat, expected: int, u: Update)
    requires r.Valid() && i < |r.steps| && r.steps[i] == Write(writer, expected, u)
    ensures var s, s' := r.states[i], r.states[i + 1];
            if expected == CurrentOf(s).version && InRange(u, r.upper) then
              && s'.log == s.log + [CurrentOf(s')] && s'.writers == s.writers + [writer]
              && Carries(u, r.upper, CurrentOf(s), CurrentOf(s'))
            else s' == s
  {
    var s := r.states[i];
    assert Enabled(s, r.steps[i]) && r.states[i + 1] == Next(s, r.steps[i], r.upper);
  }

  /** In every run, a gateway takes what it is handed exactly if it is newer: nothing from the store is out of range. */
  lemma DeliveryDecides(r: Run, i: nat, g: nat, c: RuntimeConfig)
    requires r.Valid() && i < |r.steps| && r.steps[i] == Deliver(g, c)
    ensures var s, s' := r.states[i], r.states[i + 1];
            && g < |s.gateways|
            && s'.gateways == if c.version > s.gateways[g].version then s.gateways[g := c] else s.gateways
  {
    Always(r, i);
    var s := r.states[i];
    assert Enabled(s, r.steps[i]) && r.states[i + 1] == Next(s, r.steps[i], r.upper);
    assert Agrees(s.log, s.gateways[g]);
    var j :| 0 <= j < |s.log| && s.log[j] == c;
    assert s.log[j].version == VersionAt(j) && Sound(s.log[j]);
  }

  /** The winner's entry, its version and its writer are in the log for good, every field of it. */
  lemma WinnerIsLogged(r: Run, i: nat, j: nat)
    requires r.Valid() && i < j < |r.states|
    requires Wins(r.states[i], r.steps[i], r.upper)
    ensures var p, s := r.steps[i], r.states[j];
            && p.expected < |s.log| && p.expected - 1 < |s.writers|
            && Updated(s.log[p.expected - 1], p.expected, p.update, r.upper) == Some(s.log[p.expected])
            && s.writers[p.expected - 1] == p.writer
            && s.log[p.expected - 1].version == p.expected
            && Carries(p.update, r.upper, s.log[p.expected - 1], s.log[p.expected])
  {
    Always(r, i);
    RunOnward(r, i + 1, j);
    var s := r.states[i];
    assert s.log[|s.log| - 1].version == VersionAt(|s.log| - 1);
    assert r.states[i + 1] == Next(s, r.steps[i], r.upper);
  }

  /** No version is ever used twice, the wrapped one included. */
  lemma VersionsAreUnique(r: Run, i: nat, a: nat, b: nat)
    requires r.Valid() && i < |r.states| && a < |r.states[i].log| && b < |r.states[i].log|
    requires r.states[i].log[a].version == r.states[i].log[b].version
    ensures a == b
  {
    Always(r, i);
  }

  /** Until the version counter wraps, a gateway that is handed the store's current configuration takes it. */
  lemma CatchUp(r: Run, i: nat, g: nat)
    requires r.Valid() && i < |r.states| && g < |r.states[i].gateways|
    requires CurrentOf(r.states[i]).version > 0 && CurrentOf(r.states[i]) in r.states[i].transit
    ensures var s := r.states[i];
            Next(s, Deliver(g, CurrentOf(s)), r.upper).gateways[g] == CurrentOf(s)
  {
    Always(r, i);
    var s := r.states[i];
    assert Agrees(s.log, s.gateways[g]);
    assert s.log[|s.log| - 1].version == VersionAt(|s.log| - 1) && Sound(CurrentOf(s));
  }

  /**
   Once the 64-bit version has wrapped, no update ever wins again: If-Match is
   positive and the version is not.
   */
  lemma WrappedStoreIsStuck(r: Run, i: nat, j: nat)
    requires r.Valid() && i <= j < |r.states| && CurrentOf(r.states[i]).version < 0
    ensures r.states[j].log == r.states[i].log
  {
    Always(r, i);
    Always(r, j);
    RunOnward(r, i, j);
    var s := r.states[i];
    assert s.log[|s.log| - 1].version == VersionAt(|s.log| - 1);
  }

  // -------------------------------------------------------------------------
  // The wrap is reached
  // -------------------------------------------------------------------------

  const RENEWAL := Update(1048576, 2, 100, 8388608, "INFO")

  /** Upper case stays as it is, as far as the renewal needs it. */
  predicate KeepsUpper(upper: string -> string) {
    upper(RENEWAL.logLevel) == RENEWAL.logLevel
  }

  /** While the version is positive, a run can renew it once more. */
  lemma Renewable(r: Run, s: State) returns (p: Step)
    requires r.Valid() && s == r.states[|r.states| - 1] && CurrentOf(s).version > 0 && KeepsUpper(r.upper)
    ensures Enabled(s, p) && |Next(s, p, r.upper).log| == |s.log| + 1
    ensures Run(r.states + [Next(s, p, r.upper)], r.steps + [p], r.upper).Valid()
  {
    Always(r, |r.states| - 1);
    assert s.log[|s.log| - 1].version == VersionAt(|s.log| - 1);
    p := Write(0, CurrentOf(s).version, RENEWAL);
    assert Wins(s, p, r.upper);
  }

  /** For every number of updates up to the wrap there is a run that makes them. */
  lemma {:induction false} Updates(upper: string -> string, n: nat) returns (states: seq<State>, steps: seq<Step>)
    requires n <= INT64_MAX && KeepsUpper(upper)
    ensures Run(states, steps, upper).Valid() && |states[|states| - 1].log| == n + 1
  {
    if n == 0 {
      states, steps := [State([STORE_DEFAULT], {}, [GATEWAY_DEFAULT], [])], [];
    } else {
      states, steps := Updates(upper, n - 1);
      var r, s := Run(states, steps, upper), states[|states| - 1];
      Always(r, |states| - 1);
      assert s.log[|s.log| - 1].version == VersionAt(|s.log| - 1);
      var p := Renewable(r, s);
      states, steps := states + [Next(s, p, upper)], steps + [p];
    }
  }

  /** Some run takes the version past the largest `int64`. */
  lemma WrapIsReached(upper: string -> string) returns (states: seq<State>, steps: seq<Step>)
    requires KeepsUpper(upper)
    ensures Run(states, steps, upper).Valid() && CurrentOf(states[|states| - 1]).version == INT64_MIN
  {
    states, steps := Updates(upper, INT64_MAX);
    Always(Run(states, steps, upper), |states| - 1);
    var s := states[|states| - 1];
    assert s.log[|s.log| - 1].version == VersionAt(|s.log| - 1);
  }

  // -------------------------------------------------------------------------
  // What the data plane may rely on
  // -------------------------------------------------------------------------

  /** The limits the Reactor takes from a snapshot. */
  function Limits(c: RuntimeConfig): Server.Config
    requires GatewayAccepts(c)
  {
    Server.Config(c.maxPayload, c.maxConnections, c.maxRequests, c.outputLimit)
  }

  /**
   Under any configuration a gateway can be running on, an answer that fits the
   frame limit always fits an empty output buffer: no client is dropped as slow
   for one legal answer.
   */
  lemma OneFrameAlwaysFits(r: Run, i: nat, g: nat, c: Server.Conn, answer: Server.Response)
    requires r.Valid() && i < |r.states| && g < |r.states[i].gateways|
    requires c.offset == |c.output| && !(answer.close && answer.skipWrite)
    requires 10 + |answer.frame.payload| <= r.states[i].gateways[g].maxPayload
    ensures GatewayAccepts(r.states[i].gateways[g])
    ensures !Server.Withheld(c, answer, Limits(r.states[i].gateways[g]).outputLimit)
  {
    Agreement(r, i, g);
  }
}
