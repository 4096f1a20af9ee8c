/**
 The control plane's store: the versioned runtime configuration, and the count
 of recent authentication failures per client. Also the gateway's half of the
 configuration contract.
 */
module ControlPlane {
  import opened Options

  // -------------------------------------------------------------------------
  // Configuration
  // -------------------------------------------------------------------------

  const INT64_MAX: int := 0x7fff_ffff_ffff_ffff
  const INT64_MIN: int := -0x8000_0000_0000_0000
  const INT32_MAX: int := 0x7fff_ffff

  datatype RuntimeConfig = RuntimeConfig(
    version: int, maxPayload: int, maxConnections: int, maxRequests: int, outputLimit: int, logLevel: string,
    queueDisplay: int)

  datatype Update = Update(maxPayload: int, maxConnections: int, maxRequests: int, outputLimit: int, logLevel: string)

  const LEVELS: set<string> := {"DEBUG", "INFO", "WARN", "ERROR"}

  /** `defaultRuntimeConfig` of the control plane. */
  const STORE_DEFAULT := RuntimeConfig(1, 1048576, 2, 100, 8388608, "INFO", 4096)

  /** The member initialisers of the gateway's `RuntimeConfig`. */
  const GATEWAY_DEFAULT := RuntimeConfig(1, 1048576, 2, 100, 8 * 1024 * 1024, "INFO", 4096)

  /** `validateConfigUpdate`; `upper` is `strings.ToUpper`. */
  predicate ValidUpdate(u: Update, upper: string -> string) {
    && 10 <= u.maxPayload <= 4194314
    && 0 < u.maxConnections <= INT32_MAX
    && 0 < u.maxRequests <= INT32_MAX
    && u.maxPayload + 4 <= u.outputLimit <= 67108864
    && upper(u.logLevel) in LEVELS
  }

  /** `int64` addition of one. */
  function NextVersion(v: int): int {
    if v == INT64_MAX then INT64_MIN else v + 1
  }

  /** `updateConfig`: the new configuration, or a conflict. */
  function Updated(c: RuntimeConfig, expected: int, u: Update, upper: string -> string): Option<RuntimeConfig> {
    if c.version != expected then None
    else Some(RuntimeConfig(NextVersion(c.version), u.maxPayload, u.maxConnections, u.maxRequests, u.outputLimit,
                            upper(u.logLevel), c.queueDisplay))
  }

  /** The range checks of the gateway's `parseRuntimeConfig`. */
  predicate GatewayAccepts(c: RuntimeConfig) {
    && 1 <= c.version <= INT64_MAX
    && 10 <= c.maxPayload <= 4 * 1024 * 1024 + 10
    && 1 <= c.maxConnections <= INT32_MAX
    && 1 <= c.maxRequests <= INT32_MAX
    && c.maxPayload + 4 <= c.outputLimit <= 64 * 1024 * 1024
    && c.logLevel in LEVELS
    && 1 <= c.queueDisplay <= 65536
  }

  /** `applyRuntimeConfigIfNewer` */
  function Newer(current: RuntimeConfig, candidate: RuntimeConfig): RuntimeConfig {
    if candidate.version <= current.version then current else candidate
  }

  // -------------------------------------------------------------------------
  // Authentication failures
  // -------------------------------------------------------------------------

  /** Times are in nanoseconds of one clock. */
  datatype Counter = Counter(count: nat, expiresAt: int)

  type Counters = map<string, Counter>

  predicate Current(cs: Counters, client: string, now: int) {
    client in cs && now < cs[client].expiresAt
  }

  /** `authFailureLimited`: the verdict, and the counters after it. */
  predicate Limited(cs: Counters, client: string, limit: int, now: int) {
    Current(cs, client, now) && cs[client].count >= limit
  }

  function Checked(cs: Counters, client: string, now: int): Counters {
    if client in cs && !Current(cs, client, now) then cs - {client} else cs
  }

  /** `recordAuthFailure` */
  function Recorded(cs: Counters, client: string, window: int, now: int): Counters {
    var counter := if Current(cs, client, now) then cs[client] else Counter(0, now + window);
    cs[client := counter.(count := counter.count + 1)]
  }

  // -------------------------------------------------------------------------
  // The store as written
  // -------------------------------------------------------------------------

  /** `memoryStore` under its lock. */
  class MemoryStore {
    var authFailures: Counters
    var config: RuntimeConfig

    constructor ()
      ensures authFailures == map[] && config == STORE_DEFAULT
    {
      authFailures, config := map[], STORE_DEFAULT;
    }

    method UpdateConfig(expected: int, u: Update, upper: string -> string) returns (r: Option<RuntimeConfig>)
      modifies this`config
      ensures r == Updated(old(config), expected, u, upper)
      ensures config == if r.Some? then r.value else old(config)
      ensures r.Some? <==> old(config).version == expected
      ensures r.Some? ==>
                && config.version == (if expected == INT64_MAX then INT64_MIN else expected + 1)
                && config.maxPayload == u.maxPayload && config.maxConnections == u.maxConnections
                && config.maxRequests == u.maxRequests && config.outputLimit == u.outputLimit
                && config.logLevel == upper(u.logLevel) && config.queueDisplay == old(config).queueDisplay
    {
      if config.version != expected {
        return None;
      }
      config := RuntimeConfig(NextVersion(config.version), u.maxPayload, u.maxConnections, u.maxRequests,
                              u.outputLimit, upper(u.logLevel), config.queueDisplay);
      return Some(config);
    }

    method AuthFailureLimited(client: string, limit: int, now: int) returns (limited: bool)
      modifies this`authFailures
      ensures limited == Limited(old(authFailures), client, limit, now)
      ensures authFailures == Checked(old(authFailures), client, now)
    {
      if client !in authFailures {
        return false;
      }
      var counter := authFailures[client];
      if now >= counter.expiresAt {
        authFailures := authFailures - {client};
        return false;
      }
      return counter.count >= limit;
    }

    method RecordAuthFailure(client: string, window: int, now: int) returns (count: nat)
      modifies this`authFailures
      ensures authFailures == Recorded(old(authFailures), client, window, now)
      ensures client in authFailures && count == authFailures[client].count
    {
      var counter := Counter(0, now + window);
      if client in authFailures && now < authFailures[client].expiresAt {
        counter := authFailures[client];
      }
      counter := counter.(count := counter.count + 1);
      authFailures := authFailures[client := counter];
      return counter.count;
    }

    method ClearAuthFailures(client: string)
      modifies this`authFailures
      ensures authFailures == old(authFailures) - {client}
    {
      authFailures := authFailures - {client};
    }
  }

  datatype Decision = Allowed | InvalidToken | DisabledToken

  datatype AuthAnswer = InvalidArgument | RateLimited | InvalidCredentials | TokenDisabled | Admitted

  /** The counters after one whole check that no other handler interrupts. */
  function AfterCheck(cs: Counters, client: string, decision: Decision, limit: int, window: int, checkedAt: int,
                      recordedAt: int): Counters {
    if Limited(cs, client, limit, checkedAt) then cs
    else if decision == Allowed then cs - {client}
    else Recorded(Checked(cs, client, checkedAt), client, window, recordedAt)
  }

  predicate BadArguments(client: string, token: string) {
    client == "" || token == "" || |client| > 128 || |token| > 4096
  }

  /** What the counters and the credentials call for. */
  function AnswerFor(cs: Counters, client: string, decision: Decision, limit: int, window: int, checkedAt: int,
                     recordedAt: int): AuthAnswer {
    if Limited(cs, client, limit, checkedAt) then RateLimited
    else if decision == Allowed then Admitted
    else if Recorded(Checked(cs, client, checkedAt), client, window, recordedAt)[client].count >= limit then RateLimited
    else if decision == DisabledToken then TokenDisabled
    else InvalidCredentials
  }

  /**
   `handleAuthCheck` on a store no other handler touches meanwhile; `decision` is
   what the token digest says. The clock is read once for the check and once for
   the record. The memory store reports no errors.
   */
  method HandleAuthCheck(store: MemoryStore, client: string, token: string, decision: Decision, limit: int,
                         window: int, checkedAt: int, recordedAt: int) returns (answer: AuthAnswer)
    requires window > 0
    modifies store`authFailures
    ensures answer
            == if BadArguments(client, token) then InvalidArgument
               else AnswerFor(old(store.authFailures), client, decision, limit, window, checkedAt, recordedAt)
    ensures store.authFailures
            == if BadArguments(client, token) then old(store.authFailures)
               else AfterCheck(old(store.authFailures), client, decision, limit, window, checkedAt, recordedAt)
    ensures answer == InvalidArgument <==> |client| == 0 || |token| == 0 || |client| > 128 || |token| > 4096
    ensures answer == Admitted <==>
              && answer != InvalidArgument && decision == Allowed
              && var cs := old(store.authFailures);
                 client !in cs || cs[client].expiresAt <= checkedAt || cs[client].count < limit
    ensures answer == Admitted ==> client !in store.authFailures
    ensures forall other :: other != client ==>
              && (other in store.authFailures <==> other in old(store.authFailures))
              && (other in store.authFailures ==> store.authFailures[other] == old(store.authFailures)[other])
    ensures answer == TokenDisabled ==> decision == DisabledToken
    ensures answer == InvalidCredentials ==> decision == InvalidToken
    ensures answer in {InvalidCredentials, TokenDisabled} ==>
              Current(store.authFailures, client, recordedAt) && store.authFailures[client].count < limit
    ensures answer == RateLimited && !Limited(old(store.authFailures), client, limit, checkedAt) ==>
              Limited(store.authFailures, client, limit, recordedAt) && decision != Allowed
  {
    if client == "" || token == "" || |client| > 128 || |token| > 4096 {
      return InvalidArgument;
    }
    var limited := store.AuthFailureLimited(client, limit, checkedAt);
    if limited {
      return RateLimited;
    }
    if decision != Allowed {
      var count := store.RecordAuthFailure(client, window, recordedAt);
      answer := if decision == DisabledToken then TokenDisabled else InvalidCredentials;
      if count >= limit {
        answer := RateLimited;
      }
      return;
    }
    store.ClearAuthFailures(client);
    return Admitted;
  }

  /** One call of `handleAuthCheck`: when it checked, when it recorded, and what the credentials said. */
  datatype Try = Try(checkedAt: int, recordedAt: int, decision: Decision)

  /** The counters after the tries `ts` of one client, one after the other. */
  function AfterTries(cs: Counters, client: string, ts: seq<Try>, limit: int, window: int): Counters {
    if ts == [] then cs
    else
      var t := ts[|ts| - 1];
      AfterCheck(AfterTries(cs, client, ts[..|ts| - 1], limit, window), client, t.decision, limit, window,
                 t.checkedAt, t.recordedAt)
  }

  /** The tries all fail, and all but the first fall into the window that the first one opens. */
  predicate FailingIn(ts: seq<Try>, window: int) {
    && (forall i :: 0 <= i < |ts| ==> ts[i].decision != Allowed)
    && (forall i :: 1 <= i < |ts| ==>
          ts[i].checkedAt < ts[0].recordedAt + window && ts[i].recordedAt < ts[0].recordedAt + window)
  }

  /** The reason of a refusal that is not about the number of failures. */
  function ReasonFor(decision: Decision): AuthAnswer {
    if decision == DisabledToken then TokenDisabled else InvalidCredentials
  }

  /**
   A client without a current counter that keeps failing within one window, at any
   times and for any reasons, is told the reason of each failure `limit - 1` times
   and is rate limited from then on. The count stops at the limit, and the window
   ends when the first failure says.
   */
  lemma {:induction false} FailuresThenLimited(cs: Counters, client: string, ts: seq<Try>, limit: int, window: int)
    requires 0 < limit && window > 0 && ts != [] && FailingIn(ts, window)
    requires !Current(cs, client, ts[0].checkedAt)
    ensures AfterTries(cs, client, ts, limit, window)
            == cs[client := Counter(if |ts| < limit then |ts| else limit, ts[0].recordedAt + window)]
    ensures var front, t := ts[..|ts| - 1], ts[|ts| - 1];
            AnswerFor(AfterTries(cs, client, front, limit, window), client, t.decision, limit, window, t.checkedAt,
                      t.recordedAt)
            == if |ts| >= limit then RateLimited else ReasonFor(t.decision)
    decreases |ts|
  {
    var front, t, end := ts[..|ts| - 1], ts[|ts| - 1], ts[0].recordedAt + window;
    if |ts| > 1 {
      assert FailingIn(front, window) && front[0] == ts[0];
      FailuresThenLimited(cs, client, front, limit, window);
      NextFailure(cs, client, if |front| < limit then |front| else limit, end, t, limit, window);
    } else {
      assert AfterTries(cs, client, front, limit, window) == cs;
      FirstFailure(cs, client, t, limit, window);
    }
  }

  lemma FirstFailure(cs: Counters, client: string, t: Try, limit: int, window: int)
    requires 0 < limit && window > 0 && t.decision != Allowed && !Current(cs, client, t.checkedAt)
    ensures AfterCheck(cs, client, t.decision, limit, window, t.checkedAt, t.recordedAt)
            == cs[client := Counter(1, t.recordedAt + window)]
    ensures AnswerFor(cs, client, t.decision, limit, window, t.checkedAt, t.recordedAt)
            == if 1 >= limit then RateLimited else ReasonFor(t.decision)
  {
  }

  lemma NextFailure(cs: Counters, client: string, n: nat, end: int, t: Try, limit: int, window: int)
    requires 0 < n <= limit && t.decision != Allowed && t.checkedAt < end && t.recordedAt < end
    ensures var before := cs[client := Counter(n, end)];
            && AfterCheck(before, client, t.decision, limit, window, t.checkedAt, t.recordedAt)
               == cs[client := Counter(if n < limit then n + 1 else limit, end)]
            && AnswerFor(before, client, t.decision, limit, window, t.checkedAt, t.recordedAt)
               == if n + 1 >= limit then RateLimited else ReasonFor(t.decision)
  {
  }
}
