/**
 The limit on authentication failures under concurrent `handleAuthCheck` calls.
 Checking the limit and recording a failure are separate critical sections, so
 handlers that have passed the check may still record.
 */
module AuthFailureRuns {
  import opened ControlPlane
  import opened Tallies

  // -------------------------------------------------------------------------
  // Steps
  // -------------------------------------------------------------------------

  /** A handler between its critical sections. */
  datatype Handler = Free | Passed(client: string)

  datatype State = State(now: int, counters: Counters, handlers: seq<Handler>)

  /** The failure policy; both values come from settings that are positive. */
  datatype Policy = Policy(limit: int, window: int)

  /** The credentials decide, after the check, whether a handler records or clears; a store error does neither. */
  datatype Step =
    | Tick(now: int)
    | Check(h: nat, client: string)
    | Record(h: nat)
    | Clear(h: nat)
    | GiveUp(h: nat)

  predicate Enabled(s: State, p: Step) {
    match p
    case Tick(now) => s.now <= now
    case Check(h, _) => h < |s.handlers| && s.handlers[h] == Free
    case Record(h) => h < |s.handlers| && s.handlers[h].Passed?
    case Clear(h) => h < |s.handlers| && s.handlers[h].Passed?
    case GiveUp(h) => h < |s.handlers| && s.handlers[h].Passed?
  }

  function Next(s: State, p: Step, policy: Policy): State
    requires Enabled(s, p)
  {
    match p
    case Tick(now) => s.(now := now)
    case Check(h, client) =>
      s.(counters := Checked(s.counters, client, s.now),
         handlers := if Limited(s.counters, client, policy.limit, s.now) then s.handlers
                     else s.handlers[h := Passed(client)])
    case Record(h) =>
      s.(counters := Recorded(s.counters, s.handlers[h].client, policy.window, s.now),
         handlers := s.handlers[h := Free])
    case Clear(h) =>
      s.(counters := s.counters - {s.handlers[h].client}, handlers := s.handlers[h := Free])
    case GiveUp(h) => s.(handlers := s.handlers[h := Free])
  }

  predicate Init(s: State) {
    s.counters == map[] && forall h :: 0 <= h < |s.handlers| ==> s.handlers[h] == Free
  }

  // -------------------------------------------------------------------------
  // The overshoot
  // -------------------------------------------------------------------------

  function Itself(h: Handler): Handler {
    h
  }

  /** Handlers that have passed the check for `client` and not yet recorded. */
  function Pending(handlers: seq<Handler>, client: string): nat {
    Tally(handlers, Itself, Passed(client))
  }

  lemma {:induction false} TallyUpdate(q: seq<Handler>, i: nat, x: Handler, u: Handler)
    requires i < |q|
    ensures Tally(q[i := x], Itself, u) + (if q[i] == u then 1 else 0)
            == Tally(q, Itself, u) + (if x == u then 1 else 0)
  {
    var front := q[..|q| - 1];
    if i == |q| - 1 {
      assert q[i := x][..|q| - 1] == front;
    } else {
      TallyUpdate(front, i, x, u);
      assert q[i := x][..|q| - 1] == front[i := x];
    }
  }

  /** A failure already counted and one still to be counted weigh the same. */
  ghost predicate Inv(s: State, policy: Policy) {
    forall client :: client in s.counters ==>
      s.counters[client].count + Pending(s.handlers, client) <= policy.limit - 1 + |s.handlers|
  }

  lemma StepKeeps(s: State, p: Step, policy: Policy)
    requires Inv(s, policy) && Enabled(s, p) && policy.limit > 0
    ensures Inv(Next(s, p, policy), policy)
  {
    var s' := Next(s, p, policy);
    forall client | client in s'.counters
      ensures s'.counters[client].count + Pending(s'.handlers, client) <= policy.limit - 1 + |s'.handlers|
    {
      if !p.Tick? {
        TallyUpdate(s.handlers, p.h, s'.handlers[p.h], Passed(client));
        assert s'.handlers == s.handlers[p.h := s'.handlers[p.h]];
      }
    }
  }

  // -------------------------------------------------------------------------
  // Runs
  // -------------------------------------------------------------------------

  datatype Run = Run(states: seq<State>, steps: seq<Step>, policy: Policy) {
    ghost predicate Valid() {
      && |states| == |steps| + 1 && policy.limit > 0 && policy.window > 0
      && Init(states[0])
      && forall i :: 0 <= i < |steps| ==>
           Enabled(states[i], steps[i]) && states[i + 1] == Next(states[i], steps[i], policy)
    }
  }

  lemma {:induction false} Always(r: Run, i: nat)
    requires r.Valid() && i < |r.states|
    ensures Inv(r.states[i], r.policy) && |r.states[i].handlers| == |r.states[0].handlers|
  {
    if i > 0 {
      Always(r, i - 1);
      StepKeeps(r.states[i - 1], r.steps[i - 1], r.policy);
      assert r.states[i] == Next(r.states[i - 1], r.steps[i - 1], r.policy);
    }
  }

  /** With at most K handlers at work, a stored count never exceeds limit + K - 1. */
  lemma OvershootBound(r: Run, i: nat, client: string)
    requires r.Valid() && i < |r.states| && client in r.states[i].counters
    ensures r.states[i].counters[client].count <= r.policy.limit + |r.states[0].handlers| - 1
  {
    Always(r, i);
  }

  /** A handler passes the check unless its client has a current counter at the limit. */
  lemma PassesExactly(r: Run, i: nat, h: nat, client: string)
    requires r.Valid() && i < |r.steps| && r.steps[i] == Check(h, client)
    ensures var s, s' := r.states[i], r.states[i + 1];
            && h < |s'.handlers|
            && (s'.handlers[h] == Passed(client) <==>
                  || client !in s.counters
                  || s.counters[client].expiresAt <= s.now || s.counters[client].count < r.policy.limit)
  {
    assert Enabled(r.states[i], r.steps[i]) && r.states[i + 1] == Next(r.states[i], r.steps[i], r.policy);
  }

  /** Later failures of a window never extend it: an expiry time changes only once it has passed. */
  lemma ExpiryNeverExtended(s: State, p: Step, policy: Policy, client: string)
    requires Enabled(s, p) && client in s.counters && client in Next(s, p, policy).counters
    ensures var c, c' := s.counters[client], Next(s, p, policy).counters[client];
            || c'.expiresAt == c.expiresAt
            || (c.expiresAt <= s.now && c' == Counter(1, s.now + policy.window))
  {
  }

  /**
   Over a run, a window keeps its end and only gains failures for as long as its
   counter is kept and its time has not come.
   */
  lemma {:induction false} WindowHolds(r: Run, i: nat, j: nat, client: string)
    requires r.Valid() && i <= j < |r.states|
    requires forall k :: i <= k <= j ==> client in r.states[k].counters
    requires r.states[j].now < r.states[i].counters[client].expiresAt
    ensures r.states[i].now <= r.states[j].now
    ensures r.states[j].counters[client].expiresAt == r.states[i].counters[client].expiresAt
    ensures r.states[i].counters[client].count <= r.states[j].counters[client].count
    decreases j
  {
    if i < j {
      var s, p := r.states[j - 1], r.steps[j - 1];
      assert Enabled(s, p) && r.states[j] == Next(s, p, r.policy);
      assert s.now <= r.states[j].now;
      WindowHolds(r, i, j - 1, client);
      ExpiryNeverExtended(s, p, r.policy, client);
    }
  }

  /** Over a run, no lockout outlasts one window: every expiry time is at most a window away. */
  lemma {:induction false} LockoutEnds(r: Run, i: nat, client: string)
    requires r.Valid() && i < |r.states| && client in r.states[i].counters
    ensures r.states[i].counters[client].expiresAt <= r.states[i].now + r.policy.window
    ensures r.states[i].counters[client].count > 0
  {
    if i > 0 {
      var s, p := r.states[i - 1], r.steps[i - 1];
      assert r.states[i] == Next(s, p, r.policy);
      if client in s.counters {
        LockoutEnds(r, i - 1, client);
      }
    }
  }

  // -------------------------------------------------------------------------
  // The bound is reached
  // -------------------------------------------------------------------------

  /** `r` extended by one step. */
  function Extended(r: Run, p: Step): Run
    requires r.states != [] && Enabled(r.states[|r.states| - 1], p)
  {
    r.(states := r.states + [Next(r.states[|r.states| - 1], p, r.policy)], steps := r.steps + [p])
  }

  function LastOf(r: Run): State
    requires r.states != []
  {
    r.states[|r.states| - 1]
  }

  lemma ExtendedIsValid(r: Run, p: Step)
    requires r.Valid() && Enabled(LastOf(r), p)
    ensures Extended(r, p).Valid() && LastOf(Extended(r, p)) == Next(LastOf(r), p, r.policy)
  {
  }

  /** The first `m` handlers have passed the check for `client`, the others are free. */
  function Crowd(k: nat, m: nat, client: string): (hs: seq<Handler>)
    requires m <= k
    ensures |hs| == k
  {
    seq(k, h => if h < m then Passed(client) else Free)
  }

  /** Counted failures of `client` at time 0, when the first `m` of `k` handlers have passed the check. */
  function Scene(policy: Policy, k: nat, n: nat, m: nat, client: string): State
    requires m <= k
  {
    State(0, if n == 0 then map[] else map[client := Counter(n, policy.window)], Crowd(k, m, client))
  }

  /** One handler alone fails `n` times, below the limit. */
  lemma {:induction false} FailAlone(policy: Policy, k: nat, n: nat, client: string) returns (r: Run)
    requires policy.limit > 0 && policy.window > 0 && k > 0 && n < policy.limit
    ensures r.Valid() && r.policy == policy && LastOf(r) == Scene(policy, k, n, 0, client)
    ensures |r.states[0].handlers| == k
    decreases n
  {
    if n == 0 {
      r := Run([Scene(policy, k, 0, 0, client)], [], policy);
    } else {
      var q := FailAlone(policy, k, n - 1, client);
      r := Passing(q, policy, k, n - 1, 0, client);
      r := Recording(r, policy, k, n - 1, 1, client);
    }
  }

  lemma Passing(q: Run, policy: Policy, k: nat, n: nat, m: nat, client: string) returns (r: Run)
    requires q.Valid() && q.policy == policy && m < k && n < policy.limit
    requires LastOf(q) == Scene(policy, k, n, m, client)
    ensures r.Valid() && r.policy == policy && LastOf(r) == Scene(policy, k, n, m + 1, client)
    ensures r.states[0] == q.states[0]
  {
    r := Extended(q, Check(m, client));
    ExtendedIsValid(q, Check(m, client));
    assert LastOf(r).handlers == Crowd(k, m + 1, client);
  }

  lemma Recording(q: Run, policy: Policy, k: nat, n: nat, m: nat, client: string) returns (r: Run)
    requires q.Valid() && q.policy == policy && 0 < m <= k
    requires LastOf(q) == Scene(policy, k, n, m, client)
    ensures r.Valid() && r.policy == policy && LastOf(r) == Scene(policy, k, n + 1, m - 1, client)
    ensures r.states[0] == q.states[0]
  {
    r := Extended(q, Record(m - 1));
    ExtendedIsValid(q, Record(m - 1));
    assert LastOf(r).handlers == Crowd(k, m - 1, client);
    assert LastOf(r).counters == map[client := Counter(n + 1, policy.window)];
  }

  lemma {:induction false} AllPass(q: Run, policy: Policy, k: nat, n: nat, m: nat, client: string) returns (r: Run)
    requires q.Valid() && q.policy == policy && m <= k && n < policy.limit
    requires LastOf(q) == Scene(policy, k, n, m, client)
    ensures r.Valid() && r.policy == policy && LastOf(r) == Scene(policy, k, n, k, client)
    ensures r.states[0] == q.states[0]
    decreases k - m
  {
    if m == k {
      r := q;
    } else {
      r := Passing(q, policy, k, n, m, client);
      r := AllPass(r, policy, k, n, m + 1, client);
    }
  }

  lemma {:induction false} AllRecord(q: Run, policy: Policy, k: nat, n: nat, m: nat, client: string) returns (r: Run)
    requires q.Valid() && q.policy == policy && m <= k
    requires LastOf(q) == Scene(policy, k, n, m, client)
    ensures r.Valid() && r.policy == policy && LastOf(r) == Scene(policy, k, n + m, 0, client)
    ensures r.states[0] == q.states[0]
    decreases m
  {
    if m == 0 {
      r := q;
    } else {
      r := Recording(q, policy, k, n, m, client);
      r := AllRecord(r, policy, k, n + 1, m - 1, client);
    }
  }

  /** The bound is exact: for every policy and every K > 0 some run with K handlers reaches it. */
  lemma OvershootIsReached(policy: Policy, k: nat, client: string) returns (r: Run)
    requires policy.limit > 0 && policy.window > 0 && k > 0
    ensures r.Valid() && r.policy == policy && |r.states[0].handlers| == k
    ensures client in LastOf(r).counters && LastOf(r).counters[client].count == policy.limit + k - 1
  {
    r := FailAlone(policy, k, policy.limit - 1, client);
    r := AllPass(r, policy, k, policy.limit - 1, 0, client);
    r := AllRecord(r, policy, k, policy.limit - 1, k, client);
  }
}
