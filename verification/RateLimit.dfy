/**
 The per-client request limiter of `TcpServer::allowRequestForClient`: fixed
 one-second windows, each opened by the first request after the last one ended.
 */
module RateLimit {
  import opened Options

  /** `steady_clock` counts nanoseconds. */
  const SECOND: int := 1_000_000_000

  /** A default-constructed window starts at time zero and is treated as not started. */
  datatype Window = Window(start: int, count: nat)

  const UNSTARTED := Window(0, 0)

  /** The window in which a request at `now` is counted. */
  function Current(w: Window, now: int): (r: Window)
  {
    if w.start == 0 || now - w.start >= SECOND then Window(now, 0) else w
  }

  predicate Admits(w: Window, now: int, limit: int) {
    Current(w, now).count < limit
  }

  function Counted(w: Window, now: int, limit: int): Window {
    var c := Current(w, now);
    if c.count < limit then Window(c.start, c.count + 1) else c
  }

  type Windows = map<string, Window>

  function WindowOf(m: Windows, client: string): Window {
    if client in m then m[client] else UNSTARTED
  }

  class RateLimiter {
    var windows: Windows

    constructor ()
      ensures windows == map[]
    {
      windows := map[];
    }

    /** `allowRequestForClient`: the window is created on first use and updated in place. */
    method Allow(client: string, now: int, limit: int) returns (allowed: bool)
      modifies this
      ensures allowed == Admits(old(WindowOf(windows, client)), now, limit)
      ensures windows == old(windows)[client := Counted(old(WindowOf(windows, client)), now, limit)]
    {
      var window := WindowOf(windows, client);
      if window.start == 0 || now - window.start >= SECOND {
        window := Window(now, 0);
      }
      allowed := window.count < limit;
      if allowed {
        window := Window(window.start, window.count + 1);
      }
      windows := windows[client := window];
    }
  }

  // -------------------------------------------------------------------------
  // How many requests one second can admit
  // -------------------------------------------------------------------------

  /** What happens to one client's window: a request under the limit of the moment, or the loss of the window. */
  datatype Event = Call(now: int, limit: nat) | Drop

  /** The window after the events `es`, in order. */
  function After(es: seq<Event>): Window {
    if es == [] then UNSTARTED
    else
      match es[|es| - 1]
      case Call(now, limit) => Counted(After(es[..|es| - 1]), now, limit)
      case Drop => UNSTARTED
  }

  /** The time of the last request. */
  function LastCall(es: seq<Event>): int {
    if es == [] then 0
    else
      match es[|es| - 1]
      case Call(now, _) => now
      case Drop => LastCall(es[..|es| - 1])
  }

  /** How many requests were admitted at a time in [from, to). */
  function AdmittedIn(es: seq<Event>, from: int, to: int): (n: nat)
    ensures n <= |es|
  {
    if es == [] then 0
    else
      var front, e := es[..|es| - 1], es[|es| - 1];
      AdmittedIn(front, from, to)
      + if e.Call? && from <= e.now < to && Admits(After(front), e.now, e.limit) then 1 else 0
  }

  /** How often the window was lost with its last request at a time in [from, to). */
  function DropsIn(es: seq<Event>, from: int, to: int): (m: nat)
    ensures m <= |es|
  {
    if es == [] then 0
    else
      var front := es[..|es| - 1];
      DropsIn(front, from, to) + if es[|es| - 1].Drop? && from <= LastCall(front) < to then 1 else 0
  }

  /** A clock that has started and never runs backwards. */
  predicate Clock(es: seq<Event>) {
    es == []
    || (var front, e := es[..|es| - 1], es[|es| - 1];
        Clock(front) && (e.Call? ==> 0 < e.now && LastCall(front) <= e.now))
  }

  /** Every limit in force was positive and at most `limit`. */
  predicate Within(es: seq<Event>, limit: nat) {
    forall e :: e in es && e.Call? ==> 1 <= e.limit <= limit
  }

  /**
   Where the current window stands relative to the second [from, from + SECOND),
   when `n` requests were admitted in it and `lost` is the limit times the windows
   lost in it. Up to the first loss the second meets at most two windows, and if it
   meets two, the request that opened the first of them came before the second
   began. After a loss it meets one more.
   */
  ghost predicate Bounded(w: Window, last: int, n: nat, lost: nat, limit: nat, from: int) {
    && w.count <= limit && (w.start > 0 ==> w.count > 0) && 0 <= w.start <= last
    && (last < from ==> n == 0 && lost == 0)
    && (last < from + SECOND ==>
          if w.start == 0 then n < lost + limit
          else if w.start < from then lost == 0 && (n == 0 || n < w.count)
          else n < lost + limit + w.count)
    && n < lost + 2 * limit
  }

  lemma CallKeepsBounded(w: Window, last: int, n: nat, lost: nat, limit: nat, from: int, now: int, l: nat)
    requires Bounded(w, last, n, lost, limit, from) && 0 < now && last <= now && 1 <= l <= limit
    ensures Bounded(Counted(w, now, l), now,
                    n + (if from <= now < from + SECOND && Admits(w, now, l) then 1 else 0), lost, limit, from)
  {
  }

  lemma {:induction false} BoundedAfter(es: seq<Event>, limit: nat, from: int)
    requires Clock(es) && Within(es, limit) && limit > 0
    ensures Bounded(After(es), LastCall(es), AdmittedIn(es, from, from + SECOND),
                    DropsIn(es, from, from + SECOND) * limit, limit, from)
    decreases |es|
  {
    if es != [] {
      var front, e := es[..|es| - 1], es[|es| - 1];
      BoundedAfter(front, limit, from);
      var m := DropsIn(front, from, from + SECOND);
      if e.Call? {
        assert e in es;
        CallKeepsBounded(After(front), LastCall(front), AdmittedIn(front, from, from + SECOND), m * limit, limit, from,
                         e.now, e.limit);
      } else {
        assert (m + 1) * limit == m * limit + limit;
      }
    }
  }

  /** A second in which the window is lost `m` times admits at most (m + 2)L - 1, L being the largest limit in force. */
  lemma RateBound(es: seq<Event>, limit: nat, from: int)
    requires Clock(es) && Within(es, limit) && limit > 0
    ensures AdmittedIn(es, from, from + SECOND) <= (DropsIn(es, from, from + SECOND) + 2) * limit - 1
  {
    BoundedAfter(es, limit, from);
    var m := DropsIn(es, from, from + SECOND);
    assert (m + 2) * limit == m * limit + 2 * limit;
  }

  /** No second of a run in which the window is kept admits twice the limit. */
  lemma LessThanTwiceTheLimit(es: seq<Event>, limit: nat, from: int)
    requires Clock(es) && Within(es, limit) && limit > 0 && DropsIn(es, from, from + SECOND) == 0
    ensures AdmittedIn(es, from, from + SECOND) <= 2 * limit - 1
  {
    RateBound(es, limit, from);
  }

  // -------------------------------------------------------------------------
  // The bound is reached
  // -------------------------------------------------------------------------

  /** `n` requests at the same time. */
  function Burst(now: int, limit: nat, n: nat): (es: seq<Event>)
    ensures |es| == n && forall i :: 0 <= i < n ==> es[i] == Call(now, limit)
  {
    seq(n, _ => Call(now, limit))
  }

  /** What a list of events comes to, for one second. */
  datatype Sum = Sum(window: Window, last: int, admitted: nat, drops: nat)

  function SumOf(es: seq<Event>, from: int): Sum {
    Sum(After(es), LastCall(es), AdmittedIn(es, from, from + SECOND), DropsIn(es, from, from + SECOND))
  }

  ghost predicate Sound(es: seq<Event>, limit: nat) {
    Clock(es) && Within(es, limit)
  }

  lemma CallAdmitted(es: seq<Event>, now: int, limit: nat, from: int)
    requires Sound(es, limit) && 0 < now && LastCall(es) <= now && limit > 0
    requires Current(After(es), now).count < limit
    ensures Sound(es + [Call(now, limit)], limit)
    ensures var c, t := Current(After(es), now), SumOf(es, from);
            SumOf(es + [Call(now, limit)], from)
            == Sum(Window(c.start, c.count + 1), now,
                   t.admitted + (if from <= now < from + SECOND then 1 else 0), t.drops)
  {
    assert (es + [Call(now, limit)])[..|es|] == es;
  }

  lemma WindowLost(es: seq<Event>, limit: nat, from: int)
    requires Sound(es, limit)
    ensures Sound(es + [Drop], limit)
    ensures var t := SumOf(es, from);
            SumOf(es + [Drop], from)
            == Sum(UNSTARTED, t.last, t.admitted, t.drops + if from <= t.last < from + SECOND then 1 else 0)
  {
    assert (es + [Drop])[..|es|] == es;
  }

  /** A burst that fits the quota left is admitted whole. */
  lemma {:induction false} BurstAdmitted(es: seq<Event>, now: int, n: nat, limit: nat, from: int)
    requires Sound(es, limit) && 0 < now && LastCall(es) <= now && n > 0
    requires Current(After(es), now).count + n <= limit
    ensures Sound(es + Burst(now, limit, n), limit)
    ensures var c, t := Current(After(es), now), SumOf(es, from);
            SumOf(es + Burst(now, limit, n), from)
            == Sum(Window(c.start, c.count + n), now,
                   t.admitted + (if from <= now < from + SECOND then n else 0), t.drops)
    decreases n
  {
    var before := es + Burst(now, limit, n - 1);
    if n == 1 {
      assert before == es;
    } else {
      BurstAdmitted(es, now, n - 1, limit, from);
    }
    CallAdmitted(before, now, limit, from);
    assert before + [Call(now, limit)] == es + Burst(now, limit, n);
  }

  /** One request opens a window, the rest of its quota comes at its last instant, the next quota right after. */
  lemma TwoWindows(limit: nat) returns (es: seq<Event>)
    requires limit > 0
    ensures Sound(es, limit)
    ensures SumOf(es, 2) == Sum(Window(SECOND + 1, limit), SECOND + 1, 2 * limit - 1, 0)
  {
    es := [] + Burst(1, limit, 1);
    BurstAdmitted([], 1, 1, limit, 2);
    if limit > 1 {
      BurstAdmitted(es, SECOND, limit - 1, limit, 2);
      es := es + Burst(SECOND, limit, limit - 1);
    }
    BurstAdmitted(es, SECOND + 1, limit, limit, 2);
    es := es + Burst(SECOND + 1, limit, limit);
  }

  /** Each loss of the window in the same second brings another quota. */
  lemma {:induction false} AndLosses(limit: nat, m: nat) returns (es: seq<Event>)
    requires limit > 0
    ensures Sound(es, limit)
    ensures SumOf(es, 2) == Sum(Window(SECOND + 1, limit), SECOND + 1, (m + 2) * limit - 1, m)
  {
    if m == 0 {
      es := TwoWindows(limit);
    } else {
      es := AndLosses(limit, m - 1);
      WindowLost(es, limit, 2);
      es := es + [Drop];
      BurstAdmitted(es, SECOND + 1, limit, limit, 2);
      es := es + Burst(SECOND + 1, limit, limit);
      assert (m + 2) * limit == (m - 1 + 2) * limit + limit;
    }
  }

  /** The bound is exact: for every limit and every number of losses some second reaches it. */
  lemma RateBoundIsReached(limit: nat, m: nat) returns (es: seq<Event>, from: int)
    requires limit > 0
    ensures Clock(es) && Within(es, limit) && DropsIn(es, from, from + SECOND) == m
    ensures AdmittedIn(es, from, from + SECOND) == (m + 2) * limit - 1
  {
    from := 2;
    es := AndLosses(limit, m);
    assert SumOf(es, 2).drops == m;
  }

  /** Without a loss, 2L - 1 is reached. */
  lemma TwiceTheLimitMinusOneIsReached(limit: nat) returns (es: seq<Event>, from: int)
    requires limit > 0
    ensures Clock(es) && Within(es, limit) && DropsIn(es, from, from + SECOND) == 0
    ensures AdmittedIn(es, from, from + SECOND) == 2 * limit - 1
  {
    es, from := RateBoundIsReached(limit, 0);
  }

  /** One loss is enough to admit more than 2L - 1. */
  lemma OneLossExceedsIt(limit: nat) returns (es: seq<Event>, from: int)
    requires limit > 0
    ensures Clock(es) && Within(es, limit) && DropsIn(es, from, from + SECOND) == 1
    ensures AdmittedIn(es, from, from + SECOND) > 2 * limit - 1
  {
    es, from := RateBoundIsReached(limit, 1);
  }

  // -------------------------------------------------------------------------
  // Verdicts, from the list of events alone
  // -------------------------------------------------------------------------

  /** The `i`th event is a request that is admitted. */
  predicate Admitted(es: seq<Event>, i: nat)
    requires i < |es|
  {
    es[i].Call? && Admits(After(es[..i]), es[i].now, es[i].limit)
  }

  /**
   The request that opened the window current after `es`: the first one after a
   loss, and the first one a second or more after the opening of the window before.
   */
  function Opener(es: seq<Event>): (o: Option<nat>)
    ensures o.Some? ==> o.value < |es| && es[o.value].Call?
  {
    if es == [] || es[|es| - 1].Drop? then None
    else
      var before := Opener(es[..|es| - 1]);
      if before.Some? && es[|es| - 1].now - es[before.value].now < SECOND then before else Some(|es| - 1)
  }

  /** How many of the events from the `o`th on are admitted requests. */
  function AdmittedFrom(es: seq<Event>, o: nat): nat
    requires o <= |es|
  {
    if o == |es| then 0
    else AdmittedFrom(es[..|es| - 1], o) + if Admitted(es, |es| - 1) then 1 else 0
  }

  lemma {:induction false} OpenerIsPositive(es: seq<Event>)
    requires Clock(es)
    ensures Opener(es).Some? ==> es[Opener(es).value].now > 0
  {
    if es != [] {
      OpenerIsPositive(es[..|es| - 1]);
    }
  }

  /** The limiter's record is the opening of the current window and what it has admitted since. */
  lemma {:induction false} WindowIsOpener(es: seq<Event>)
    requires Clock(es)
    ensures After(es)
            == match Opener(es)
               case None => UNSTARTED
               case Some(o) => Window(es[o].now, AdmittedFrom(es, o))
  {
    if es != [] {
      var front, e := es[..|es| - 1], es[|es| - 1];
      WindowIsOpener(front);
      OpenerIsPositive(front);
      if e.Call? {
        var before := Opener(front);
        if before.Some? && e.now - es[before.value].now < SECOND {
          assert AdmittedFrom(es, before.value)
              == AdmittedFrom(front, before.value) + if Admitted(es, |es| - 1) then 1 else 0;
        } else {
          assert AdmittedFrom(front, |front|) == 0;
        }
      }
    }
  }

  /** The opening of the window into which a request falls that comes after `es` at `now`. */
  function OpenerFor(es: seq<Event>, now: int): nat {
    var before := Opener(es);
    if before.Some? && now - es[before.value].now < SECOND then before.value else |es|
  }

  /** A request is refused if and only if the window it falls into has already admitted as many as its limit. */
  lemma RefusedExactly(es: seq<Event>, i: nat)
    requires i < |es| && es[i].Call? && Clock(es[..i])
    ensures Admitted(es, i) <==> AdmittedFrom(es[..i], OpenerFor(es[..i], es[i].now)) < es[i].limit
  {
    WindowIsOpener(es[..i]);
    OpenerIsPositive(es[..i]);
  }

  /** A request that opens a window is admitted if anything is: refusals do not postpone it. */
  lemma NextWindowAdmits(es: seq<Event>, i: nat)
    requires i < |es| && es[i].Call? && Clock(es[..i]) && es[i].limit > 0
    requires Opener(es[..i]).None? || es[i].now >= es[Opener(es[..i]).value].now + SECOND
    ensures Admitted(es, i)
  {
    RefusedExactly(es, i);
  }

  /** A refused request, under a positive limit, leaves no trace. */
  lemma RefusalLeavesNoTrace(es: seq<Event>, now: int, limit: nat)
    requires Clock(es) && 0 < now && LastCall(es) <= now && limit > 0 && !Admits(After(es), now, limit)
    ensures After(es + [Call(now, limit)]) == After(es)
  {
    assert (es + [Call(now, limit)])[..|es|] == es;
  }

  /** The record after more events depends only on the record before them. */
  lemma {:induction false} AfterSame(a: seq<Event>, b: seq<Event>, more: seq<Event>)
    requires After(a) == After(b)
    ensures After(a + more) == After(b + more)
    decreases |more|
  {
    if more == [] {
      assert a + more == a && b + more == b;
    } else {
      var front := more[..|more| - 1];
      AfterSame(a, b, front);
      assert (a + more)[..|a + more| - 1] == a + front;
      assert (b + more)[..|b + more| - 1] == b + front;
    }
  }

  /** Taking a refused request out of a list changes no later verdict. */
  lemma RefusedCanBeRemoved(es: seq<Event>, i: nat, j: nat)
    requires i < j < |es| && es[i].Call? && es[i].limit > 0 && !Admitted(es, i) && Clock(es[..i + 1])
    ensures var without := es[..i] + es[i + 1..];
            Admitted(es, j) <==> Admitted(without, j - 1)
  {
    var before, e, more := es[..i], es[i], es[i + 1..j];
    TakenOut(es, i, j);
    assert es[..i + 1][..i] == before;
    RefusalLeavesNoTrace(before, e.now, e.limit);
    AfterSame(before + [e], before, more);
  }

  lemma TakenOut<T>(q: seq<T>, i: nat, j: nat)
    requires i < j < |q|
    ensures q[..i + 1] == q[..i] + [q[i]] && q[..j] == q[..i] + [q[i]] + q[i + 1..j]
    ensures var without := q[..i] + q[i + 1..];
            without[..j - 1] == q[..i] + q[i + 1..j] && without[j - 1] == q[j]
  {
    var without := q[..i] + q[i + 1..];
    assert without[j - 1] == q[i + 1..][j - 1 - i];
  }

  /** Three requests under limit 1 at 1 ns, 0.6 s and 1.2 s: the second is refused and the third admitted. */
  lemma RetryIsAdmitted()
    ensures var es := [Call(1, 1), Call(600_000_000, 1), Call(1_200_000_000, 1)];
            Admitted(es, 0) && !Admitted(es, 1) && Admitted(es, 2)
  {
    var es := [Call(1, 1), Call(600_000_000, 1), Call(1_200_000_000, 1)];
    assert es[..1][..0] == es[..0] && es[..2][..1] == es[..1];
    assert After(es[..1]) == Window(1, 1);
    assert After(es[..2]) == Window(1, 1);
  }
}
