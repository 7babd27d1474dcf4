/** Which routes have failed of late, and how long they are left alone for it. */
module Breakers {
  import opened Basics
  import opened Reports
  import opened Surroundings

  datatype Breaker = Breaker(first: Duration, longest: Duration, settled: Duration)
  {
    /** The rest a route is given, given what went wrong and how many requests in a row. */
    function OpeningFor(failures: U32, error: Error): Option<Duration> {
      match error
      case RateLimited(Some(wait)) => Some(wait)
      case RateLimited(None) => Some(Backoff(failures))
      case Transient(_) => Some(Backoff(failures))
      case Timeout(_) => Some(Backoff(failures))
      case Auth(_) => Some(settled)
      case NotFound(_) => Some(settled)
      case _ => None
    }

    /** How long a run of failures rests a route: twice as long with every one more, up to a limit. The product
        is checked: one too long to hold counts as `longest`. */
    function Backoff(failures: U32): Duration {
      var doublings := Min(Max(failures - 1, 0), 32);
      var scaled := Times(first, Shift(doublings));
      var checked := if scaled <= LONGEST_DURATION then scaled else longest;
      Min(checked, longest)
    }
  }

  /** `1 << doublings` as a checked 32-bit shift. At 32 there is no such shift, and the largest
      32-bit number stands in for it. */
  function Shift(doublings: nat): nat {
    if doublings >= 32 then U32_MAX else Pow2(doublings)
  }

  function Pow2(n: nat): (p: nat)
    ensures p >= 1
  {
    if n == 0 then 1 else 2 * Pow2(n - 1)
  }

  // ----- the shape of the backoff

  lemma {:induction false} Pow2Grows(m: nat, n: nat)
    requires m <= n
    ensures Pow2(m) <= Pow2(n)
    decreases n - m
  {
    if m < n {
      Pow2Grows(m + 1, n);
    }
  }

  lemma ShiftGrows(m: nat, n: nat)
    requires m <= n
    ensures Shift(m) <= Shift(n)
  {
    if n < 32 {
      Pow2Grows(m, n);
    } else if m < 32 {
      Pow2Grows(m, 31);
      Pow2Of31();
    }
  }

  lemma Pow2Of31()
    ensures Pow2(31) == 0x8000_0000
  {
    assert Pow2(8) == 256;
    assert Pow2(16) == 0x1_0000;
    assert Pow2(24) == 0x100_0000;
  }

  /** For the first 32 failures the wait is the first one doubled each time, up to `longest`:
      the overflow check never shows. From the 33rd on it is `2^32 - 1` times the first one,
      where doubling again would have given `2^32`. */
  lemma BackoffDoubles(b: Breaker, failures: U32)
    ensures 1 <= failures <= 32 ==> b.Backoff(failures) == Min(b.first * Pow2(failures - 1), b.longest)
    ensures failures >= 33 ==> b.Backoff(failures) == Min(b.first * U32_MAX, b.longest)
    ensures failures == 0 ==> b.Backoff(0) == b.Backoff(1)
  {
  }

  /** More failures never mean a shorter wait, and no wait is longer than the longest. */
  lemma BackoffGrows(b: Breaker, fewer: U32, more: U32)
    requires fewer <= more
    ensures b.Backoff(fewer) <= b.Backoff(more) <= b.longest
  {
    var m, n := Min(Max(fewer - 1, 0), 32), Min(Max(more - 1, 0), 32);
    ShiftGrows(m, n);
    TimesGrows(b.first, Shift(m), Shift(n));
  }

  /** What a failure earns, whatever the policy: the wait a provider named as it is, however long, the settled
      rest for what no wait cures, the backoff for what passes, and nothing for what says nothing
      about the provider. */
  lemma RestEarned(b: Breaker, failures: U32, error: Error)
    ensures b.OpeningFor(failures, error).Some? <==>
            error.RateLimited? || error.Transient? || error.Timeout? || error.Auth? || error.NotFound?
    ensures error.RateLimited? && error.retryAfter.Some? ==> b.OpeningFor(failures, error) == error.retryAfter
    ensures error.Auth? || error.NotFound? ==> b.OpeningFor(failures, error) == Some(b.settled)
    ensures BacksOff(error) && 1 <= failures <= 32 ==>
            b.OpeningFor(failures, error) == Some(Min(b.first * Pow2(failures - 1), b.longest))
    ensures BacksOff(error) && failures >= 33 ==>
            b.OpeningFor(failures, error) == Some(Min(b.first * U32_MAX, b.longest))
  {
    BackoffDoubles(b, failures);
    hide Breaker.Backoff;
  }

  // ----- one route's health

  datatype HealthState = HealthState(closedUntil: U64, failures: U32, denied: bool)
  {
    /** How much longer the route is skipped, for a reader whose clock says `now`. */
    function ClosedAt(now: nat): Option<Duration> {
      if closedUntil > Millis(now) then Some((closedUntil - Millis(now)) * NANOS_PER_MILLI)
      else None
    }

    /** One more failed request. The counter wraps, as an atomic increment does. */
    function Failed(): HealthState {
      this.(failures := (failures + 1) % (U32_MAX + 1))
    }

    function CloseFor(wait: Duration, now: nat): HealthState {
      this.(closedUntil := Min(Millis(now) + Min(wait / NANOS_PER_MILLI, U64_MAX), U64_MAX))
    }
  }

  const HEALTHY := HealthState(0, 0, false)

  /** Whether a route is being skipped. The clock is read only when there is a timer to
      compare it with. */
  function SkippedFor(w: World, m: Moment, h: HealthState): (Option<Duration>, Moment) {
    if h.closedUntil == 0 then (None, m) else (h.ClosedAt(w.Read(m).now), w.Read(m))
  }

  /** How long this failure skips the route for, when there is a policy and it asks for one. */
  function Opening(policy: Option<Breaker>, h: HealthState, error: Error): Option<Duration> {
    if policy.None? then None else policy.value.OpeningFor(Min(h.failures + 1, U32_MAX), error)
  }

  /** The health of a route once a request it failed at time `now` has been counted. */
  function Rested(policy: Option<Breaker>, h: HealthState, error: Error, now: nat): HealthState {
    match Opening(policy, h, error)
    case None => h.Failed()
    case Some(wait) => h.Failed().CloseFor(wait, now)
  }

  /** What a failed request leaves behind, and the reading of the clock a rest costs. */
  function Recorded(policy: Option<Breaker>, w: World, m: Moment, h: HealthState, error: Error)
    : (HealthState, Moment)
  {
    (Rested(policy, h, error, w.Read(m).now), if Opening(policy, h, error).Some? then w.Read(m) else m)
  }

  class Health {
    var closedUntil: U64
    var consecutiveFailures: U32
    var denied: bool

    constructor ()
      ensures State() == HEALTHY
    {
      closedUntil, consecutiveFailures, denied := 0, 0, false;
    }

    function State(): HealthState
      reads this
    {
      HealthState(closedUntil, consecutiveFailures, denied)
    }

    method ClosedFor(outside: Outside) returns (left: Option<Duration>)
      modifies outside
      ensures (left, outside.moment) ==
              SkippedFor(outside.world, old(outside.moment), State())
    {
      var until := closedUntil;
      if until == 0 {
        return None;
      }
      var now := outside.Now();
      var millis := Millis(now);
      left := if until > millis then Some((until - millis) * NANOS_PER_MILLI) else None;
    }

    method Failed() returns (failures: U32)
      modifies this
      ensures State() == old(State()).Failed()
      ensures failures == Min(old(consecutiveFailures) + 1, U32_MAX)
    {
      failures := Min(consecutiveFailures + 1, U32_MAX);
      consecutiveFailures := (consecutiveFailures + 1) % (U32_MAX + 1);
    }

    method CloseFor(wait: Duration, outside: Outside)
      modifies this, outside
      ensures outside.moment == outside.world.Read(old(outside.moment))
      ensures State() == old(State()).CloseFor(wait, outside.moment.now)
    {
      var capped := Min(wait / NANOS_PER_MILLI, U64_MAX);
      var now := outside.Now();
      closedUntil := Min(Millis(now) + capped, U64_MAX);
    }

    method DeniedBy(wait: Duration, outside: Outside)
      modifies this, outside
      ensures outside.moment == outside.world.Read(old(outside.moment))
      ensures State() == old(State()).CloseFor(wait, outside.moment.now).(denied := true)
    {
      denied := true;
      CloseFor(wait, outside);
    }

    /** One failed request, told to the route and to the policy when there is one. */
    method Record(policy: Option<Breaker>, error: Error, outside: Outside)
      modifies this, outside
      ensures (State(), outside.moment) ==
              Recorded(policy, outside.world, old(outside.moment), old(State()), error)
    {
      var failures := Failed();
      if policy.Some? {
        var opening := policy.value.OpeningFor(failures, error);
        if opening.Some? {
          CloseFor(opening.value, outside);
        }
      }
    }

    method Served()
      modifies this
      ensures State() == HEALTHY
    {
      consecutiveFailures := 0;
      closedUntil := 0;
      denied := false;
    }
  }

  // ----- how often a failing route can be asked

  /** One failed request, as a route sees it: when it was found open, and when the failure was
      counted. */
  datatype Failure = Failure(checked: nat, failed: nat, error: Error)

  /** Whether these failures can follow one another, one request at a time, from this health:
      each one begins after the one before ended, and only when the timer has run out. */
  ghost predicate InTurn(policy: Option<Breaker>, h: HealthState, failures: seq<Failure>, from: nat)
    decreases |failures|
  {
    failures != [] ==>
      && from <= failures[0].checked <= failures[0].failed
      && h.ClosedAt(failures[0].checked).None?
      && InTurn(policy, Rested(policy, h, failures[0].error, failures[0].failed), failures[1..],
                failures[0].failed)
  }

  /** The sum of the rests these failures earn, each in whole milliseconds. */
  ghost function Rests(policy: Option<Breaker>, h: HealthState, failures: seq<Failure>): nat
    decreases |failures|
  {
    if failures == [] then 0
    else
      var rest := match Opening(policy, h, failures[0].error)
        case None => 0
        case Some(wait) => wait / NANOS_PER_MILLI;
      rest + Rests(policy, Rested(policy, h, failures[0].error, failures[0].failed), failures[1..])
  }

  lemma MillisGrow(a: nat, b: nat)
    requires a <= b
    ensures Millis(a) <= Millis(b)
  {
  }

  /** Closing a route replaces the rest it has. It cuts that rest short exactly when more of it is left,
      in whole milliseconds, than the new one lasts. */
  lemma ClosingShortensExactlyWhen(h: HealthState, wait: Duration, now: nat)
    ensures h.CloseFor(wait, now).closedUntil < h.closedUntil
            <==> h.ClosedAt(now).Some? && h.ClosedAt(now).value / NANOS_PER_MILLI > wait / NANOS_PER_MILLI
  {
    hide Millis;
    if h.closedUntil > Millis(now) {
      MillisOf(h.closedUntil - Millis(now));
    }
  }

  lemma MillisOf(n: nat)
    ensures n * NANOS_PER_MILLI / NANOS_PER_MILLI == n
  {
  }

  /** A failed request never does, since the route was found open before it was called. */
  lemma FailingNeverShortens(policy: Option<Breaker>, h: HealthState, error: Error, checked: nat, now: nat)
    requires h.ClosedAt(checked).None? && checked <= now
    ensures Rested(policy, h, error, now).closedUntil >= h.closedUntil
  {
    hide Millis, Opening;
    MillisGrow(checked, now);
  }

  /** However a provider fails, a route is asked no more often than its rests allow: a run of
      failures spans at least the rests that all but the last of them earned. */
  lemma {:induction false} FailuresAreSpreadOut(
    policy: Option<Breaker>, h: HealthState, failures: seq<Failure>, from: nat)
    requires failures != [] && InTurn(policy, h, failures, from)
    requires Millis(failures[|failures| - 1].failed) < U64_MAX
    ensures failures[0].failed <= failures[|failures| - 1].failed
    ensures Millis(failures[|failures| - 1].failed) - Millis(failures[0].failed)
            >= Rests(policy, h, failures[..|failures| - 1])
    decreases |failures|
  {
    var first, rest := failures[0], failures[1..];
    if rest == [] {
      assert failures[..0] == [];
    } else {
      var after := Rested(policy, h, first.error, first.failed);
      FailuresAreSpreadOut(policy, after, rest, first.failed);
      assert rest[|rest| - 1] == failures[|failures| - 1];
      MillisGrow(rest[0].checked, rest[0].failed);
      MillisGrow(rest[0].failed, rest[|rest| - 1].failed);
      assert failures[..|failures| - 1][1..] == rest[..|rest| - 1];
    }
  }

  /** With a policy, `n` consecutive failures that back off span at least the first `n - 1`
      waits of the backoff, counting on from the failures already held. */
  ghost function Backoffs(b: Breaker, held: nat, n: nat): nat
    requires held + n <= U32_MAX
    decreases n
  {
    if n == 0 then 0 else b.Backoff(held + 1) / NANOS_PER_MILLI + Backoffs(b, held + 1, n - 1)
  }

  predicate BacksOff(error: Error) {
    error.Transient? || error.Timeout? || (error.RateLimited? && error.retryAfter.None?)
  }

  lemma {:induction false} BackoffFailuresAreSpreadOut(
    b: Breaker, h: HealthState, failures: seq<Failure>, from: nat)
    requires failures != [] && InTurn(Some(b), h, failures, from)
    requires forall f <- failures :: BacksOff(f.error)
    requires h.failures + |failures| <= U32_MAX
    requires Millis(failures[|failures| - 1].failed) < U64_MAX
    ensures Millis(failures[|failures| - 1].failed) - Millis(failures[0].failed)
            >= Backoffs(b, h.failures, |failures| - 1)
  {
    FailuresAreSpreadOut(Some(b), h, failures, from);
    RestsAreBackoffs(b, h, failures[..|failures| - 1]);
  }

  lemma OneMoreBackoff(b: Breaker, h: HealthState, error: Error, now: nat)
    requires BacksOff(error) && h.failures < U32_MAX
    ensures Opening(Some(b), h, error) == Some(b.Backoff(h.failures + 1))
    ensures Rested(Some(b), h, error, now).failures == h.failures + 1
  {
  }

  lemma {:induction false} RestsAreBackoffs(b: Breaker, h: HealthState, failures: seq<Failure>)
    requires forall f <- failures :: BacksOff(f.error)
    requires h.failures + |failures| <= U32_MAX
    ensures Rests(Some(b), h, failures) == Backoffs(b, h.failures, |failures|)
    decreases |failures|
  {
    hide Rested, Opening, Breaker.Backoff;
    if failures != [] {
      var f := failures[0];
      OneMoreBackoff(b, h, f.error, f.failed);
      RestsAreBackoffs(b, Rested(Some(b), h, f.error, f.failed), failures[1..]);
    }
  }
}
