/** Asking the same route again, when the failure is one worth repeating. */
module Retries {
  import opened Basics
  import opened Reports
  import opened Breakers

  datatype Retry = Retry(attempts: U32, base: Duration, ceiling: Duration, repeatTimeouts: bool)
  {
    /** At least one attempt, which the constructor sees to, and a ceiling short enough that
        half of it in nanoseconds leaves room for one more in 64 bits: past that the jitter
        would divide by zero. The limit is over a thousand years. */
    ghost predicate Valid() {
      attempts >= 1 && ceiling < 2 * U64_MAX
    }

    /** The wait that comes before a further attempt, if there is to be one. `draw` is the next
        random number. */
    function WaitBefore(next: nat, failure: Error, draw: U64): Option<Duration>
      requires Valid()
    {
      if next > attempts || !failure.IsRetryable() then None
      else if failure.Timeout? && !repeatTimeouts then None
      else if failure.RetryAfter().Some? then failure.RetryAfter()
      else Some(Backoff(next, draw))
    }

    /** The wait the policy reaches on its own: doubled each attempt, capped, and then half of
        it replaced by a random share of itself. */
    function Backoff(next: nat, draw: U64): Duration
      requires Valid()
    {
      var half := Capped(next) / 2;
      half + Scatter(half, draw)
    }

    function Capped(next: nat): Duration {
      Min(Min(Times(base, Pow2(Min(Max(next - 2, 0), 16))), LONGEST_DURATION), ceiling)
    }

    /** A wait is never under half of the doubled and capped one and never over it, and the
        doubled one grows with each attempt up to the ceiling. */
    lemma BackoffBetween(next: nat, later: nat, draw: U64)
      requires Valid() && next <= later
      ensures Capped(next) / 2 <= Backoff(next, draw) <= Capped(next) <= Capped(later) <= ceiling
    {
      var m, n := Min(Max(next - 2, 0), 16), Min(Max(later - 2, 0), 16);
      Pow2Grows(m, n);
      TimesGrows(base, Pow2(m), Pow2(n));
    }

    /** The doubled and capped wait, one attempt after another: the base first, twice as long for each
        of the next sixteen, and no longer after that, all of it up to the ceiling. */
    lemma CappedDoubles(next: nat)
      ensures next <= 2 ==> Capped(next) == Min(base, ceiling)
      ensures 2 <= next < 18 ==> Capped(next + 1) == Min(2 * Capped(next), ceiling)
      ensures next >= 18 ==> Capped(next + 1) == Capped(next)
    {
      if 2 <= next < 18 {
        assert Pow2(next - 1) == 2 * Pow2(next - 2);
        DoublesWith(base, Pow2(next - 2));
      }
    }

    /** Every wait of that range has a draw that makes it, the last nanosecond of an odd one aside. */
    lemma EveryWaitHasADraw(next: nat, wait: Duration)
      requires Valid() && Capped(next) / 2 <= wait <= 2 * (Capped(next) / 2)
      ensures exists draw: U64 :: Backoff(next, draw) == wait
    {
      hide Capped;
      BackoffBetween(next, next, 0);
      hide Scatter, Backoff;
      var half := Capped(next) / 2;
      assert half < U64_MAX && 0 <= wait - half <= half;
      HalfAndDraw(next, wait - half);
    }

    lemma HalfAndDraw(next: nat, draw: U64)
      requires Valid() && draw <= Capped(next) / 2
      ensures Backoff(next, draw) == Capped(next) / 2 + draw
    {
      hide Capped;
      BackoffBetween(next, next, draw);
    }

    /** Whether a failure of one attempt is worth another: with attempts left, and for a timeout only when
        told to. */
    predicate Repeats(attempt: nat, failure: Error) {
      && attempt < attempts
      && (failure.RateLimited? || failure.Transient? || (failure.Timeout? && repeatTimeouts))
    }

    /** Which waits may come between a failed attempt and the next: the one the provider named, as it is,
        and otherwise anything from half of the doubled and capped one to the whole of it. */
    predicate MayWait(attempt: nat, failure: Error, wait: Duration) {
      if failure.RateLimited? && failure.retryAfter.Some? then wait == failure.retryAfter.value
      else Capped(attempt + 1) / 2 <= wait <= Capped(attempt + 1)
    }

    /** When the policy asks for another attempt, and after which wait. */
    lemma WaitsExactlyWhen(attempt: nat, failure: Error, draw: U64)
      requires Valid()
      ensures WaitBefore(attempt + 1, failure, draw).Some? <==> Repeats(attempt, failure)
      ensures WaitBefore(attempt + 1, failure, draw).Some? ==>
              MayWait(attempt, failure, WaitBefore(attempt + 1, failure, draw).value)
    {
      BackoffBetween(attempt + 1, attempt + 1, draw);
      hide Backoff, Capped;
    }
  }

  lemma DoublesWith(a: nat, b: nat)
    ensures Times(a, 2 * b) == 2 * Times(a, b)
  {
  }

  /** A draw brought down to at most the span. */
  function Scatter(span: U64, draw: U64): (n: U64)
    requires span < U64_MAX
    ensures n <= span
  {
    if span == 0 then 0 else draw % (span + 1)
  }
}
