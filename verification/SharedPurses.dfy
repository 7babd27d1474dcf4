/** One purse shared by any number of requests at once. Each reads what is left before it goes
    out and puts down what it cost when it comes back, and nothing is held in between. */
module SharedPurses {
  import opened Basics
  import opened Budgets
  import Replies
  import Routers

  /** One step of one request among many sharing a purse. A request reads what is left and goes
      out only when something is; later it puts down what it cost, or comes back with nothing to
      put down, because it failed or nobody could price it. Each step is one atomic operation. */
  datatype Step =
    | Pass(request: nat)
    | Settle(request: nat, amount: I64)
    | Return(request: nat)

  /** A purse that many requests share: what is spent, which requests passed the check and have
      not come back, and every amount put down. */
  datatype Shared = Shared(spent: I64, flying: set<nat>, settled: seq<I64>)

  ghost predicate Allows(cap: I64, s: Shared, step: Step) {
    match step
    case Pass(r) => r !in s.flying && Remaining(cap, s.spent) != 0
    case Settle(r, _) => r in s.flying
    case Return(r) => r in s.flying
  }

  ghost function After(s: Shared, step: Step): Shared {
    match step
    case Pass(r) => s.(flying := s.flying + {r})
    case Settle(r, amount) =>
      Shared(Wrap(s.spent + amount), s.flying - {r}, s.settled + [amount])
    case Return(r) => s.(flying := s.flying - {r})
  }

  ghost function Run(s: Shared, steps: seq<Step>): Shared
    decreases |steps|
  {
    if steps == [] then s else After(Run(s, steps[..|steps| - 1]), steps[|steps| - 1])
  }

  /** An interleaving: every step is allowed where it is taken, no more than `most` requests are
      ever out at once, and each one costs between nothing and `dearest`. */
  ghost predicate Interleaving(cap: I64, most: nat, dearest: nat, s: Shared, steps: seq<Step>)
    decreases |steps|
  {
    steps != [] ==>
      var before, last := steps[..|steps| - 1], steps[|steps| - 1];
      && Interleaving(cap, most, dearest, s, before)
      && Allows(cap, Run(s, before), last)
      && |After(Run(s, before), last).flying| <= most
      && (last.Settle? ==> 0 <= last.amount <= dearest)
  }

  ghost function Sum(amounts: seq<I64>): int
    decreases |amounts|
  {
    if amounts == [] then 0 else Sum(amounts[..|amounts| - 1]) + amounts[|amounts| - 1]
  }

  const UNSPENT := Shared(0, {}, [])

  /** Under every interleaving a run overshoots its cap by less than the calls that were already
      going: what is spent, plus the most that those in flight can still cost, never passes
      `cap - 1 + most * dearest`. And no amount put down is lost. */
  lemma {:induction false} OvershootIsBounded(cap: I64, most: nat, dearest: nat, steps: seq<Step>)
    requires cap >= 1
    requires cap - 1 + most * dearest <= I64_MAX
    requires Interleaving(cap, most, dearest, UNSPENT, steps)
    ensures Bounded(cap, most, dearest, Run(UNSPENT, steps))
    decreases |steps|
  {
    if steps == [] {
      assert 0 * dearest == 0;
      TimesIsNonNegative(most, dearest);
    } else {
      hide Allows, After, Bounded;
      var before, last := steps[..|steps| - 1], steps[|steps| - 1];
      OvershootIsBounded(cap, most, dearest, before);
      StepStaysBounded(cap, most, dearest, Run(UNSPENT, before), last);
    }
  }

  /** What is spent and what the requests in flight can still cost stay within the bound, and what
      is spent is the sum of what was put down. */
  ghost predicate Bounded(cap: I64, most: nat, dearest: nat, s: Shared) {
    && |s.flying| <= most
    && 0 <= s.spent
    && s.spent + |s.flying| * dearest <= cap - 1 + most * dearest
    && s.spent == Sum(s.settled)
  }

  lemma StepStaysBounded(cap: I64, most: nat, dearest: nat, s: Shared, step: Step)
    requires cap >= 1 && cap - 1 + most * dearest <= I64_MAX && Bounded(cap, most, dearest, s)
    requires Allows(cap, s, step) && |After(s, step).flying| <= most
    requires step.Settle? ==> 0 <= step.amount <= dearest
    ensures Bounded(cap, most, dearest, After(s, step))
  {
    hide Wrap;
    var after := After(s, step);
    match step {
      case Pass(r) =>
        // Something was left when this request read the purse, so the whole of what is in
        // flight, this one included, fits above a total still under the cap.
        assert s.spent <= cap - 1;
        TimesGrows(dearest, |after.flying|, most);
      case Settle(r, amount) =>
        assert |after.flying| == |s.flying| - 1;
        OneFewer(|s.flying|, dearest);
        SettlingStays(cap, most, dearest, s, amount, |after.flying|);
      case Return(r) =>
        assert |after.flying| == |s.flying| - 1;
        OneFewer(|s.flying|, dearest);
    }
  }

  lemma SettlingStays(cap: I64, most: nat, dearest: nat, s: Shared, amount: I64, flying: nat)
    requires Bounded(cap, most, dearest, s) && cap - 1 + most * dearest <= I64_MAX && 0 <= amount <= dearest
    requires flying * dearest == |s.flying| * dearest - dearest
    ensures 0 <= s.spent + amount == Wrap(s.spent + amount)
    ensures s.spent + amount + flying * dearest <= cap - 1 + most * dearest
    ensures s.spent + amount == Sum(s.settled + [amount])
  {
    hide Wrap;
    TimesIsNonNegative(flying, dearest);
    assert s.spent + amount + flying * dearest <= s.spent + |s.flying| * dearest;
    WrapFits(s.spent + amount);
    assert (s.settled + [amount])[..|s.settled|] == s.settled;
  }

  /** No call starts once the cap is spent: a request passes exactly while less than the cap
      has been put down. */
  lemma NothingStartsOnceSpent(cap: I64, s: Shared, request: nat)
    requires cap >= 1 && 0 <= s.spent && request !in s.flying
    ensures Allows(cap, s, Pass(request)) <==> s.spent < cap
  {
  }

  /** These are the router's own steps: a request it lets past its budget may pass here, and what it spends
      and takes from its purse is what a settlement does. */
  lemma RouterStepsAreAllowed(budget: Budget, route: Routers.Route, asked: Replies.ChatRequest, s: Shared,
                              request: nat, amount: I64, unmeasured: U64)
    requires request !in s.flying
    requires Routers.Unaffordable(Some(budget), s.spent, route, asked).None?
    ensures Allows(budget.cap, s, Pass(request))
    ensures var going := After(s, Pass(request));
            && Allows(budget.cap, going, Settle(request, amount))
            && After(going, Settle(request, amount)).spent == PurseState(s.spent, unmeasured).Spend(amount).spent
  {
  }

  lemma OneFewer(n: nat, c: nat)
    ensures (n - 1) * c == n * c - c
  {
  }

  // ----- the bound is reached

  lemma OneMoreStep(cap: I64, most: nat, dearest: nat, steps: seq<Step>, step: Step)
    requires Interleaving(cap, most, dearest, UNSPENT, steps)
    requires Allows(cap, Run(UNSPENT, steps), step)
    requires |After(Run(UNSPENT, steps), step).flying| <= most
    requires step.Settle? ==> 0 <= step.amount <= dearest
    ensures Interleaving(cap, most, dearest, UNSPENT, steps + [step])
    ensures Run(UNSPENT, steps + [step]) == After(Run(UNSPENT, steps), step)
  {
    assert (steps + [step])[..|steps + [step]| - 1] == steps;
  }

  lemma NothingDone(cap: I64, most: nat, dearest: nat)
    ensures Interleaving(cap, most, dearest, UNSPENT, [])
  {
  }

  /** One request at a time, each costing one micro, takes the total to any figure below the cap. */
  lemma {:induction false} OneAtATime(cap: I64, most: nat, dearest: nat, n: nat) returns (steps: seq<Step>)
    requires n < cap && most >= 1 && dearest >= 1
    ensures Interleaving(cap, most, dearest, UNSPENT, steps)
    ensures Run(UNSPENT, steps).spent == n && Run(UNSPENT, steps).flying == {}
  {
    hide Wrap, Interleaving;
    if n == 0 {
      steps := [];
      NothingDone(cap, most, dearest);
    } else {
      steps := OneAtATime(cap, most, dearest, n - 1);
      WrapFits(n);
      OneMoreStep(cap, most, dearest, steps, Pass(0));
      steps := steps + [Pass(0)];
      OneMoreStep(cap, most, dearest, steps, Settle(0, 1));
      steps := steps + [Settle(0, 1)];
    }
  }

  ghost function UpTo(n: nat): set<nat> {
    if n == 0 then {} else UpTo(n - 1) + {n - 1}
  }

  lemma {:induction false} UpToHas(n: nat)
    ensures forall i: nat :: i in UpTo(n) <==> i < n
    ensures |UpTo(n)| == n
  {
    if n > 0 {
      UpToHas(n - 1);
      assert n - 1 !in UpTo(n - 1);
    }
  }

  /** Requests that all read the purse before any of them puts anything down. */
  lemma {:induction false} AllPass(cap: I64, most: nat, dearest: nat, n: nat) returns (steps: seq<Step>)
    requires n <= most && cap >= 1 && most >= 1 && dearest >= 1
    ensures Interleaving(cap, most, dearest, UNSPENT, steps)
    ensures Run(UNSPENT, steps).spent == cap - 1 && Run(UNSPENT, steps).flying == UpTo(n)
  {
    hide Interleaving, Run;
    if n == 0 {
      steps := OneAtATime(cap, most, dearest, cap - 1);
    } else {
      steps := AllPass(cap, most, dearest, n - 1);
      UpToHas(n - 1);
      UpToHas(n);
      OneMoreStep(cap, most, dearest, steps, Pass(n - 1));
      steps := steps + [Pass(n - 1)];
    }
  }

  ghost function Settled(n: nat, dearest: nat): nat {
    if n == 0 then 0 else Settled(n - 1, dearest) + dearest
  }

  lemma {:induction false} SettledIsProduct(n: nat, dearest: nat)
    ensures Settled(n, dearest) == n * dearest
  {
    if n > 0 {
      SettledIsProduct(n - 1, dearest);
      OneFewer(n, dearest);
    }
  }

  lemma {:induction false} SettledGrows(m: nat, n: nat, dearest: nat)
    requires m <= n
    ensures Settled(m, dearest) <= Settled(n, dearest)
  {
    if m < n {
      SettledGrows(m, n - 1, dearest);
    }
  }

  lemma {:induction false} AllSettle(cap: I64, most: nat, dearest: nat, n: nat) returns (steps: seq<Step>)
    requires n <= most && cap >= 1 && most >= 1 && 1 <= dearest <= I64_MAX
    requires cap - 1 + Settled(most, dearest) <= I64_MAX
    ensures Interleaving(cap, most, dearest, UNSPENT, steps)
    ensures Run(UNSPENT, steps).flying == UpTo(n)
    ensures Run(UNSPENT, steps).spent == cap - 1 + Settled(most - n, dearest)
    decreases most - n
  {
    hide Wrap, Interleaving, Run;
    if n == most {
      steps := AllPass(cap, most, dearest, most);
    } else {
      steps := AllSettle(cap, most, dearest, n + 1);
      UpToHas(n);
      assert UpTo(n + 1) - {n} == UpTo(n);
      SettledGrows(most - n, most, dearest);
      WrapFits(Run(UNSPENT, steps).spent + dearest);
      OneMoreStep(cap, most, dearest, steps, Settle(n, dearest));
      steps := steps + [Settle(n, dearest)];
    }
  }

  /** The bound on the overshoot cannot be improved: some interleaving reaches it. */
  lemma OvershootIsReached(cap: I64, most: nat, dearest: nat)
    requires cap >= 1 && most >= 1 && dearest >= 1
    requires cap - 1 + most * dearest <= I64_MAX
    ensures exists steps :: Interleaving(cap, most, dearest, UNSPENT, steps) &&
                            Run(UNSPENT, steps).spent == cap - 1 + most * dearest
  {
    hide Interleaving, Run;
    TimesGrows(dearest, 1, most);
    SettledIsProduct(most, dearest);
    var steps := AllSettle(cap, most, dearest, 0);
  }
}
