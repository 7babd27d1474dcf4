/** Whole requests, and whole runs of them, one at a time on one router. */
module Requests {
  import opened Basics
  import opened Reports
  import opened Replies
  import opened Usages
  import opened Pricing
  import Costs
  import opened Budgets
  import opened Breakers
  import opened Surroundings
  import opened Routers
  import opened Journeys
  import opened Safety
  import Deadlines

  // ----- one request

  /** Calls are counted once each. A reply comes with one line for every route passed over and
      every call before the one that answered; a request that ends any other way, short of a
      refusal, has a line for every call. */
  lemma RequestIsAccountedFor(j: Job, m: Moment, health: seq<HealthState>)
    requires Ready(j, Start(m, health))
    ensures var (run, verdict) := Journey(j, m, health);
            && run.attempts == Calls(run.m.trace) - Calls(m.trace)
            && (verdict.Answered? ==> |run.fellThrough| == Skips(run.fellThrough) + run.attempts - 1)
            && (verdict.GaveUp? ==> |run.fellThrough| == Skips(run.fellThrough) + run.attempts)
            && (verdict.Failed? ==>
                  |run.fellThrough| ==
                  Skips(run.fellThrough) + run.attempts - if verdict.error.Refused? then 1 else 0)
  {
    WalkAccounts(j, ReachingOrder(j.setup, health), Start(m, health));
  }

  /** What a request is answered with: the reply of its last call, or that call's error. With no
      call made, the cap comes before a resting route and both before having nothing that fits.
      Only time ends it otherwise: the deadline is reached, or the wait the last call asked for would
      have reached it. */
  lemma RequestIsJustified(j: Job, m: Moment, health: seq<HealthState>)
    requires Ready(j, Start(m, health))
    ensures var (run, verdict) := Journey(j, m, health);
            && Justified(j, |m.trace|, run, verdict)
            && Ready(j, run)
            && (verdict.GaveUp? ==> Deadlines.OutOfTime(j, run, verdict.elapsed))
  {
    hide Walk, Justified, Deadlines.OutOfTime;
    WalkJustified(j, ReachingOrder(j.setup, health), Start(m, health), |m.trace|);
    Deadlines.WalkGivesUp(j, ReachingOrder(j.setup, health), Start(m, health));
  }

  /** Failures that can rest a route, under a policy. */
  predicate EarnsARest(policy: Option<Breaker>, error: Error) {
    policy.Some? && (error.RateLimited? || error.Transient? || error.Timeout? || error.Auth? || error.NotFound?)
  }

  /** What a request does to health: a route that served is cleared; one that was called and did
      not serve has exactly one failure more, is as denied as it was, and has its timer moved only by
      a failure that rests it; and the rest are as they were. */
  lemma RequestHeals(j: Job, m: Moment, health: seq<HealthState>)
    requires Ready(j, Start(m, health))
    ensures var (run, verdict) := Journey(j, m, health);
            && HealsAll(j, Start(m, health), run)
            && m.now <= run.m.now
            && (forall k: nat :: k < |health| ==>
                  match LastOf(run.m.trace, |m.trace|, Some(k))
                  case None => run.health[k] == health[k]
                  case Some(Ok(_)) => run.health[k] == HealthState(0, 0, false)
                  case Some(Err(error)) =>
                    && run.health[k].failures == (health[k].failures + 1) % (U32_MAX + 1)
                    && run.health[k].denied == health[k].denied
                    && (run.health[k].closedUntil != health[k].closedUntil ==> EarnsARest(j.setup.breaker, error)))
  {
    ReachingOrderSorts(j.setup, health);
    WalkHealth(j, ReachingOrder(j.setup, health), Start(m, health));
  }

  /** Every call of a request is one it may make, routes are asked in the order they are reached for and
      so by the key they are sorted by, and nothing follows an answer or a refusal. */
  lemma RequestIsProper(j: Job, m: Moment, health: seq<HealthState>)
    requires Ready(j, Start(m, health))
    ensures var trace := Journey(j, m, health).0.m.trace;
            && m.trace <= trace
            && (forall k :: |m.trace| <= k < |trace| ==> Proper(j, health, trace[k]))
            && Orderly(trace, |m.trace|)
            && Follows(ReachingOrder(j.setup, health), trace, |m.trace|)
            && (forall k, l :: |m.trace| <= k < l < |trace| && trace[k].Called? && trace[l].Called? ==>
                  trace[k].route == trace[l].route || Precedes(j.setup, health, trace[k].route, trace[l].route))
            && (j.needs.mustStayOnDevice ==> forall k :: |m.trace| <= k < |trace| && trace[k].Called? ==>
                  j.setup.routes[trace[k].route].capabilities.value.reach == SelfHosted)
  {
    hide Walk, Proper, ReachingOrder, Precedes, NotAfter;
    var order := ReachingOrder(j.setup, health);
    ReachingOrderSorts(j.setup, health);
    WalkIsProper(j, order, Start(m, health), health);
    WalkFollows(j, order, Start(m, health));
    OnDeviceOnly(j, health, Journey(j, m, health).0.m.trace, |m.trace|);
    var trace := Journey(j, m, health).0.m.trace;
    forall k, l | |m.trace| <= k < l < |trace| && trace[k].Called? && trace[l].Called? && trace[k].route != trace[l].route
      ensures trace[k].route < |health| && trace[l].route < |health|
      ensures Precedes(j.setup, health, trace[k].route, trace[l].route)
    {
      AskedByKey(j.setup, health, trace[k].route, trace[l].route);
    }
  }

  lemma OnDeviceOnly(j: Job, health: seq<HealthState>, trace: seq<Event>, from: nat)
    requires |health| == |j.setup.routes| && forall k :: from <= k < |trace| ==> Proper(j, health, trace[k])
    ensures forall k :: from <= k < |trace| && trace[k].Called? ==>
              && trace[k].route < |health| && j.setup.routes[trace[k].route].capabilities.Some?
              && (j.needs.mustStayOnDevice ==> j.setup.routes[trace[k].route].capabilities.value.reach == SelfHosted)
  {
    hide Unaffordable, Millis;
    forall k | from <= k < |trace| && trace[k].Called?
      ensures trace[k].route < |health| && j.setup.routes[trace[k].route].capabilities.Some?
      ensures j.needs.mustStayOnDevice ==> j.setup.routes[trace[k].route].capabilities.value.reach == SelfHosted
    {
      assert Proper(j, health, trace[k]);
    }
  }

  // ----- after a check at startup

  /** A check leaves every route it did not find denied as it was, and closes a denied one from the
      moment it was found so. */
  lemma {:induction false} CheckedOneByOne(
    setup: Setup, w: World, m: Moment, health: seq<HealthState>, answers: seq<Access>, n: nat, i: nat)
    returns (at: nat)
    requires i < n <= |answers| == |health|
    ensures var (after, now) := Checked(setup, w, m, health, answers, n);
            && m.now <= at <= now.now
            && after[i] == if answers[i].Denied? && setup.breaker.Some?
                           then health[i].CloseFor(setup.breaker.value.settled, at).(denied := true) else health[i]
  {
    if i < n - 1 {
      at := CheckedOneByOne(setup, w, m, health, answers, n - 1, i);
    } else {
      CheckedBefore(setup, w, m, health, answers, n - 1, i);
      at := Checked(setup, w, m, health, answers, n).1.now;
    }
  }

  lemma {:induction false} CheckedBefore(
    setup: Setup, w: World, m: Moment, health: seq<HealthState>, answers: seq<Access>, n: nat, i: nat)
    requires n <= i < |answers| == |health|
    ensures Checked(setup, w, m, health, answers, n).0[i] == health[i]
  {
    if n > 0 {
      CheckedBefore(setup, w, m, health, answers, n - 1, i);
    }
  }

  /** A route that is closed when a request starts is not called before it opens. */
  lemma ClosedRoutesAreLeftAlone(j: Job, m: Moment, health: seq<HealthState>, i: nat)
    requires Ready(j, Start(m, health)) && i < |health|
    ensures var trace := Journey(j, m, health).0.m.trace;
            forall k :: |m.trace| <= k < |trace| && trace[k].Called? && trace[k].route == i ==>
              health[i].closedUntil <= Millis(trace[k].at)
  {
    hide Journey, Unaffordable, Millis, Orderly, Requirements.MetBy;
    RequestIsProper(j, m, health);
    var trace := Journey(j, m, health).0.m.trace;
    forall k | |m.trace| <= k < |trace| && trace[k].Called? && trace[k].route == i
      ensures health[i].closedUntil <= Millis(trace[k].at)
    {
      assert Proper(j, health, trace[k]);
    }
  }

  /** A route that was denied is not called by the next request until a whole rest has gone by since
      the check found it denied. */
  lemma DeniedRoutesAreLeftAlone(j: Job, m: Moment, health: seq<HealthState>, answers: seq<Access>, i: nat)
    returns (at: nat)
    requires |answers| == |health| == |j.setup.routes| && i < |answers|
    requires answers[i].Denied? && j.setup.breaker.Some?
    requires var (checked, now) := Checked(j.setup, j.world, m, health, answers, |answers|);
             Ready(j, Start(now, checked))
    ensures var (checked, now) := Checked(j.setup, j.world, m, health, answers, |answers|);
            var trace := Journey(j, now, checked).0.m.trace;
            && m.now <= at <= now.now
            && forall k :: |now.trace| <= k < |trace| && trace[k].Called? && trace[k].route == i ==>
                 Min(Millis(at) + Min(j.setup.breaker.value.settled / NANOS_PER_MILLI, U64_MAX), U64_MAX) <= Millis(trace[k].at)
  {
    hide Journey, Checked, Millis;
    var (checked, now) := Checked(j.setup, j.world, m, health, answers, |answers|);
    at := CheckedOneByOne(j.setup, j.world, m, health, answers, |answers|, i);
    ClosedRoutesAreLeftAlone(j, now, checked, i);
  }

  // ----- a run of requests

  /** A request of a run, and how long after the one before it arrives. */
  datatype Ask = Ask(request: ChatRequest, needs: Requirements, idle: nat)

  /** A router between two requests. */
  datatype Books = Books(m: Moment, health: seq<HealthState>, purse: PurseState)

  function Arrival(b: Books, ask: Ask): Moment {
    b.m.(now := b.m.now + ask.idle)
  }

  function JobOf(setup: Setup, w: World, b: Books, ask: Ask): Job {
    Job(setup, w, b.purse.spent, ask.request, ask.needs, Arrival(b, ask).now)
  }

  ghost predicate Fits(setup: Setup, b: Books) {
    setup.Valid() && |b.health| == |setup.routes|
  }

  function Concluded(setup: Setup, w: World, b: Books, ask: Ask): (Run, Verdict)
    requires Fits(setup, b)
  {
    Journey(JobOf(setup, w, b, ask), Arrival(b, ask), b.health)
  }

  /** What one request leaves of a router, as `Router.Chat` leaves it. */
  function Chatted(setup: Setup, w: World, b: Books, ask: Ask): (b': Books)
    requires Fits(setup, b)
    ensures Fits(setup, b')
  {
    var (run, verdict) := Concluded(setup, w, b, ask);
    RequestHeals(JobOf(setup, w, b, ask), Arrival(b, ask), b.health);
    Books(run.m, run.health,
      if verdict.Answered? && verdict.route < |setup.routes|
      then Settled(setup, setup.routes[verdict.route].Name(), verdict.response.model, verdict.response.usage, b.purse)
      else b.purse)
  }

  function ChattedAll(setup: Setup, w: World, b: Books, asks: seq<Ask>): (b': Books)
    requires Fits(setup, b)
    ensures Fits(setup, b')
    decreases |asks|
  {
    if asks == [] then b else ChattedAll(setup, w, Chatted(setup, w, b, asks[0]), asks[1..])
  }

  /** What one request heard last from a route. */
  ghost function Heard(setup: Setup, w: World, b: Books, ask: Ask, i: nat): Option<Outcome>
    requires Fits(setup, b)
  {
    LastOf(Concluded(setup, w, b, ask).0.m.trace, |b.m.trace|, Some(i))
  }

  // ----- a failing route is left alone

  /** Whether a route keeps failing in the way that backs off: in no request of the run is the
      last thing heard from it anything else. */
  ghost predicate KeepsFailing(setup: Setup, w: World, b: Books, asks: seq<Ask>, i: nat)
    requires Fits(setup, b)
    decreases |asks|
  {
    asks != [] ==>
      && (var heard := Heard(setup, w, b, asks[0], i);
          heard.Some? ==> heard.value.Err? && BacksOff(heard.value.error))
      && KeepsFailing(setup, w, Chatted(setup, w, b, asks[0]), asks[1..], i)
  }

  /** In how many requests of the run the route was asked. */
  ghost function Requested(setup: Setup, w: World, b: Books, asks: seq<Ask>, i: nat): nat
    requires Fits(setup, b)
    decreases |asks|
  {
    if asks == [] then 0
    else (if Heard(setup, w, b, asks[0], i).Some? then 1 else 0)
         + Requested(setup, w, Chatted(setup, w, b, asks[0]), asks[1..], i)
  }

  /** The failures a route went through in a run, in turn. */
  lemma {:induction false} FailuresOf(setup: Setup, w: World, b: Books, asks: seq<Ask>, i: nat, from: nat)
    returns (failures: seq<Failure>)
    requires Fits(setup, b) && i < |b.health| && from <= b.m.now
    requires KeepsFailing(setup, w, b, asks, i)
    ensures |failures| == Requested(setup, w, b, asks, i)
    ensures InTurn(setup.breaker, b.health[i], failures, from)
    ensures forall f <- failures :: BacksOff(f.error)
    ensures failures != [] ==> b.m.now <= failures[0].failed
    ensures failures != [] ==> failures[|failures| - 1].failed <= ChattedAll(setup, w, b, asks).m.now
    ensures b.m.now <= ChattedAll(setup, w, b, asks).m.now
    decreases |asks|
  {
    hide EarnsARest, Rested;
    if asks == [] {
      failures := [];
    } else {
      var j, m := JobOf(setup, w, b, asks[0]), Arrival(b, asks[0]);
      RequestHeals(j, m, b.health);
      var next := Chatted(setup, w, b, asks[0]);
      var heard := Heard(setup, w, b, asks[0], i);
      match heard {
        case None =>
          failures := FailuresOf(setup, w, next, asks[1..], i, from);
        case Some(outcome) =>
          var error := outcome.error;
          var checked: nat, at: nat :|
            FailedThen(j, b.health[i], error, m.now, checked, at, next.m.now, next.health[i]);
          var later := FailuresOf(setup, w, next, asks[1..], i, at);
          failures := [Failure(checked, at, error)] + later;
          assert failures[1..] == later;
      }
    }
  }

  /** With a breaker, a route that keeps failing is asked in `n` of the requests of a run only if
      the run lasts, in whole milliseconds, at least the first `n - 1` waits of its backoff:
      however many requests there are, whatever the other routes do. */
  lemma FailingRouteIsLeftAlone(setup: Setup, w: World, b: Books, asks: seq<Ask>, i: nat)
    requires Fits(setup, b) && i < |b.health| && setup.breaker.Some?
    ensures var n, end := Requested(setup, w, b, asks, i), ChattedAll(setup, w, b, asks).m.now;
            && KeepsFailing(setup, w, b, asks, i) && n > 0
            && b.health[i].failures + n <= U32_MAX && Millis(end) < U64_MAX ==>
            Millis(end) - Millis(b.m.now) >= Backoffs(setup.breaker.value, b.health[i].failures, n - 1)
  {
    hide Requested, ChattedAll, KeepsFailing, Backoffs;
    var n, end := Requested(setup, w, b, asks, i), ChattedAll(setup, w, b, asks).m.now;
    if KeepsFailing(setup, w, b, asks, i) && n > 0 && b.health[i].failures + n <= U32_MAX && Millis(end) < U64_MAX {
      var failures := FailuresOf(setup, w, b, asks, i, b.m.now);
      MillisGrow(b.m.now, failures[0].failed);
      MillisGrow(failures[|failures| - 1].failed, end);
      BackoffFailuresAreSpreadOut(setup.breaker.value, b.health[i], failures, b.m.now);
    }
  }

  /** Without a breaker no route is ever resting, whatever fails. */
  lemma {:induction false} WithoutABreakerNothingRests(setup: Setup, w: World, b: Books, asks: seq<Ask>)
    requires Fits(setup, b) && setup.breaker.None?
    requires forall h <- b.health :: h.closedUntil == 0
    ensures forall h <- ChattedAll(setup, w, b, asks).health :: h.closedUntil == 0
    decreases |asks|
  {
    if asks != [] {
      var j, m := JobOf(setup, w, b, asks[0]), Arrival(b, asks[0]);
      RequestHeals(j, m, b.health);
      var next := Chatted(setup, w, b, asks[0]);
      forall k: nat | k < |next.health|
        ensures next.health[k].closedUntil == 0
      {
        assert b.health[k] in b.health;
        var heard := Heard(setup, w, b, asks[0], k);
        if heard.Some? && heard.value.Err? {
          var checked: nat, at: nat :|
            FailedThen(j, b.health[k], heard.value.error, m.now, checked, at, next.m.now, next.health[k]);
        }
      }
      WithoutABreakerNothingRests(setup, w, next, asks[1..]);
    }
  }

  // ----- what a run spends

  /** A route that answered fitted the budget when it was checked. */
  lemma {:induction false} AnswersAreAffordable(j: Job, order: seq<nat>, r: Run)
    requires Ready(j, r) && Indices(order, |r.health|)
    ensures var verdict := Walk(j, order, r).1;
            verdict.Answered? ==>
              && verdict.route < |j.setup.routes|
              && Unaffordable(j.setup.budget, j.spent, j.setup.routes[verdict.route], j.request).None?
    decreases |order|
  {
    if order != [] && Visit(j, order[0], r).Next? {
      AnswersAreAffordable(j, order[1..], Visit(j, order[0], r).run);
    }
  }

  ghost predicate NamesDiffer(routes: seq<Route>) {
    forall i, k :: 0 <= i < k < |routes| ==> routes[i].Name() != routes[k].Name()
  }

  lemma {:induction false} FindsByName(routes: seq<Route>, i: nat)
    requires NamesDiffer(routes) && i < |routes|
    ensures FirstNamed(routes, routes[i].Name()) == Some(routes[i])
    decreases |routes|
  {
    if i > 0 {
      assert routes[0].Name() != routes[i].Name();
      FindsByName(routes[1..], i - 1);
    }
  }

  ghost predicate RatesAreNonNegative(routes: seq<Route>) {
    forall i, model :: 0 <= i < |routes| && routes[i].prices.Some? && model in routes[i].prices.value.rates ==>
      routes[i].prices.value.rates[model].NonNegative()
  }

  /** The part of a price that cannot be bounded before a call: the prompt, cached or not. */
  function PromptSide(rate: Rate, usage: Usage): int {
    TokenLine(usage.input, rate.input) + TokenLine(usage.cacheRead, rate.cacheRead)
    + TokenLine(usage.cacheWrite, rate.cacheWrite)
  }

  /** The check made before a call bounds the output line of the price put down after it. */
  lemma ReplyIsCovered(rate: Rate, usage: Usage, maxTokens: U32)
    requires rate.NonNegative() && Count(usage.output) <= maxTokens
    ensures 0 <= PromptSide(rate, usage)
    ensures 0 <= TokenAmount(rate, usage) <= PromptSide(rate, usage) + MostAReplyCanCost(maxTokens, rate)
  {
    hide Line;
    BoundIsALine(maxTokens, rate);
    Costs.LineBounds(usage.input, rate.input, MILLION);
    Costs.LineBounds(usage.cacheRead, rate.cacheRead, MILLION);
    Costs.LineBounds(usage.cacheWrite, rate.cacheWrite, MILLION);
    Costs.LineBounds(usage.output, rate.output, MILLION);
    Costs.LineGrows(usage.output, Some(maxTokens), rate.output, MILLION);
    hide MostAReplyCanCost;
  }

  lemma BoundIsALine(maxTokens: U32, rate: Rate)
    ensures TokenLine(Some(maxTokens), rate.output) == MostAReplyCanCost(maxTokens, rate)
  {
  }

  /** A reply that keeps to its limit, from the model it was asked of, whose prompt side leaves
      the total a number that can be held. */
  ghost predicate KeepsToItsLimit(setup: Setup, ask: Ask, verdict: Verdict) {
    verdict.Answered? && verdict.route < |setup.routes| ==>
      && var route := setup.routes[verdict.route];
      && verdict.response.model == route.model
      && ask.request.maxTokens.Some?
      && Count(verdict.response.usage.output) <= ask.request.maxTokens.value
      && (setup.budget.Some? && route.RateOf().Some? ==>
            setup.budget.value.cap + PromptSide(route.RateOf().value, verdict.response.usage) <= I64_MAX)
  }

  ghost predicate KeepToLimits(setup: Setup, w: World, b: Books, asks: seq<Ask>)
    requires Fits(setup, b)
    decreases |asks|
  {
    asks != [] ==>
      && KeepsToItsLimit(setup, asks[0], Concluded(setup, w, b, asks[0]).1)
      && KeepToLimits(setup, w, Chatted(setup, w, b, asks[0]), asks[1..])
  }

  /** What a reply is charged, if it is charged anything. */
  ghost function Charge(setup: Setup, verdict: Verdict): Option<I64> {
    if verdict.Answered? && verdict.route < |setup.routes|
    then PriceAgainst(setup, setup.routes[verdict.route].Name(), verdict.response.model, verdict.response.usage)
    else None
  }

  /** The prompt side of the last charged call of a run, or of one before it. */
  ghost function LastPrompt(setup: Setup, w: World, b: Books, asks: seq<Ask>, before: int): int
    requires Fits(setup, b)
    decreases |asks|
  {
    if asks == [] then before
    else
      var verdict := Concluded(setup, w, b, asks[0]).1;
      var prompt :=
        if Charge(setup, verdict).Some? && setup.routes[verdict.route].RateOf().Some?
        then PromptSide(setup.routes[verdict.route].RateOf().value, verdict.response.usage) else before;
      LastPrompt(setup, w, Chatted(setup, w, b, asks[0]), asks[1..], prompt)
  }

  lemma OneChargeIsBounded(setup: Setup, w: World, b: Books, ask: Ask)
    requires Fits(setup, b) && setup.budget.Some? && setup.budget.value.cap >= 0 && b.purse.spent >= 0
    requires NamesDiffer(setup.routes) && RatesAreNonNegative(setup.routes)
    requires KeepsToItsLimit(setup, ask, Concluded(setup, w, b, ask).1)
    ensures var verdict := Concluded(setup, w, b, ask).1;
            var after := Chatted(setup, w, b, ask).purse.spent;
            match Charge(setup, verdict)
            case None => after == b.purse.spent
            case Some(amount) =>
              && setup.routes[verdict.route].RateOf().Some?
              && after == b.purse.spent + amount
              && b.purse.spent < setup.budget.value.cap
              && 0 <= PromptSide(setup.routes[verdict.route].RateOf().value, verdict.response.usage)
              && b.purse.spent <= after <=
                 setup.budget.value.cap + PromptSide(setup.routes[verdict.route].RateOf().value, verdict.response.usage)
  {
    hide Line, MostAReplyCanCost, Journey, Wrap;
    var j := JobOf(setup, w, b, ask);
    var verdict := Concluded(setup, w, b, ask).1;
    AffordableAnswer(setup, w, b, ask);
    if Charge(setup, verdict).Some? {
      var route := setup.routes[verdict.route];
      FindsByName(setup.routes, verdict.route);
      var rate := route.RateOf().value;
      assert route.prices.value.rates[route.model].NonNegative();
      ReplyIsCovered(rate, verdict.response.usage, ask.request.maxTokens.value);
      NothingForFree(None, 1);
      assert Charge(setup, verdict) == Some(TokenAmount(rate, verdict.response.usage)) by {
        NoUnitsNoCharge(rate, verdict.response.usage);
      }
      WrapFits(b.purse.spent + Charge(setup, verdict).value);
    }
  }

  lemma AffordableAnswer(setup: Setup, w: World, b: Books, ask: Ask)
    requires Fits(setup, b)
    ensures var verdict := Concluded(setup, w, b, ask).1;
            verdict.Answered? ==>
              && verdict.route < |setup.routes|
              && Unaffordable(setup.budget, b.purse.spent, setup.routes[verdict.route], ask.request).None?
  {
    AnswersAreAffordable(JobOf(setup, w, b, ask), ReachingOrder(setup, b.health), Start(Arrival(b, ask), b.health));
  }

  lemma NoUnitsNoCharge(rate: Rate, usage: Usage)
    ensures Measured(rate, usage, NO_UNITS) ==> Amount(rate, usage, NO_UNITS) == TokenAmount(rate, usage)
  {
  }

  /** With a reply limit on every request, kept to, and replies priced at the rate that was
      checked, a run never spends more than its cap and the prompt side of the last call that
      was charged. */
  lemma {:induction false} SpendingIsBounded(setup: Setup, w: World, b: Books, asks: seq<Ask>, before: nat)
    requires Fits(setup, b) && setup.budget.Some? && setup.budget.value.cap >= 0
    requires NamesDiffer(setup.routes) && RatesAreNonNegative(setup.routes)
    requires 0 <= b.purse.spent <= setup.budget.value.cap + before
    ensures KeepToLimits(setup, w, b, asks) ==>
              b.purse.spent <= ChattedAll(setup, w, b, asks).purse.spent
              <= setup.budget.value.cap + LastPrompt(setup, w, b, asks, before)
    decreases |asks|
  {
    if asks != [] && KeepToLimits(setup, w, b, asks) {
      hide PromptSide, Concluded, Chatted, Charge, NamesDiffer, RatesAreNonNegative, KeepsToItsLimit;
      OneChargeIsBounded(setup, w, b, asks[0]);
      var verdict := Concluded(setup, w, b, asks[0]).1;
      var prompt := if Charge(setup, verdict).Some?
        then PromptSide(setup.routes[verdict.route].RateOf().value, verdict.response.usage) else before;
      SpendingIsBounded(setup, w, Chatted(setup, w, b, asks[0]), asks[1..], prompt);
    }
  }
}
