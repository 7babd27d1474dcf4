/** Which calls a request ever makes, and when. */
module Safety {
  import opened Basics
  import opened Reports
  import opened Breakers
  import opened Surroundings
  import opened Routers
  import opened Journeys

  // ----- only calls that should be made

  /** A call this request may make: to a route that meets every requirement, was not resting,
      and fits the budget, carrying the request with nothing but its model replaced. `health` is
      what each route's health was when the request began. */
  ghost predicate Proper(j: Job, health: seq<HealthState>, e: Event)
    requires |health| == |j.setup.routes|
  {
    e.Called? ==>
      && e.route < |health|
      && var route := j.setup.routes[e.route];
      && route.capabilities.Some? && j.needs.MetBy(route.capabilities.value)
      && health[e.route].closedUntil <= Millis(e.at)
      && Unaffordable(j.setup.budget, j.spent, route, j.request).None?
      && 1 <= e.attempt <= j.setup.Allowed()
      && e.sent == j.request.(model := route.model)
  }

  /** Nothing follows an answer or a refusal, and no route is asked again once another has
      been: the attempts at one route are numbered upward. */
  ghost predicate Orderly(trace: seq<Event>, from: nat) {
    && (forall k, l :: from <= k < l < |trace| && trace[k].Called? && trace[l].Called? ==>
      && Unsettled(trace[k])
      && (trace[k].route == trace[l].route ==> trace[k].attempt < trace[l].attempt))
    && (forall k, l, n :: from <= k < l < n < |trace| && trace[k].Called? && trace[l].Called? && trace[n].Called? ==>
      trace[k].route == trace[n].route ==> trace[l].route == trace[k].route)
  }

  /** What one route's attempts add. */
  ghost predicate Asks(j: Job, i: nat, attempt: nat, since: nat, e: Event)
    requires i < |j.setup.routes|
  {
    e.Called? ==>
      && e.route == i && attempt <= e.attempt <= j.setup.Allowed() && since <= e.at
      && e.sent == j.request.(model := j.setup.routes[i].model)
  }

  ghost predicate AsksOnly(j: Job, i: nat, attempt: nat, r: Run, s: Step)
    requires i < |j.setup.routes|
  {
    && r.m.trace <= s.run.m.trace && r.m.now <= s.run.m.now
    && (forall k :: |r.m.trace| <= k < |s.run.m.trace| ==> Asks(j, i, attempt, r.m.now, s.run.m.trace[k]))
    && Orderly(s.run.m.trace, |r.m.trace|)
    && (s.Next? ==> forall k :: |r.m.trace| <= k < |s.run.m.trace| ==> Unsettled(s.run.m.trace[k]))
  }

  lemma {:induction false} TriesAsksOnly(j: Job, i: nat, attempt: nat, r: Run)
    requires Ready(j, r) && i < |r.health| && 1 <= attempt <= j.setup.Allowed()
    ensures AsksOnly(j, i, attempt, r, Tries(j, i, attempt, r))
    decreases j.setup.Allowed() - attempt
  {
    hide Once;
    var called, told, wait := OnceShape(j, i, attempt, r);
    match Once(j, i, attempt, r) {
      case Settles(_) =>
      case Again(next) =>
        hide AsksOnly;
        TriesAsksOnly(j, i, attempt + 1, next);
        AsksMore(j, i, attempt, r, next, called, wait, Tries(j, i, attempt + 1, next));
    }
  }

  /** One failed attempt, and then the rest of a route's attempts. */
  lemma AsksMore(j: Job, i: nat, attempt: nat, r: Run, next: Run, called: Event, wait: Option<Duration>, s: Step)
    requires i < |j.setup.routes| && called.Called? && r.m.now <= next.m.now
    requires next.m.trace == r.m.trace + [called] + if wait.Some? then [Slept(wait.value)] else []
    requires called.attempt == attempt && Asks(j, i, attempt, r.m.now, called) && Unsettled(called)
    requires AsksOnly(j, i, attempt + 1, next, s)
    ensures AsksOnly(j, i, attempt, r, s)
  {
    var trace := s.run.m.trace;
    assert next.m.trace[|r.m.trace|] == called;
    assert forall k :: |r.m.trace| <= k < |next.m.trace| ==> trace[k] == next.m.trace[k];
  }

  /** A route that passes the checks is one a call may be made to. */
  lemma CheckPasses(j: Job, i: nat, r: Run)
    requires Ready(j, r) && i < |r.health|
    ensures var (why, m) := Check(j, i, r);
            var route := j.setup.routes[i];
            && Quiet(r.m, m)
            && (why.None? ==>
                  && route.capabilities.Some? && j.needs.MetBy(route.capabilities.value)
                  && r.health[i].closedUntil <= Millis(m.now)
                  && Unaffordable(j.setup.budget, j.spent, route, j.request).None?)
  {
    hide Unaffordable, Requirements.MetBy, Requirements.UnmetBy;
  }

  lemma VisitAsksOnly(j: Job, i: nat, r: Run)
    requires Ready(j, r) && i < |r.health|
    ensures AsksOnly(j, i, 1, r, Visit(j, i, r))
    ensures var trace := Visit(j, i, r).run.m.trace;
            forall k :: |r.m.trace| <= k < |trace| ==> Proper(j, r.health, trace[k])
  {
    hide Tries, GiveUp, Unaffordable, NoRoomFor, Check, Requirements.MetBy;
    CheckPasses(j, i, r);
    var (why, m) := Check(j, i, r);
    var (late, m') := NoRoomFor(j, m, 0);
    if why.None? && !late {
      TriesAsksOnly(j, i, 1, r.(m := m'));
      var trace := Visit(j, i, r).run.m.trace;
      forall k | |r.m.trace| <= k < |trace|
        ensures Asks(j, i, 1, r.m.now, trace[k]) && Proper(j, r.health, trace[k])
      {
        assert Asks(j, i, 1, m'.now, trace[k]);
        if trace[k].Called? {
          MillisGrow(m.now, trace[k].at);
        }
      }
    }
  }

  /** Whether a call is one to make has to do with the health of no other route. */
  lemma ProperByItsOwn(j: Job, health: seq<HealthState>, before: seq<HealthState>, i: nat, e: Event)
    requires |before| == |health| == |j.setup.routes| && i < |health| && health[i] == before[i]
    requires e.Called? ==> e.route == i
    ensures Proper(j, health, e) <==> Proper(j, before, e)
  {
    hide Unaffordable, Requirements.MetBy;
  }

  /** Every call a request makes is one it may make, to a route in the order it was given, and
      the calls come in an orderly sequence. */
  lemma {:induction false} WalkIsProper(j: Job, order: seq<nat>, r: Run, health: seq<HealthState>)
    requires Ready(j, r) && Indices(order, |r.health|) && Distinct(order)
    requires |health| == |r.health| && forall i <- order :: i < |health| && r.health[i] == health[i]
    ensures var trace := Walk(j, order, r).0.m.trace;
            && r.m.trace <= trace
            && (forall k :: |r.m.trace| <= k < |trace| ==>
                  Proper(j, health, trace[k]) && (trace[k].Called? ==> trace[k].route in order))
            && Orderly(trace, |r.m.trace|)
    decreases |order|
  {
    hide Visit, Proper;
    if order != [] {
      var i := order[0];
      VisitAsksOnly(j, i, r);
      VisitHealth(j, i, r);
      var next := Visit(j, i, r).run;
      forall k | |r.m.trace| <= k < |next.m.trace|
        ensures Proper(j, health, next.m.trace[k]) && (next.m.trace[k].Called? ==> next.m.trace[k].route == i)
      {
        assert Asks(j, i, 1, r.m.now, next.m.trace[k]) && Proper(j, r.health, next.m.trace[k]);
        ProperByItsOwn(j, r.health, health, i, next.m.trace[k]);
      }
      if Visit(j, i, r).Next? {
        assert forall k <- order[1..] :: k != i;
        WalkIsProper(j, order[1..], next, health);
        var trace := Walk(j, order[1..], next).0.m.trace;
        assert forall k :: 0 <= k < |next.m.trace| ==> trace[k] == next.m.trace[k];
      }
    }
  }

  // ----- in the order routes are reached for

  ghost predicate NotAfter(order: seq<nat>, a: nat, b: nat) {
    exists p, q :: 0 <= p <= q < |order| && order[p] == a && order[q] == b
  }

  /** Calls go to routes of this order, and never back in it. */
  ghost predicate Follows(order: seq<nat>, trace: seq<Event>, from: nat) {
    forall k, l :: from <= k <= l < |trace| && trace[k].Called? && trace[l].Called? ==>
      NotAfter(order, trace[k].route, trace[l].route)
  }

  lemma NotAfterLater(order: seq<nat>, a: nat, b: nat)
    requires order != [] && NotAfter(order[1..], a, b)
    ensures NotAfter(order, a, b) && NotAfter(order, order[0], b)
  {
    var p, q :| 0 <= p <= q < |order[1..]| && order[1..][p] == a && order[1..][q] == b;
    assert order[p + 1] == a && order[q + 1] == b;
  }

  /** A walk asks routes in its order. */
  lemma {:induction false} WalkFollows(j: Job, order: seq<nat>, r: Run)
    requires Ready(j, r) && Indices(order, |r.health|)
    ensures var trace := Walk(j, order, r).0.m.trace;
            r.m.trace <= trace && Follows(order, trace, |r.m.trace|)
    decreases |order|
  {
    hide Visit, NotAfter;
    if order != [] {
      var i := order[0];
      assert NotAfter(order, i, i) by { FirstIsFirst(order); }
      VisitAsksOnly(j, i, r);
      var next := Visit(j, i, r).run;
      assert forall k :: |r.m.trace| <= k < |next.m.trace| ==> Asks(j, i, 1, r.m.now, next.m.trace[k]);
      if Visit(j, i, r).Next? {
        WalkFollows(j, order[1..], next);
        var trace := Walk(j, order[1..], next).0.m.trace;
        assert forall k :: 0 <= k < |next.m.trace| ==> trace[k] == next.m.trace[k];
        forall k, l | |r.m.trace| <= k <= l < |trace| && trace[k].Called? && trace[l].Called?
          ensures NotAfter(order, trace[k].route, trace[l].route)
        {
          if l >= |next.m.trace| {
            NotAfterLater(order, trace[if k < |next.m.trace| then l else k].route, trace[l].route);
          }
        }
      }
    }
  }

  lemma FirstIsFirst(order: seq<nat>)
    requires order != []
    ensures NotAfter(order, order[0], order[0])
  {
  }

  /** So of two routes a request asks, the one it asks first comes first by the key the router sorts by. */
  lemma AskedByKey(setup: Setup, health: seq<HealthState>, a: nat, b: nat)
    requires |setup.routes| == |health| && NotAfter(ReachingOrder(setup, health), a, b) && a != b
    ensures a < |health| && b < |health| && Precedes(setup, health, a, b)
  {
    hide Precedes, ReachingOrder;
    var order := ReachingOrder(setup, health);
    ReachingOrderSorts(setup, health);
    var p, q :| 0 <= p <= q < |order| && order[p] == a && order[q] == b;
    assert order[p] in order && order[q] in order;
  }
}
