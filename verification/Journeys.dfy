/** What every request keeps, whatever the providers, the clock and the waits do. */
module Journeys {
  import opened Basics
  import opened Reports
  import opened Breakers
  import opened Surroundings
  import opened Routers

  // ----- the order routes are reached for

  /** Whether one route comes before another: by key, and between equal keys as written. */
  ghost predicate Precedes(setup: Setup, health: seq<HealthState>, i: nat, k: nat)
    requires i < |setup.routes| == |health| && k < |health|
  {
    || KeyOf(setup, health, i).Before(KeyOf(setup, health, k))
    || (KeyOf(setup, health, i) == KeyOf(setup, health, k) && i < k)
  }

  /** Whether a route's price can be looked up: it has a book, and the book has its model. */
  predicate Listed(route: Route) {
    route.prices.Some? && route.model in route.prices.value.rates
  }

  /** What a listed route costs by the token, in and out, up to the largest amount that can be held. */
  function Tariff(route: Route): int
    requires Listed(route)
  {
    var rate := route.prices.value.rates[route.model];
    Max(I64_MIN, Min(rate.input + rate.output, I64_MAX))
  }

  /** Which of two routes comes first: the cheaper of two that are listed, and a listed one before one that is
      not; or the one with fewer failures; and otherwise the one written first. */
  lemma PrecedesExactlyWhen(setup: Setup, health: seq<HealthState>, i: nat, k: nat)
    requires i < |setup.routes| == |health| && k < |health|
    ensures var a, b := setup.routes[i], setup.routes[k];
            Precedes(setup, health, i, k) <==>
            match setup.order
            case AsListed => i < k
            case Healthiest =>
              health[i].failures < health[k].failures || (health[i].failures == health[k].failures && i < k)
            case Cheapest =>
              if Listed(a) && Listed(b) then Tariff(a) < Tariff(b) || (Tariff(a) == Tariff(b) && i < k)
              else if Listed(a) || Listed(b) then Listed(a)
              else i < k
  {
  }

  ghost predicate Sorted(setup: Setup, health: seq<HealthState>, order: seq<nat>)
    requires |setup.routes| == |health| && Indices(order, |health|)
  {
    forall p, q :: 0 <= p < q < |order| ==> Precedes(setup, health, order[p], order[q])
  }

  ghost predicate Distinct(order: seq<nat>) {
    forall p, q :: 0 <= p < q < |order| ==> order[p] != order[q]
  }

  /** Every route is reached for exactly once, in a stable order. */
  lemma ReachingOrderSorts(setup: Setup, health: seq<HealthState>)
    requires |setup.routes| == |health|
    ensures var order := ReachingOrder(setup, health);
            && Sorted(setup, health, order)
            && Distinct(order)
            && |order| == |health|
            && (forall i: nat :: i in order <==> i < |health|)
  {
    SortedUpToSorts(setup, health, |health|);
  }

  /** What goes last in a sorted order is what everything else precedes. */
  lemma LastSorts(setup: Setup, health: seq<HealthState>, front: seq<nat>, back: nat)
    requires |setup.routes| == |health| && Indices(front, |health|) && back < |health|
    ensures Sorted(setup, health, front + [back]) <==>
            Sorted(setup, health, front) && forall p :: 0 <= p < |front| ==> Precedes(setup, health, front[p], back)
  {
    hide Precedes;
    var order := front + [back];
    assert Indices(order, |health|);
    assert forall p :: 0 <= p < |front| ==> order[p] == front[p];
    assert order[|front|] == back;
  }

  lemma {:induction false} SortedUpToSorts(setup: Setup, health: seq<HealthState>, n: nat)
    requires n <= |setup.routes| == |health|
    ensures var order := SortedUpTo(setup, health, n);
            Sorted(setup, health, order) && |order| == n && (forall i: nat :: i in order <==> i < n)
  {
    hide Sorted, Insert;
    if n == 0 {
      NothingSorts(setup, health);
    } else {
      SortedUpToSorts(setup, health, n - 1);
      InsertSorts(setup, health, SortedUpTo(setup, health, n - 1), n - 1);
    }
  }

  lemma NothingSorts(setup: Setup, health: seq<HealthState>)
    requires |setup.routes| == |health|
    ensures Sorted(setup, health, [])
  {
  }

  lemma {:induction false} InsertSorts(setup: Setup, health: seq<HealthState>, order: seq<nat>, i: nat)
    requires |setup.routes| == |health| && i < |health|
    requires Indices(order, i) && Sorted(setup, health, order)
    ensures var inserted := Insert(setup, health, order, i);
            && Sorted(setup, health, inserted)
            && |inserted| == |order| + 1
            && (forall k: nat :: k in inserted <==> k == i || k in order)
  {
    hide KeyOf, Sorted;
    if order != [] && KeyOf(setup, health, i).Before(KeyOf(setup, health, order[|order| - 1])) {
      var front, back := order[..|order| - 1], order[|order| - 1];
      assert order == front + [back];
      LastSorts(setup, health, front, back);
      InsertSorts(setup, health, front, i);
      var inner := Insert(setup, health, front, i);
      forall p | 0 <= p < |inner|
        ensures Precedes(setup, health, inner[p], back)
      {
        assert inner[p] in inner;
      }
      LastSorts(setup, health, inner, back);
    } else {
      forall p | 0 <= p < |order|
        ensures Precedes(setup, health, order[p], i)
      {
        LastIsHighest(setup, health, order, p);
      }
      LastSorts(setup, health, order, i);
    }
  }

  lemma LastIsHighest(setup: Setup, health: seq<HealthState>, order: seq<nat>, p: nat)
    requires |setup.routes| == |health| && Indices(order, |health|) && Sorted(setup, health, order) && p < |order|
    ensures p == |order| - 1 || Precedes(setup, health, order[p], order[|order| - 1])
  {
    hide Precedes;
  }

  // ----- the shape of one attempt

  /** What one attempt adds to a request: one call, a line about it unless it ended there, and
      the wait before the next. */
  ghost predicate Extends(r: Run, after: Run, called: Event, told: seq<Attempted>, wait: Option<Duration>) {
    && after.m.trace == r.m.trace + [called] + (if wait.Some? then [Slept(wait.value)] else [])
    && after.m.calls == r.m.calls + 1
    && after.m.now >= r.m.now
    && after.fellThrough == r.fellThrough + told
    && after == Run(after.m, after.health, after.fellThrough, after.last, r.attempts + 1, r.resting, r.overBudget)
  }

  ghost function RunOf(t: Turn): Run {
    if t.Again? then t.run else t.step.run
  }

  /** How an attempt that called with this outcome may leave a request. */
  ghost predicate Leaves(j: Job, i: nat, outcome: Outcome, t: Turn) {
    match t
    case Again(run) => outcome.Err? && !outcome.error.Refused? && run.last == Some(outcome.error)
    case Settles(Next(run)) => outcome.Err? && !outcome.error.Refused? && run.last == Some(outcome.error)
    case Settles(Done(_, Answered(response, k))) => outcome == Ok(response) && k == i
    case Settles(Done(_, Failed(error))) => outcome == Err(error) && error.Refused?
    case Settles(Done(_, GaveUp(_))) =>
      outcome.Err? && !outcome.error.Refused? && j.setup.deadline.Some?
  }

  lemma OnceShape(j: Job, i: nat, attempt: nat, r: Run)
    returns (called: Event, told: seq<Attempted>, wait: Option<Duration>)
    requires Ready(j, r) && i < |r.health| && 1 <= attempt <= j.setup.Allowed()
    ensures called == Called(i, attempt, j.request.(model := j.setup.routes[i].model), r.m.now,
                             j.world.Outcome(r.m, i))
    ensures var t := Once(j, i, attempt, r);
            && Extends(r, RunOf(t), called, told, wait)
            && (t.Again? <==> wait.Some?)
            && Leaves(j, i, called.outcome, t)
    ensures if called.outcome.Ok? || called.outcome.error.Refused? then told == []
            else |told| == 1 && (told[0].why.Failing? || told[0].why.TryingAgain?)
  {
    hide CountFailure, GiveUp, NoRoomFor, Waiting;
    var sending := j.request.(model := j.setup.routes[i].model);
    var outcome := j.world.Outcome(r.m, i);
    called, told, wait := Called(i, attempt, sending, r.m.now, outcome), [], None;
    if outcome.Err? && !outcome.error.Refused? {
      var name := j.setup.routes[i].Name();
      var asked := r.(m := j.world.Call(r.m, i, attempt, sending), attempts := r.attempts + 1);
      var waiting := Waiting(j, asked, attempt, outcome.error);
      if waiting.None? {
        told := [Attempted(name, Failing(outcome.error))];
      } else {
        told := [Attempted(name, TryingAgain(outcome.error, attempt, j.setup.Allowed(), waiting.value))];
        if !NoRoomFor(j, asked.m, waiting.value).0 {
          wait := waiting;
        }
      }
    }
  }

  // ----- every call is counted, and everything that did not serve is listed

  ghost function Skips(tried: seq<Attempted>): nat
    decreases |tried|
  {
    if tried == [] then 0
    else Skips(tried[..|tried| - 1]) + if tried[|tried| - 1].why.Skip() then 1 else 0
  }

  lemma OneMoreTried(tried: seq<Attempted>, a: Attempted)
    ensures Skips(tried + [a]) == Skips(tried) + if a.why.Skip() then 1 else 0
  {
    assert (tried + [a])[..|tried|] == tried;
  }

  /** The call that ended a request without being listed: the one that answered, or refused. */
  ghost function Unlisted(verdict: Verdict): nat {
    if verdict.Answered? || (verdict.Failed? && verdict.error.Refused?) then 1 else 0
  }

  /** What both kinds of step keep: calls counted once each, skips and failed calls listed once
      each, and the error carried along never a refusal. */
  ghost predicate Accounts(before: Run, after: Run, unlisted: nat) {
    && after.attempts - before.attempts == after.m.calls - before.m.calls
    && after.attempts - before.attempts == Calls(after.m.trace) - Calls(before.m.trace)
    && (|after.fellThrough| - Skips(after.fellThrough)) - (|before.fellThrough| - Skips(before.fellThrough))
       == after.attempts - before.attempts - unlisted
  }

  ghost predicate NotRefused(r: Run) {
    r.last.Some? ==> !r.last.value.Refused?
  }

  lemma ExtendsAccounts(r: Run, after: Run, called: Event, told: seq<Attempted>, wait: Option<Duration>)
    requires Extends(r, after, called, told, wait) && called.Called?
    requires |told| <= 1 && (forall a <- told :: !a.why.Skip())
    ensures Accounts(r, after, 1 - |told|)
  {
    OneMoreEvent(r.m.trace, called);
    if wait.Some? {
      OneMoreEvent(r.m.trace + [called], Slept(wait.value));
    } else {
      assert r.m.trace + [called] + [] == r.m.trace + [called];
    }
    if told == [] {
      assert r.fellThrough + told == r.fellThrough;
    } else {
      assert told == [told[0]];
      OneMoreTried(r.fellThrough, told[0]);
    }
  }

  lemma OnceAccounts(j: Job, i: nat, attempt: nat, r: Run)
    requires Ready(j, r) && i < |r.health| && 1 <= attempt <= j.setup.Allowed()
    ensures var t := Once(j, i, attempt, r);
            && (t.Again? ==> Accounts(r, t.run, 0) && NotRefused(t.run))
            && (t.Settles? ==> AccountsStep(r, t.step))
  {
    hide Once, Accounts;
    var called, told, wait := OnceShape(j, i, attempt, r);
    ExtendsAccounts(r, RunOf(Once(j, i, attempt, r)), called, told, wait);
  }

  ghost predicate AccountsStep(r: Run, s: Step) {
    && (s.Done? ==> Accounts(r, s.run, Unlisted(s.verdict)) && (s.verdict.Failed? ==> s.verdict.error.Refused?))
    && (s.Next? ==> Accounts(r, s.run, 0) && NotRefused(s.run))
  }

  lemma {:induction false} TriesAccounts(j: Job, i: nat, attempt: nat, r: Run)
    requires Ready(j, r) && i < |r.health| && 1 <= attempt <= j.setup.Allowed()
    ensures AccountsStep(r, Tries(j, i, attempt, r))
    decreases j.setup.Allowed() - attempt
  {
    hide Once, Calls, Skips;
    OnceAccounts(j, i, attempt, r);
    match Once(j, i, attempt, r) {
      case Settles(_) =>
      case Again(next) => TriesAccounts(j, i, attempt + 1, next);
    }
  }

  lemma {:induction false} WalkAccounts(j: Job, order: seq<nat>, r: Run)
    requires Ready(j, r) && Indices(order, |r.health|) && NotRefused(r)
    ensures var (run, verdict) := Walk(j, order, r);
            Accounts(r, run, Unlisted(verdict))
    decreases |order|
  {
    if order != [] {
      VisitAccounts(j, order[0], r);
      match Visit(j, order[0], r) {
        case Done(_, _) =>
        case Next(next) => WalkAccounts(j, order[1..], next);
      }
    }
  }

  /** A check sends nothing, and what it answers is a reason to pass a route over. */
  lemma CheckShape(j: Job, i: nat, r: Run)
    requires Ready(j, r) && i < |r.health|
    ensures var (why, m) := Check(j, i, r);
            && Quiet(r.m, m)
            && (why.Some? ==> why.value.Skip())
            && (why.None? ==> r.health[i].ClosedAt(m.now).None?)
  {
    hide Unaffordable, Requirements.UnmetBy;
  }

  lemma VisitAccounts(j: Job, i: nat, r: Run)
    requires Ready(j, r) && i < |r.health| && NotRefused(r)
    ensures AccountsStep(r, Visit(j, i, r))
  {
    hide Check, Tries, Calls, Skips;
    CheckShape(j, i, r);
    var (why, m) := Check(j, i, r);
    match why {
      case Some(why) => OneMoreTried(r.fellThrough, Attempted(j.setup.routes[i].Name(), why));
      case None =>
        var (late, m') := NoRoomFor(j, m, 0);
        if !late {
          TriesAccounts(j, i, 1, r.(m := m'));
        }
    }
  }

  // ----- what the answer is

  /** The outcome of the last call of a request to one route, or to any. */
  ghost function LastOf(trace: seq<Event>, from: nat, i: Option<nat>): Option<Outcome>
    decreases |trace|
  {
    if |trace| <= from then None
    else
      var e := trace[|trace| - 1];
      if e.Called? && (i.None? || e.route == i.value) then Some(e.outcome)
      else LastOf(trace[..|trace| - 1], from, i)
  }

  lemma LastOfOneMore(trace: seq<Event>, e: Event, from: nat, i: Option<nat>)
    requires from <= |trace|
    ensures LastOf(trace + [e], from, i) ==
            if e.Called? && (i.None? || e.route == i.value) then Some(e.outcome) else LastOf(trace, from, i)
  {
    assert (trace + [e])[..|trace|] == trace;
  }

  lemma {:induction false} LastOfSplit(trace: seq<Event>, from: nat, mid: nat, i: Option<nat>)
    requires from <= mid <= |trace|
    ensures LastOf(trace, from, i) ==
            if LastOf(trace, mid, i).Some? then LastOf(trace, mid, i) else LastOf(trace[..mid], from, i)
    decreases |trace|
  {
    if mid == |trace| {
      assert trace[..mid] == trace;
    } else {
      var front := trace[..|trace| - 1];
      LastOfSplit(front, from, mid, i);
      assert front[..mid] == trace[..mid];
    }
  }

  /** What is carried along is what the last call said, and nothing before there was one. */
  ghost predicate Remembers(from: nat, r: Run) {
    && from <= |r.m.trace|
    && LastOf(r.m.trace, from, None) == match r.last case None => None case Some(e) => Some(Err(e))
  }

  ghost predicate Concludes(j: Job, from: nat, s: Step) {
    && from <= |s.run.m.trace|
    && (s.Next? ==> Remembers(from, s.run))
    && (s.Done? ==>
          match s.verdict
          case Answered(response, _) => LastOf(s.run.m.trace, from, None) == Some(Ok(response))
          case Failed(error) => LastOf(s.run.m.trace, from, None) == Some(Err(error))
          case GaveUp(_) => j.setup.deadline.Some?)
  }

  lemma OnceConcludes(j: Job, i: nat, attempt: nat, r: Run, from: nat)
    requires Ready(j, r) && i < |r.health| && 1 <= attempt <= j.setup.Allowed()
    requires from <= |r.m.trace|
    ensures var t := Once(j, i, attempt, r);
            && (t.Again? ==> Remembers(from, t.run))
            && (t.Settles? ==> Concludes(j, from, t.step))
  {
    hide Once;
    var called, told, wait := OnceShape(j, i, attempt, r);
    LastOfOneMore(r.m.trace, called, from, None);
    if wait.Some? {
      LastOfOneMore(r.m.trace + [called], Slept(wait.value), from, None);
    }
  }

  lemma {:induction false} TriesConcludes(j: Job, i: nat, attempt: nat, r: Run, from: nat)
    requires Ready(j, r) && i < |r.health| && 1 <= attempt <= j.setup.Allowed()
    requires from <= |r.m.trace|
    ensures Concludes(j, from, Tries(j, i, attempt, r))
    decreases j.setup.Allowed() - attempt
  {
    hide Once, LastOf;
    OnceConcludes(j, i, attempt, r, from);
    match Once(j, i, attempt, r) {
      case Settles(_) =>
      case Again(next) => TriesConcludes(j, i, attempt + 1, next, from);
    }
  }

  lemma VisitConcludes(j: Job, i: nat, r: Run, from: nat)
    requires Ready(j, r) && i < |r.health| && Remembers(from, r)
    ensures Concludes(j, from, Visit(j, i, r))
  {
    hide Tries, GiveUp, Check;
    CheckShape(j, i, r);
    var (why, m) := Check(j, i, r);
    var (late, m') := NoRoomFor(j, m, 0);
    if why.None? && !late {
      TriesConcludes(j, i, 1, r.(m := m'), from);
    }
  }

  /** How many of the routes passed over were for one reason. */
  ghost function Resters(tried: seq<Attempted>): nat
    decreases |tried|
  {
    if tried == [] then 0
    else Resters(tried[..|tried| - 1]) + if tried[|tried| - 1].why.Resting? then 1 else 0
  }

  ghost function Refusals(tried: seq<Attempted>): nat
    decreases |tried|
  {
    if tried == [] then 0
    else Refusals(tried[..|tried| - 1]) + if tried[|tried| - 1].why.NoMoney? then 1 else 0
  }

  ghost predicate Tallied(r: Run) {
    r.resting == Resters(r.fellThrough) && r.overBudget == Refusals(r.fellThrough)
  }

  lemma OneMoreReason(tried: seq<Attempted>, a: Attempted)
    ensures Resters(tried + [a]) == Resters(tried) + if a.why.Resting? then 1 else 0
    ensures Refusals(tried + [a]) == Refusals(tried) + if a.why.NoMoney? then 1 else 0
  {
    assert (tried + [a])[..|tried|] == tried;
  }

  lemma OnceTallies(j: Job, i: nat, attempt: nat, r: Run)
    requires Ready(j, r) && i < |r.health| && 1 <= attempt <= j.setup.Allowed()
    requires Tallied(r)
    ensures Tallied(RunOf(Once(j, i, attempt, r)))
  {
    hide Once;
    var called, told, wait := OnceShape(j, i, attempt, r);
    if told == [] {
      assert r.fellThrough + told == r.fellThrough;
    } else {
      assert told == [told[0]];
      OneMoreReason(r.fellThrough, told[0]);
    }
  }

  lemma {:induction false} TriesTallies(j: Job, i: nat, attempt: nat, r: Run)
    requires Ready(j, r) && i < |r.health| && 1 <= attempt <= j.setup.Allowed()
    requires Tallied(r)
    ensures Tallied(Tries(j, i, attempt, r).run)
    decreases j.setup.Allowed() - attempt
  {
    hide Once, Tallied;
    OnceTallies(j, i, attempt, r);
    match Once(j, i, attempt, r) {
      case Settles(_) =>
      case Again(next) => TriesTallies(j, i, attempt + 1, next);
    }
  }

  lemma VisitTallies(j: Job, i: nat, r: Run)
    requires Ready(j, r) && i < |r.health| && Tallied(r)
    ensures Tallied(Visit(j, i, r).run)
  {
    hide Tries, GiveUp, Check;
    CheckShape(j, i, r);
    var (why, m) := Check(j, i, r);
    match why {
      case Some(why) => OneMoreReason(r.fellThrough, Attempted(j.setup.routes[i].Name(), why));
      case None =>
        var (late, m') := NoRoomFor(j, m, 0);
        if !late {
          TriesTallies(j, i, 1, r.(m := m'));
        }
    }
  }

  /** What a request is answered with, told from what was called and what was passed over. */
  ghost predicate Justified(j: Job, from: nat, run: Run, verdict: Verdict) {
    var said := LastOf(run.m.trace, from, None);
    match verdict
    case Answered(response, _) => said == Some(Ok(response))
    case GaveUp(_) => j.setup.deadline.Some?
    case Failed(error) =>
      if said.Some? then said == Some(Err(error))
      else if Refusals(run.fellThrough) > 0 then error == OverBudget(NothingAffordable(run.fellThrough))
      else if Resters(run.fellThrough) > 0 then error == Transient(EveryRouteResting(run.fellThrough))
      else error == Unsupported(NoRouteCanServe(run.fellThrough))
  }

  lemma {:induction false} WalkJustified(j: Job, order: seq<nat>, r: Run, from: nat)
    requires Ready(j, r) && Indices(order, |r.health|)
    requires Remembers(from, r) && Tallied(r)
    ensures var (run, verdict) := Walk(j, order, r);
            Justified(j, from, run, verdict)
    decreases |order|
  {
    if order != [] {
      VisitConcludes(j, order[0], r, from);
      VisitTallies(j, order[0], r);
      match Visit(j, order[0], r) {
        case Done(_, _) =>
        case Next(next) => WalkJustified(j, order[1..], next, from);
      }
    }
  }

  // ----- what a request does to the health of each route

  /** What the last thing a route said to a request makes of its health: cleared when it served,
      one failure more (and the rest it earned) when it did not, and untouched when it was never
      called, however many times it was asked. */
  ghost predicate Healed(
    j: Job, h: HealthState, said: Option<Outcome>, begin: nat, end: nat, after: HealthState)
  {
    match said
    case None => after == h
    case Some(Ok(_)) => after == HEALTHY
    case Some(Err(error)) =>
      exists checked: nat, at: nat :: FailedThen(j, h, error, begin, checked, at, end, after)
  }

  /** A failure at time `at`, of a route that was found open at time `checked`. */
  ghost predicate FailedThen(
    j: Job, h: HealthState, error: Error, begin: nat, checked: nat, at: nat, end: nat, after: HealthState)
  {
    && begin <= checked <= at <= end
    && h.ClosedAt(checked).None?
    && after == Rested(j.setup.breaker, h, error, at)
  }

  /** What one route's part of a request leaves: other routes untouched and uncalled. */
  ghost predicate HealsOnly(j: Job, i: nat, r: Run, after: Run)
    requires i < |r.health|
  {
    && |after.health| == |r.health|
    && r.m.trace <= after.m.trace && r.m.now <= after.m.now
    && Healed(j, r.health[i], LastOf(after.m.trace, |r.m.trace|, Some(i)), r.m.now, after.m.now, after.health[i])
    && (forall k: nat :: k < |r.health| && k != i ==> after.health[k] == r.health[k])
    && (forall k: nat :: k != i ==> LastOf(after.m.trace, |r.m.trace|, Some(k)) == None)
  }

  lemma OnceHealth(j: Job, i: nat, attempt: nat, r: Run) returns (at: nat)
    requires Ready(j, r) && i < |r.health| && 1 <= attempt <= j.setup.Allowed()
    ensures var t, outcome := Once(j, i, attempt, r), j.world.Outcome(r.m, i);
            && r.m.now <= at <= RunOf(t).m.now
            && RunOf(t).health ==
               if t.Again? then r.health
               else r.health[i := if outcome.Ok? then HEALTHY
                                  else Rested(j.setup.breaker, r.health[i], outcome.error, at)]
  {
    hide GiveUp, NoRoomFor, Waiting, Opening;
    at := r.m.now;
    var outcome := j.world.Outcome(r.m, i);
    if outcome.Err? {
      var m := j.world.Call(r.m, i, attempt, j.request.(model := j.setup.routes[i].model));
      var asked := r.(m := m, attempts := r.attempts + 1);
      if !outcome.error.Refused? && Waiting(j, asked, attempt, outcome.error).Some? {
        m := NoRoomFor(j, m, Waiting(j, asked, attempt, outcome.error).value).1;
      }
      if !Once(j, i, attempt, r).Again? {
        at := if Opening(j.setup.breaker, r.health[i], outcome.error).Some? then j.world.Read(m).now else m.now;
      }
    }
  }

  /** A route that was asked said something, and only it did. */
  lemma OnceSpeaks(j: Job, i: nat, attempt: nat, r: Run)
    requires Ready(j, r) && i < |r.health| && 1 <= attempt <= j.setup.Allowed()
    ensures var m, m' := r.m, RunOf(Once(j, i, attempt, r)).m;
            && m.trace <= m'.trace && m.now <= m'.now
            && (forall k: nat :: LastOf(m'.trace, |m.trace|, Some(k)) ==
                  if k == i then Some(j.world.Outcome(m, i)) else None)
  {
    hide Once;
    var called, told, wait := OnceShape(j, i, attempt, r);
    forall k: nat
      ensures LastOf(RunOf(Once(j, i, attempt, r)).m.trace, |r.m.trace|, Some(k)) ==
              if k == i then Some(j.world.Outcome(r.m, i)) else None
    {
      LastOfOneMore(r.m.trace, called, |r.m.trace|, Some(k));
      if wait.Some? {
        LastOfOneMore(r.m.trace + [called], Slept(wait.value), |r.m.trace|, Some(k));
      } else {
        assert r.m.trace + [called] + [] == r.m.trace + [called];
      }
    }
  }

  lemma {:induction false} TriesHealth(j: Job, i: nat, attempt: nat, r: Run)
    requires Ready(j, r) && i < |r.health| && 1 <= attempt <= j.setup.Allowed()
    requires r.health[i].ClosedAt(r.m.now).None?
    ensures HealsOnly(j, i, r, Tries(j, i, attempt, r).run)
    ensures LastOf(Tries(j, i, attempt, r).run.m.trace, |r.m.trace|, Some(i)).Some?
    decreases j.setup.Allowed() - attempt
  {
    hide Once;
    var at := OnceHealth(j, i, attempt, r);
    OnceSpeaks(j, i, attempt, r);
    match Once(j, i, attempt, r) {
      case Settles(step) =>
        var outcome := j.world.Outcome(r.m, i);
        if outcome.Err? {
          assert FailedThen(j, r.health[i], outcome.error, r.m.now, r.m.now, at, step.run.m.now, step.run.health[i]);
        }
      case Again(next) =>
        MillisGrow(r.m.now, next.m.now);
        TriesHealth(j, i, attempt + 1, next);
        Extend(j, i, r, next, Tries(j, i, attempt + 1, next).run);
    }
  }

  /** Two stretches of one route's part of a request, the first of which left health alone. */
  lemma Extend(j: Job, i: nat, r: Run, next: Run, after: Run)
    requires i < |r.health| && next.health == r.health
    requires r.m.trace <= next.m.trace && r.m.now <= next.m.now
    requires forall k: nat :: k != i ==> LastOf(next.m.trace, |r.m.trace|, Some(k)) == None
    requires HealsOnly(j, i, next, after) && LastOf(after.m.trace, |next.m.trace|, Some(i)).Some?
    ensures HealsOnly(j, i, r, after) && LastOf(after.m.trace, |r.m.trace|, Some(i)).Some?
  {
    assert after.m.trace[..|next.m.trace|] == next.m.trace;
    forall k: nat
      ensures LastOf(after.m.trace, |r.m.trace|, Some(k)) ==
              if LastOf(after.m.trace, |next.m.trace|, Some(k)).Some?
              then LastOf(after.m.trace, |next.m.trace|, Some(k))
              else LastOf(next.m.trace, |r.m.trace|, Some(k))
    {
      LastOfSplit(after.m.trace, |r.m.trace|, |next.m.trace|, Some(k));
    }
    HealedEarlier(j, r.health[i], LastOf(after.m.trace, |next.m.trace|, Some(i)), r.m.now, next.m.now,
                  after.m.now, after.m.now, after.health[i]);
  }

  lemma HealedEarlier(j: Job, h: HealthState, said: Option<Outcome>, earlier: nat, begin: nat, end: nat,
                      later: nat, after: HealthState)
    requires earlier <= begin && end <= later && Healed(j, h, said, begin, end, after)
    ensures Healed(j, h, said, earlier, later, after)
  {
    if said.Some? && said.value.Err? {
      var checked: nat, at: nat :| FailedThen(j, h, said.value.error, begin, checked, at, end, after);
      assert FailedThen(j, h, said.value.error, earlier, checked, at, later, after);
    }
  }

  lemma VisitHealth(j: Job, i: nat, r: Run)
    requires Ready(j, r) && i < |r.health|
    ensures HealsOnly(j, i, r, Visit(j, i, r).run)
  {
    hide Tries, GiveUp, Check, NoRoomFor;
    CheckShape(j, i, r);
    var (why, m) := Check(j, i, r);
    var (late, m') := NoRoomFor(j, m, 0);
    if why.None? && !late {
      MillisGrow(m.now, m'.now);
      TriesHealth(j, i, 1, r.(m := m'));
      var after := Visit(j, i, r).run;
      HealedEarlier(j, r.health[i], LastOf(after.m.trace, |r.m.trace|, Some(i)), r.m.now, m'.now,
                    after.m.now, after.m.now, after.health[i]);
    }
  }

  /** What a whole walk leaves of every route's health. */
  ghost predicate HealsAll(j: Job, r: Run, after: Run) {
    && |after.health| == |r.health|
    && r.m.trace <= after.m.trace && r.m.now <= after.m.now
    && (forall k: nat :: k < |r.health| ==>
          Healed(j, r.health[k], LastOf(after.m.trace, |r.m.trace|, Some(k)), r.m.now, after.m.now, after.health[k]))
  }

  /** One route's part of a request, and then the rest of the walk, for the health of route `k`. */
  lemma HealsThrough(j: Job, i: nat, r: Run, next: Run, run: Run, k: nat)
    requires i < |r.health| && HealsOnly(j, i, r, next) && HealsAll(j, next, run)
    requires LastOf(run.m.trace, |next.m.trace|, Some(i)) == None
    ensures k < |r.health| ==>
              Healed(j, r.health[k], LastOf(run.m.trace, |r.m.trace|, Some(k)), r.m.now, run.m.now, run.health[k])
    ensures k != i ==> LastOf(run.m.trace, |r.m.trace|, Some(k)) == LastOf(run.m.trace, |next.m.trace|, Some(k))
  {
    assert run.m.trace[..|next.m.trace|] == next.m.trace;
    LastOfSplit(run.m.trace, |r.m.trace|, |next.m.trace|, Some(k));
    if k == i {
      HealedEarlier(j, r.health[k], LastOf(next.m.trace, |r.m.trace|, Some(k)), r.m.now, r.m.now,
                    next.m.now, run.m.now, next.health[k]);
    } else if k < |r.health| {
      HealedEarlier(j, r.health[k], LastOf(run.m.trace, |next.m.trace|, Some(k)), r.m.now, next.m.now,
                    run.m.now, run.m.now, run.health[k]);
    }
  }

  lemma Untouched(j: Job, h: HealthState, begin: nat, end: nat)
    ensures Healed(j, h, None, begin, end, h)
  {
  }

  lemma {:induction false} WalkHealth(j: Job, order: seq<nat>, r: Run)
    requires Ready(j, r) && Indices(order, |r.health|) && Distinct(order)
    ensures var run := Walk(j, order, r).0;
            && HealsAll(j, r, run)
            && (forall k: nat :: k !in order ==> LastOf(run.m.trace, |r.m.trace|, Some(k)) == None)
    decreases |order|
  {
    hide Visit;
    if order != [] {
      hide Healed;
      var i := order[0];
      VisitHealth(j, i, r);
      var next := Visit(j, i, r).run;
      if Visit(j, i, r).Next? {
        WalkHealth(j, order[1..], next);
        assert i !in order[1..];
        forall k: nat {
          HealsThrough(j, i, r, next, Walk(j, order[1..], next).0, k);
        }
      } else {
        forall k: nat | k < |r.health|
          ensures Healed(j, r.health[k], LastOf(next.m.trace, |r.m.trace|, Some(k)), r.m.now, next.m.now, next.health[k])
        {
          Untouched(j, r.health[k], r.m.now, next.m.now);
        }
      }
    }
  }
}
