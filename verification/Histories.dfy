/** What became of every route in a request: the calls it got and how they followed one another, or
    the reason it got none. All of it is told from the calls made and the lines left about them. */
module Histories {
  import opened Basics
  import opened Reports
  import opened Breakers
  import opened Retries
  import opened Surroundings
  import opened Routers
  import opened Journeys
  import opened Safety
  import opened Requests

  // ----- what is told of a route

  /** How much longer a route is closed at some reading of the clock in between. */
  ghost predicate ClosedDuring(h: HealthState, left: Duration, begin: nat, end: nat) {
    exists at: nat :: begin <= at <= end && LeftAt(h, left, at)
  }

  ghost predicate LeftAt(h: HealthState, left: Duration, at: nat) {
    h.closedUntil > Millis(at) && left == (h.closedUntil - Millis(at)) * NANOS_PER_MILLI
  }

  /** Why a route is passed over: the first of these that is so, and a closed circuit or a budget only for
      a route that knows the model and can do what is needed. */
  ghost predicate PassedFor(j: Job, h: HealthState, i: nat, why: Why, begin: nat, end: nat)
    requires i < |j.setup.routes|
  {
    var route := j.setup.routes[i];
    if route.capabilities.None? then why == UnknownModel
    else if !j.needs.MetBy(route.capabilities.value) then why == Cannot(j.needs.UnmetBy(route.capabilities.value))
    else if why.Resting? then why.denied == h.denied && why.failures == h.failures && ClosedDuring(h, why.left, begin, end)
    else
      && why.NoMoney? && h.closedUntil <= Millis(end)
      && Unaffordable(j.setup.budget, j.spent, route, j.request) == Some(why.broke)
  }

  ghost predicate Repeats(j: Job, e: Event) {
    e.Called? && Unsettled(e) && j.setup.retry.Some? && j.setup.retry.value.Repeats(e.attempt, e.outcome.error)
  }

  ghost predicate MayWait(j: Job, e: Event, wait: Duration)
    requires Repeats(j, e)
  {
    j.setup.retry.value.MayWait(e.attempt, e.outcome.error, wait)
  }

  /** The line about a failed call: the error, and the wait that was asked for when there was one. */
  ghost predicate LineFor(j: Job, i: nat, e: Event, line: Attempted)
    requires e.Called? && Unsettled(e) && i < |j.setup.routes|
  {
    && line.route == j.setup.routes[i].Name()
    && if Repeats(j, e) then
         && line.why.TryingAgain?
         && line.why == TryingAgain(e.outcome.error, e.attempt, j.setup.Allowed(), line.why.wait)
         && MayWait(j, e, line.why.wait)
       else line.why == Failing(e.outcome.error)
  }

  ghost predicate LinesFor(j: Job, i: nat, failed: seq<Event>, lines: seq<Attempted>)
    requires i < |j.setup.routes|
  {
    && |lines| == |failed|
    && (forall k :: 0 <= k < |failed| ==> failed[k].Called? && Unsettled(failed[k]) && LineFor(j, i, failed[k], lines[k]))
  }

  /** One route's lines: one for every failed call when it was called, and otherwise the one that says why not. */
  ghost predicate Tells(j: Job, h: HealthState, i: nat, lines: seq<Attempted>, events: seq<Event>, begin: nat, end: nat)
    requires i < |j.setup.routes|
  {
    if Asked(events, i) then LinesFor(j, i, FailedCalls(events, i), lines)
    else
      && |lines| == 1 && lines[0].route == j.setup.routes[i].Name()
      && PassedFor(j, h, i, lines[0].why, begin, end)
  }

  /** How many lines a route has. */
  ghost function Share(events: seq<Event>, i: nat): nat {
    if Asked(events, i) then |FailedCalls(events, i)| else 1
  }

  /** The lines of a request are those of the routes it got to, one route after another. */
  ghost predicate TellsAll(
    j: Job, health: seq<HealthState>, order: seq<nat>, lines: seq<Attempted>, events: seq<Event>, begin: nat, end: nat)
    requires |health| == |j.setup.routes| && Indices(order, |health|)
    decreases |order|
  {
    if order == [] then lines == []
    else
      var share := Share(events, order[0]);
      && share <= |lines|
      && Tells(j, health[order[0]], order[0], lines[..share], events, begin, end)
      && TellsAll(j, health, order[1..], lines[share..], events, begin, end)
  }

  // ----- how calls follow one another

  ghost predicate Goes(e: Event, i: nat, attempt: nat) {
    e.Called? && e.route == i && e.attempt == attempt
  }

  /** What comes after a failed call: when it is worth another, a wait the policy allows and the same
      route again, unless the request gave up there; and otherwise a first attempt. */
  ghost predicate PacedAt(j: Job, events: seq<Event>, k: nat, gaveUp: bool)
    requires k < |events|
  {
    var e := events[k];
    e.Called? && Unsettled(e) ==>
      if Repeats(j, e) then
        || (gaveUp && k == |events| - 1)
        || (&& k < |events| - 2
            && events[k + 1].Slept? && MayWait(j, e, events[k + 1].asked)
            && Goes(events[k + 2], e.route, e.attempt + 1))
      else k < |events| - 1 ==> events[k + 1].Called? && events[k + 1].attempt == 1
  }

  ghost predicate Paced(j: Job, events: seq<Event>, gaveUp: bool) {
    forall k: nat :: k < |events| ==> PacedAt(j, events, k, gaveUp)
  }

  ghost predicate Begins(events: seq<Event>, attempt: nat) {
    events != [] ==> events[0].Called? && events[0].attempt == attempt
  }

  // ----- one attempt

  /** The line about a failed attempt, and the wait asked for. */
  lemma OnceLine(j: Job, i: nat, attempt: nat, r: Run) returns (waiting: Option<Duration>)
    requires Ready(j, r) && i < |r.health| && 1 <= attempt <= j.setup.Allowed()
    requires j.world.Outcome(r.m, i).Err? && !j.world.Outcome(r.m, i).error.Refused?
    ensures var error := j.world.Outcome(r.m, i).error;
            && (waiting.Some? <==> j.setup.retry.Some? && j.setup.retry.value.Repeats(attempt, error))
            && (waiting.Some? ==> j.setup.retry.value.MayWait(attempt, error, waiting.value))
    ensures var t, error := Once(j, i, attempt, r), j.world.Outcome(r.m, i).error;
            && RunOf(t).fellThrough == r.fellThrough +
               [Attempted(j.setup.routes[i].Name(),
                  if waiting.None? then Failing(error) else TryingAgain(error, attempt, j.setup.Allowed(), waiting.value))]
            && (waiting.None? ==> t.Settles? && t.step.Next?)
            && (waiting.Some? && t.Settles? ==> t.step.Done? && t.step.verdict.GaveUp?)
            && (t.Again? ==> RunOf(t).m.trace[|RunOf(t).m.trace| - 1..] == [Slept(waiting.value)])
  {
    hide CountFailure, GiveUp, NoRoomFor, Retry.WaitBefore, Retry.Repeats, Retry.MayWait;
    var error := j.world.Outcome(r.m, i).error;
    var asked := r.(m := j.world.Call(r.m, i, attempt, j.request.(model := j.setup.routes[i].model)), attempts := r.attempts + 1);
    waiting := Waiting(j, asked, attempt, error);
    if j.setup.retry.Some? {
      j.setup.retry.value.WaitsExactlyWhen(attempt, error, j.world.jitter(asked.m.calls));
    }
  }

  lemma OnceTells(j: Job, i: nat, attempt: nat, r: Run) returns (called: Event, told: seq<Attempted>, wait: Option<Duration>)
    requires Ready(j, r) && i < |r.health| && 1 <= attempt <= j.setup.Allowed()
    ensures Goes(called, i, attempt)
    ensures var t := Once(j, i, attempt, r);
            && Extends(r, RunOf(t), called, told, wait)
            && (t.Again? <==> wait.Some?)
            && (wait.Some? ==> Unsettled(called) && Repeats(j, called) && MayWait(j, called, wait.value))
            && (Repeats(j, called) && t.Settles? ==> t.step.Done? && t.step.verdict.GaveUp?)
            && (t.Settles? && t.step.Next? ==> Unsettled(called))
            && LinesFor(j, i, if Unsettled(called) then [called] else [], told)
  {
    hide Once, Retry.Repeats, Retry.MayWait;
    called, told, wait := OnceShape(j, i, attempt, r);
    if Unsettled(called) {
      var waiting := OnceLine(j, i, attempt, r);
      var after := RunOf(Once(j, i, attempt, r));
      assert after.fellThrough[|r.fellThrough|..] == told;
    }
  }

  // ----- one route

  ghost predicate GaveUpIn(s: Step) {
    s.Done? && s.verdict.GaveUp?
  }

  /** What a step adds to a request. */
  ghost predicate Adds(before: Run, after: Run, events: seq<Event>, lines: seq<Attempted>) {
    after.m.trace == before.m.trace + events && after.fellThrough == before.fellThrough + lines
  }

  ghost predicate OnlyTo(events: seq<Event>, i: nat) {
    forall e <- events :: e.Called? ==> e.route == i
  }

  /** What the attempts at one route add, from some attempt on. */
  ghost predicate Attempts(j: Job, i: nat, attempt: nat, events: seq<Event>, lines: seq<Attempted>, gaveUp: bool)
    requires i < |j.setup.routes|
  {
    && events != [] && Begins(events, attempt) && OnlyTo(events, i)
    && LinesFor(j, i, FailedCalls(events, i), lines)
    && Paced(j, events, gaveUp)
  }

  lemma OneFailedCall(called: Event, i: nat, attempt: nat, wait: Option<Duration>)
    requires Goes(called, i, attempt)
    ensures FailedCalls([called] + if wait.Some? then [Slept(wait.value)] else [], i) ==
            if Unsettled(called) then [called] else []
  {
    FailedCallsAppend([called], if wait.Some? then [Slept(wait.value)] else [], i);
    assert [called][..0] == [] && FailedCalls([], i) == [];
    if wait.Some? {
      assert [Slept(wait.value)][..0] == [];
    }
  }

  /** An attempt that is the last. */
  lemma LastAttempt(j: Job, i: nat, attempt: nat, called: Event, told: seq<Attempted>, gaveUp: bool)
    requires i < |j.setup.routes| && Goes(called, i, attempt)
    requires LinesFor(j, i, if Unsettled(called) then [called] else [], told)
    requires Repeats(j, called) ==> gaveUp
    ensures Attempts(j, i, attempt, [called], told, gaveUp)
  {
    hide LinesFor;
    OneFailedCall(called, i, attempt, None);
    assert [called] + [] == [called];
  }

  /** A failed attempt, a wait, and the rest of the attempts. */
  lemma OneMoreAttempt(j: Job, i: nat, attempt: nat, called: Event, told: seq<Attempted>, wait: Duration,
                       events: seq<Event>, lines: seq<Attempted>, gaveUp: bool)
    requires i < |j.setup.routes| && Goes(called, i, attempt) && Repeats(j, called) && MayWait(j, called, wait)
    requires LinesFor(j, i, [called], told) && Attempts(j, i, attempt + 1, events, lines, gaveUp)
    ensures Attempts(j, i, attempt, [called, Slept(wait)] + events, told + lines, gaveUp)
  {
    hide Repeats, MayWait, LineFor, Paced, FailedCalls;
    var first := [called, Slept(wait)];
    assert events[0] in events;
    OneFailedCall(called, i, attempt, Some(wait));
    assert [called] + [Slept(wait)] == first;
    FailedCallsAppend(first, events, i);
    OneMorePaced(j, i, attempt, called, wait, events, gaveUp);
  }

  lemma OneMorePaced(j: Job, i: nat, attempt: nat, called: Event, wait: Duration, events: seq<Event>, gaveUp: bool)
    requires Goes(called, i, attempt) && Repeats(j, called) && MayWait(j, called, wait)
    requires events != [] && Goes(events[0], i, attempt + 1) && Paced(j, events, gaveUp)
    ensures Paced(j, [called, Slept(wait)] + events, gaveUp)
  {
    hide Repeats, MayWait;
    var all := [called, Slept(wait)] + events;
    forall k: nat | k < |all|
      ensures PacedAt(j, all, k, gaveUp)
    {
      if k >= 2 {
        PacedLater(j, [called, Slept(wait)], events, k - 2, gaveUp);
      }
    }
  }

  lemma PacedLater(j: Job, front: seq<Event>, events: seq<Event>, k: nat, gaveUp: bool)
    requires k < |events| && PacedAt(j, events, k, gaveUp)
    ensures PacedAt(j, front + events, |front| + k, gaveUp)
  {
    hide Repeats, MayWait;
  }

  lemma {:induction false} TriesTells(j: Job, i: nat, attempt: nat, r: Run)
    returns (events: seq<Event>, lines: seq<Attempted>)
    requires Ready(j, r) && i < |r.health| && 1 <= attempt <= j.setup.Allowed()
    ensures var s := Tries(j, i, attempt, r);
            Adds(r, s.run, events, lines) && Attempts(j, i, attempt, events, lines, GaveUpIn(s))
    decreases j.setup.Allowed() - attempt
  {
    hide Once, Repeats, MayWait, Attempts, LinesFor;
    var called, told, wait := OnceTells(j, i, attempt, r);
    match Once(j, i, attempt, r) {
      case Settles(step) =>
        events, lines := [called], told;
        LastAttempt(j, i, attempt, called, told, GaveUpIn(step));
      case Again(next) =>
        var more, told' := TriesTells(j, i, attempt + 1, next);
        events, lines := [called, Slept(wait.value)] + more, told + told';
        OneMoreAttempt(j, i, attempt, called, told, wait.value, more, told', GaveUpIn(Tries(j, i, attempt + 1, next)));
        assert [called] + [Slept(wait.value)] == [called, Slept(wait.value)];
    }
  }

  lemma CheckTells(j: Job, i: nat, r: Run)
    requires Ready(j, r) && i < |r.health|
    ensures var (why, m) := Check(j, i, r);
            why.Some? ==> PassedFor(j, r.health[i], i, why.value, r.m.now, m.now)
  {
    hide Unaffordable, Requirements.MetBy, Requirements.UnmetBy, Millis;
    var (why, m) := Check(j, i, r);
    if why.Some? && why.value.Resting? {
      assert LeftAt(r.health[i], why.value.left, m.now);
    }
  }

  /** What one route's part of a request adds. */
  ghost predicate Visits(j: Job, h: HealthState, i: nat, events: seq<Event>, lines: seq<Attempted>, begin: nat, s: Step)
    requires i < |j.setup.routes|
  {
    && OnlyTo(events, i) && Begins(events, 1) && Paced(j, events, GaveUpIn(s))
    && (events != [] ==> Asked(events, i))
    && begin <= s.run.m.now
    && if events == [] && s.Done? then GaveUpIn(s) && lines == []
       else Tells(j, h, i, lines, events, begin, s.run.m.now)
  }

  lemma VisitTells(j: Job, i: nat, r: Run) returns (events: seq<Event>, lines: seq<Attempted>)
    requires Ready(j, r) && i < |r.health|
    ensures var s := Visit(j, i, r);
            Adds(r, s.run, events, lines) && Visits(j, r.health[i], i, events, lines, r.m.now, s)
  {
    hide Tries, GiveUp, Check, PassedFor, LinesFor;
    CheckTells(j, i, r);
    CheckShape(j, i, r);
    var (why, m) := Check(j, i, r);
    events, lines := [], [];
    match why {
      case Some(why) => lines := [Attempted(j.setup.routes[i].Name(), why)];
      case None =>
        var (late, m') := NoRoomFor(j, m, 0);
        if !late {
          events, lines := TriesTells(j, i, 1, r.(m := m'));
          TriesAsksOnly(j, i, 1, r.(m := m'));
          assert events[0] in events;
        }
    }
  }

  // ----- a whole walk

  /** A line about a route says as much of it later on, when only others have been called in between. */
  lemma {:induction false} TellsLater(
    j: Job, health: seq<HealthState>, order: seq<nat>, lines: seq<Attempted>, front: seq<Event>, events: seq<Event>,
    earlier: nat, begin: nat, end: nat)
    requires |health| == |j.setup.routes| && Indices(order, |health|)
    requires earlier <= begin && TellsAll(j, health, order, lines, events, begin, end)
    requires forall i <- order :: !Asked(front, i)
    ensures TellsAll(j, health, order, lines, front + events, earlier, end)
    decreases |order|
  {
    hide LinesFor, FailedCalls;
    if order != [] {
      var i := order[0];
      assert i in order;
      AskedThen(front, events, i);
      FailedCallsAppend(front, events, i);
      NotAskedNotFailed(front, i);
      var share := Share(events, i);
      assert FailedCalls(front + events, i) == FailedCalls(events, i);
      TellsEarlier(j, health[i], i, lines[..share], events, begin, earlier, end, front + events);
      TellsLater(j, health, order[1..], lines[share..], front, events, earlier, begin, end);
    }
  }

  lemma TellsEarlier(j: Job, h: HealthState, i: nat, lines: seq<Attempted>, events: seq<Event>,
                     begin: nat, earlier: nat, end: nat, more: seq<Event>)
    requires i < |j.setup.routes| && earlier <= begin && Tells(j, h, i, lines, events, begin, end)
    requires (Asked(more, i) <==> Asked(events, i)) && FailedCalls(more, i) == FailedCalls(events, i)
    ensures Tells(j, h, i, lines, more, earlier, end)
  {
    hide LinesFor, FailedCalls, Asked, LeftAt;
    if !Asked(events, i) {
      PassedEarlier(j, h, i, lines[0].why, earlier, begin, end, end);
    }
  }

  lemma PassedEarlier(j: Job, h: HealthState, i: nat, why: Why, earlier: nat, begin: nat, end: nat, later: nat)
    requires i < |j.setup.routes| && earlier <= begin && end <= later && PassedFor(j, h, i, why, begin, end)
    ensures PassedFor(j, h, i, why, earlier, later)
  {
    hide Unaffordable, Requirements.MetBy, Requirements.UnmetBy, Millis, LeftAt;
    MillisGrow(end, later);
    if why.Resting? && ClosedDuring(h, why.left, begin, end) {
      var at: nat :| begin <= at <= end && LeftAt(h, why.left, at);
      assert earlier <= at <= later;
    }
  }

  /** A route's lines, when only others are called after it. */
  lemma TellsBefore(j: Job, h: HealthState, i: nat, lines: seq<Attempted>, events: seq<Event>, back: seq<Event>,
                    begin: nat, end: nat, later: nat)
    requires i < |j.setup.routes| && end <= later && Tells(j, h, i, lines, events, begin, end) && !Asked(back, i)
    ensures Tells(j, h, i, lines, events + back, begin, later)
  {
    hide LinesFor, FailedCalls, PassedFor;
    AskedThen(events, back, i);
    FailedCallsAppend(events, back, i);
    NotAskedNotFailed(back, i);
    assert FailedCalls(events + back, i) == FailedCalls(events, i);
    if !Asked(events, i) {
      PassedEarlier(j, h, i, lines[0].why, begin, begin, end, later);
    }
  }

  lemma PacedThen(j: Job, a: seq<Event>, b: seq<Event>, gaveUp: bool)
    requires Paced(j, a, false) && Paced(j, b, gaveUp) && Begins(b, 1)
    ensures Paced(j, a + b, gaveUp)
  {
    hide Repeats, MayWait;
    forall k: nat | k < |a + b|
      ensures PacedAt(j, a + b, k, gaveUp)
    {
      if k < |a| {
        assert PacedAt(j, a, k, false);
      } else {
        PacedLater(j, a, b, k - |a|, gaveUp);
      }
    }
  }

  /** Whether a request ran out of routes. */
  ghost predicate RanOutOfRoutes(verdict: Verdict) {
    verdict.Failed? && !verdict.error.Refused?
  }

  ghost predicate OnlyIn(events: seq<Event>, order: seq<nat>) {
    forall e <- events :: e.Called? ==> e.route in order
  }

  lemma NotAskedOutside(events: seq<Event>, order: seq<nat>, i: nat)
    requires OnlyIn(events, order) && i !in order
    ensures !Asked(events, i)
  {
  }

  /** The lines of one more route in front. */
  lemma TellsOneMore(j: Job, health: seq<HealthState>, i: nat, order: seq<nat>, first: seq<Attempted>, lines: seq<Attempted>,
                     events: seq<Event>, begin: nat, end: nat)
    requires |health| == |j.setup.routes| && i < |health| && Indices(order, |health|)
    requires Tells(j, health[i], i, first, events, begin, end)
    requires TellsAll(j, health, order, lines, events, begin, end)
    ensures Indices([i] + order, |health|)
    ensures TellsAll(j, health, [i] + order, first + lines, events, begin, end)
  {
    hide PassedFor, Asked, FailedCalls;
    var all := [i] + order;
    assert all[0] == i && all[1..] == order;
    assert Share(events, i) == |first|;
    assert (first + lines)[..|first|] == first && (first + lines)[|first|..] == lines;
  }

  /** What a walk adds, told of the first `n` routes of its order. */
  ghost predicate Walks(
    j: Job, health: seq<HealthState>, order: seq<nat>, n: nat, events: seq<Event>, lines: seq<Attempted>,
    begin: nat, end: nat, verdict: Verdict)
    requires |health| == |j.setup.routes| && Indices(order, |health|) && n <= |order|
  {
    && TellsAll(j, health, order[..n], lines, events, begin, end)
    && OnlyIn(events, order[..n]) && Begins(events, 1) && Paced(j, events, verdict.GaveUp?)
    && (RanOutOfRoutes(verdict) ==> n == |order|)
  }

  lemma {:induction false} WalkTells(j: Job, order: seq<nat>, r: Run, health: seq<HealthState>)
    returns (n: nat, events: seq<Event>, lines: seq<Attempted>)
    requires Ready(j, r) && Indices(order, |r.health|) && Distinct(order) && NotRefused(r)
    requires |health| == |r.health| && forall i <- order :: i < |health| && r.health[i] == health[i]
    ensures var (run, verdict) := Walk(j, order, r);
            && n <= |order| && Adds(r, run, events, lines) && r.m.now <= run.m.now
            && Walks(j, health, order, n, events, lines, r.m.now, run.m.now, verdict)
    decreases |order|
  {
    hide Visit, Visits, Walks, Adds;
    n, events, lines := 0, [], [];
    if order == [] {
      NothingWalked(j, health, r, Walk(j, order, r).1);
    } else {
      var i := order[0];
      var a, first := VisitTells(j, i, r);
      VisitKeeps(j, i, r);
      match Visit(j, i, r) {
        case Done(run, verdict) =>
          n, events, lines := if a != [] then 1 else 0, a, first;
          WalkEnds(j, health, order, i, a, first, r, Visit(j, i, r));
        case Next(next) =>
          var m, b, more := WalkTells(j, order[1..], next, health);
          n, events, lines := m + 1, a + b, first + more;
          AddsThen(r, next, Walk(j, order, r).0, a, b, first, more);
          WalkOneMore(j, health, order, i, m, a, b, first, more, r, Visit(j, i, r), Walk(j, order, r));
      }
    }
  }

  /** What a visit does not touch. */
  lemma VisitKeeps(j: Job, i: nat, r: Run)
    requires Ready(j, r) && i < |r.health| && NotRefused(r)
    ensures var s := Visit(j, i, r);
            && |s.run.health| == |r.health| && r.m.now <= s.run.m.now
            && (forall k: nat :: k < |r.health| && k != i ==> s.run.health[k] == r.health[k])
            && (s.Next? ==> NotRefused(s.run))
            && (s.Done? && s.verdict.Failed? ==> s.verdict.error.Refused?)
  {
    hide Visit, Healed, Accounts;
    VisitHealth(j, i, r);
    VisitAccounts(j, i, r);
  }

  lemma AddsThen(r: Run, next: Run, run: Run, a: seq<Event>, b: seq<Event>, first: seq<Attempted>, more: seq<Attempted>)
    requires Adds(r, next, a, first) && Adds(next, run, b, more)
    ensures Adds(r, run, a + b, first + more)
  {
  }

  lemma NothingWalked(j: Job, health: seq<HealthState>, r: Run, verdict: Verdict)
    requires |health| == |j.setup.routes|
    ensures Adds(r, r, [], []) && Walks(j, health, [], 0, [], [], r.m.now, r.m.now, verdict)
  {
  }

  /** A walk that ends with its first route. */
  lemma WalkEnds(j: Job, health: seq<HealthState>, order: seq<nat>, i: nat, a: seq<Event>, first: seq<Attempted>, r: Run, s: Step)
    requires |health| == |j.setup.routes| && Indices(order, |health|) && order != [] && i == order[0]
    requires s.Done? && Visits(j, health[i], i, a, first, r.m.now, s) && !RanOutOfRoutes(s.verdict)
    ensures Walks(j, health, order, if a != [] then 1 else 0, a, first, r.m.now, s.run.m.now, s.verdict)
  {
    hide Tells, Paced;
    if a != [] {
      TellsOneMore(j, health, i, [], first, [], a, r.m.now, s.run.m.now);
      assert [i] + [] == order[..1] && first + [] == first;
    }
  }

  /** One route's part, and then the rest of a walk. */
  lemma WalkOneMore(
    j: Job, health: seq<HealthState>, order: seq<nat>, i: nat, m: nat, a: seq<Event>, b: seq<Event>,
    first: seq<Attempted>, more: seq<Attempted>, r: Run, s: Step, walked: (Run, Verdict))
    requires |health| == |j.setup.routes| && Indices(order, |health|) && Distinct(order)
    requires order != [] && i == order[0] && m <= |order| - 1 && s.run.m.now <= walked.0.m.now
    requires s.Next? && Visits(j, health[i], i, a, first, r.m.now, s)
    requires Walks(j, health, order[1..], m, b, more, s.run.m.now, walked.0.m.now, walked.1)
    ensures Walks(j, health, order, m + 1, a + b, first + more, r.m.now, walked.0.m.now, walked.1)
  {
    hide Paced, Tells, TellsAll;
    var begin, mid, end, verdict := r.m.now, s.run.m.now, walked.0.m.now, walked.1;
    var rest := order[1..][..m];
    assert [i] + rest == order[..m + 1];
    assert i !in rest;
    assert OnlyIn(a, [i]);
    NotAskedOutside(b, rest, i);
    forall k <- rest ensures !Asked(a, k) {
      NotAskedOutside(a, [i], k);
    }
    PacedThen(j, a, b, verdict.GaveUp?);
    TellsBefore(j, health[i], i, first, a, b, begin, mid, end);
    TellsLater(j, health, rest, more, a, b, begin, mid, end);
    TellsOneMore(j, health, i, rest, first, more, a + b, begin, end);
  }

  // ----- whose answer it is

  /** An answer is that of the last call, and of the route it went to. */
  ghost predicate AnsweredLast(trace: seq<Event>, verdict: Verdict) {
    verdict.Answered? ==>
      && trace != []
      && var e := trace[|trace| - 1];
      && e.Called? && e.route == verdict.route && e.outcome == Ok(verdict.response)
  }

  lemma {:induction false} TriesAnswer(j: Job, i: nat, attempt: nat, r: Run)
    requires Ready(j, r) && i < |r.health| && 1 <= attempt <= j.setup.Allowed()
    ensures var s := Tries(j, i, attempt, r);
            s.Done? ==> AnsweredLast(s.run.m.trace, s.verdict)
    decreases j.setup.Allowed() - attempt
  {
    hide Once;
    var called, told, wait := OnceShape(j, i, attempt, r);
    match Once(j, i, attempt, r) {
      case Settles(_) =>
      case Again(next) => TriesAnswer(j, i, attempt + 1, next);
    }
  }

  lemma VisitAnswers(j: Job, i: nat, r: Run)
    requires Ready(j, r) && i < |r.health|
    ensures var s := Visit(j, i, r);
            s.Done? ==> AnsweredLast(s.run.m.trace, s.verdict)
  {
    hide Tries, GiveUp, Check, NoRoomFor;
    CheckShape(j, i, r);
    var (why, m) := Check(j, i, r);
    var (late, m') := NoRoomFor(j, m, 0);
    if why.None? && !late {
      TriesAnswer(j, i, 1, r.(m := m'));
    }
  }

  lemma {:induction false} WalkAnswers(j: Job, order: seq<nat>, r: Run)
    requires Ready(j, r) && Indices(order, |r.health|)
    ensures var (run, verdict) := Walk(j, order, r);
            AnsweredLast(run.m.trace, verdict)
    decreases |order|
  {
    hide Visit;
    if order != [] {
      VisitAnswers(j, order[0], r);
      match Visit(j, order[0], r) {
        case Done(_, _) =>
        case Next(next) => WalkAnswers(j, order[1..], next);
      }
    }
  }

  // ----- every request

  /** What a request calls. */
  ghost function EventsOf(j: Job, m: Moment, health: seq<HealthState>): seq<Event>
    requires Ready(j, Start(m, health))
  {
    var trace := Journey(j, m, health).0.m.trace;
    if m.trace <= trace then trace[|m.trace|..] else []
  }

  /** The whole of what a request calls and tells. The routes it got to are the first `n` of its reaching order,
      and all of them when it ran out of routes. Each was either called, and every call of it that failed has a
      line with its error, in turn; or it has the one line that says why it was passed over. There is
      no other call and no other line. A call that failed in a way worth another is followed by a wait
      the policy allows and the next attempt at that route, unless the request gave up there; one that
      failed in any other way by a first attempt, if by anything. An answer is that of the last call. */
  lemma RequestTellsAll(j: Job, m: Moment, health: seq<HealthState>) returns (n: nat)
    requires Ready(j, Start(m, health))
    ensures var (run, verdict) := Journey(j, m, health);
            var order, events := ReachingOrder(j.setup, health), EventsOf(j, m, health);
            && n <= |order| && run.m.trace == m.trace + events
            && Walks(j, health, order, n, events, run.fellThrough, m.now, run.m.now, verdict)
            && AnsweredLast(run.m.trace, verdict)
  {
    hide Walk, Walks, ReachingOrder, AnsweredLast;
    var order := ReachingOrder(j.setup, health);
    ReachingOrderSorts(j.setup, health);
    WalkAnswers(j, order, Start(m, health));
    var events, lines;
    n, events, lines := WalkTells(j, order, Start(m, health), health);
    var run := Journey(j, m, health).0;
    assert run.m.trace[|m.trace|..] == events;
    assert [] + lines == lines;
  }

  /** What a caller is given. An answer is the reply of the last call, with the name of the route it went to, the
      number of calls made and all the lines; and a request that gave up says so with the time it took. */
  lemma AnswerIsTheLastCalls(j: Job, m: Moment, health: seq<HealthState>)
    requires Ready(j, Start(m, health))
    ensures var (run, verdict) := Journey(j, m, health);
            && (verdict.Answered? ==> verdict.route < |j.setup.routes|)
            && match AnswerTo(j.setup.routes, run.fellThrough, run.attempts, verdict)
               case Ok(routed) =>
                 && run.m.trace != []
                 && var e := run.m.trace[|run.m.trace| - 1];
                 && e.Called? && e.outcome == Ok(routed.response) && e.route < |j.setup.routes|
                 && routed.route == j.setup.routes[e.route].provider + "/" + j.setup.routes[e.route].model
                 && routed.attempts == Calls(run.m.trace) - Calls(m.trace)
                 && routed.fellThrough == run.fellThrough
               case Err(error) => verdict == if verdict.GaveUp? then GaveUp(error.elapsed) else Failed(error)
  {
    hide Walk, ReachingOrder;
    ReachingOrderSorts(j.setup, health);
    AnswersAreAffordable(j, ReachingOrder(j.setup, health), Start(m, health));
    WalkAnswers(j, ReachingOrder(j.setup, health), Start(m, health));
    RequestIsAccountedFor(j, m, health);
  }

  /** Whether some line gives a good reason for passing a route over. */
  ghost predicate PassedOver(j: Job, h: HealthState, i: nat, lines: seq<Attempted>, begin: nat, end: nat)
    requires i < |j.setup.routes|
  {
    exists line <- lines :: line.route == j.setup.routes[i].Name() && PassedFor(j, h, i, line.why, begin, end)
  }

  lemma {:induction false} ToldOf(
    j: Job, health: seq<HealthState>, order: seq<nat>, lines: seq<Attempted>, events: seq<Event>, begin: nat, end: nat, i: nat)
    requires |health| == |j.setup.routes| && Indices(order, |health|) && i in order
    requires TellsAll(j, health, order, lines, events, begin, end)
    ensures i < |health| && (Asked(events, i) || PassedOver(j, health[i], i, lines, begin, end))
    decreases |order|
  {
    hide PassedFor, LinesFor, Asked;
    var share := Share(events, order[0]);
    if i == order[0] {
      assert !Asked(events, i) ==> lines[0] == lines[..share][0];
    } else {
      ToldOf(j, health, order[1..], lines[share..], events, begin, end, i);
    }
  }

  /** A request that neither is answered nor refused and does not give up has called every route there is,
      short of those it has a line about: that do not know the model, cannot do what is needed, were
      closed when it got to them, or are past the budget. */
  lemma EveryRouteIsCalledOrPassedOver(j: Job, m: Moment, health: seq<HealthState>, i: nat)
    requires Ready(j, Start(m, health)) && i < |health|
    ensures var (run, verdict) := Journey(j, m, health);
            verdict.Failed? && !verdict.error.Refused? ==>
              || Asked(EventsOf(j, m, health), i)
              || PassedOver(j, health[i], i, run.fellThrough, m.now, run.m.now)
  {
    hide Journey, ReachingOrder, EventsOf, PassedOver, Paced, OnlyIn, Begins, Asked;
    var n := RequestTellsAll(j, m, health);
    ReachingOrderSorts(j.setup, health);
    var run, order := Journey(j, m, health).0, ReachingOrder(j.setup, health);
    if n == |order| {
      assert order[..n] == order;
      ToldOf(j, health, order, run.fellThrough, EventsOf(j, m, health), m.now, run.m.now, i);
    }
  }

  /** However a request ends, every route that sorts before one it called was called too, or passed over
      for such a reason. */
  lemma EarlierRoutesAreCalledOrPassedOver(j: Job, m: Moment, health: seq<HealthState>, i: nat, k: nat)
    requires Ready(j, Start(m, health)) && i < |health| && k < |health| && Precedes(j.setup, health, i, k)
    ensures var run := Journey(j, m, health).0;
            Asked(EventsOf(j, m, health), k) ==>
              || Asked(EventsOf(j, m, health), i)
              || PassedOver(j, health[i], i, run.fellThrough, m.now, run.m.now)
  {
    hide Journey, ReachingOrder, EventsOf, PassedOver, Paced, Begins;
    var events := EventsOf(j, m, health);
    if Asked(events, k) {
      var n := RequestTellsAll(j, m, health);
      ReachingOrderSorts(j.setup, health);
      var run, order := Journey(j, m, health).0, ReachingOrder(j.setup, health);
      var e: nat :| e < |events| && events[e].Called? && events[e].route == k;
      assert events[e] in events;
      SortedFrom(j.setup, health, order, n, i, k);
      ToldOf(j, health, order[..n], run.fellThrough, events, m.now, run.m.now, i);
    }
  }

  /** A front part of a sorted order has everything that precedes something in it. */
  lemma SortedFrom(setup: Setup, health: seq<HealthState>, order: seq<nat>, n: nat, i: nat, k: nat)
    requires |setup.routes| == |health| && Indices(order, |health|) && Sorted(setup, health, order)
    requires i < |health| && k < |health| && Precedes(setup, health, i, k)
    requires n <= |order| && i in order && k in order[..n]
    ensures i in order[..n]
  {
    hide KeyOf;
    var p :| 0 <= p < |order| && order[p] == i;
    var q :| 0 <= q < n && order[q] == k;
    assert q < p ==> Precedes(setup, health, k, i);
    assert p < n && order[..n][p] == i;
  }

  /** A route that knows the model, can do what is needed, fits the budget and is open when a request starts
      is called by it before it runs out of routes. */
  lemma FitRoutesAreCalled(j: Job, m: Moment, health: seq<HealthState>, i: nat)
    requires Ready(j, Start(m, health)) && i < |health| && Fit(j, health[i], i, m.now)
    ensures var verdict := Journey(j, m, health).1;
            verdict.Failed? && !verdict.error.Refused? ==> Asked(EventsOf(j, m, health), i)
  {
    hide Journey, EventsOf, Asked;
    EveryRouteIsCalledOrPassedOver(j, m, health, i);
    var run := Journey(j, m, health).0;
    FitIsNotPassedOver(j, health[i], i, run.fellThrough, m.now, run.m.now);
  }

  ghost predicate Fit(j: Job, h: HealthState, i: nat, now: nat)
    requires i < |j.setup.routes|
  {
    var route := j.setup.routes[i];
    && route.capabilities.Some? && j.needs.MetBy(route.capabilities.value)
    && Unaffordable(j.setup.budget, j.spent, route, j.request).None?
    && h.closedUntil <= Millis(now)
  }

  lemma FitIsNotPassedOver(j: Job, h: HealthState, i: nat, lines: seq<Attempted>, begin: nat, end: nat)
    requires i < |j.setup.routes| && Fit(j, h, i, begin)
    ensures !PassedOver(j, h, i, lines, begin, end)
  {
    hide Unaffordable, Requirements.MetBy, Requirements.UnmetBy, Millis;
    forall at: nat | begin <= at ensures h.closedUntil <= Millis(at) {
      MillisGrow(begin, at);
    }
  }
}
