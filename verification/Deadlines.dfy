/** When the calls of a request start, and when it is over. */
module Deadlines {
  import opened Basics
  import opened Reports
  import opened Replies
  import opened Breakers
  import opened Retries
  import opened Surroundings
  import opened Routers
  import opened Journeys
  import opened Safety

  /** The moment a request is to be over by. */
  function Due(j: Job): nat
    requires j.setup.deadline.Some?
  {
    j.started + j.setup.deadline.value
  }

  /** Every call since `from` started before the deadline. */
  ghost predicate StartsInTime(j: Job, trace: seq<Event>, from: nat)
    requires j.setup.deadline.Some?
  {
    forall k :: from <= k < |trace| && trace[k].Called? ==> trace[k].at < Due(j)
  }

  // ----- first attempts

  /** Every first attempt at a route since `from` started before the deadline. */
  ghost predicate FirstInTime(j: Job, trace: seq<Event>, from: nat)
    requires j.setup.deadline.Some?
  {
    forall k :: from <= k < |trace| && trace[k].Called? && trace[k].attempt == 1 ==>
      trace[k].at < Due(j)
  }

  lemma TriesFirstInTime(j: Job, i: nat, r: Run)
    requires Ready(j, r) && i < |r.health| && j.setup.Allowed() >= 1
    requires j.setup.deadline.Some? && r.m.now < Due(j)
    ensures FirstInTime(j, Tries(j, i, 1, r).run.m.trace, |r.m.trace|)
  {
    hide Once;
    var called, told, wait := OnceShape(j, i, 1, r);
    match Once(j, i, 1, r) {
      case Settles(_) =>
      case Again(next) =>
        TriesAsksOnly(j, i, 2, next);
        var trace := Tries(j, i, 2, next).run.m.trace;
        assert forall k :: |r.m.trace| <= k < |next.m.trace| ==> trace[k] == next.m.trace[k];
        assert forall k :: |next.m.trace| <= k < |trace| ==> Asks(j, i, 2, next.m.now, trace[k]);
    }
  }

  lemma VisitFirstInTime(j: Job, i: nat, r: Run)
    requires Ready(j, r) && i < |r.health| && j.setup.deadline.Some?
    ensures FirstInTime(j, Visit(j, i, r).run.m.trace, |r.m.trace|)
  {
    hide Tries, GiveUp, Check;
    CheckPasses(j, i, r);
    var (why, m) := Check(j, i, r);
    var (late, m') := NoRoomFor(j, m, 0);
    if why.None? && !late {
      TriesFirstInTime(j, i, r.(m := m'));
    }
  }

  /** In any world at all, the first attempt at every route starts before the deadline. */
  lemma {:induction false} WalkFirstInTime(j: Job, order: seq<nat>, r: Run)
    requires Ready(j, r) && Indices(order, |r.health|) && j.setup.deadline.Some?
    ensures var trace := Walk(j, order, r).0.m.trace;
            r.m.trace <= trace && FirstInTime(j, trace, |r.m.trace|)
    decreases |order|
  {
    hide Visit;
    if order != [] {
      VisitFirstInTime(j, order[0], r);
      VisitAsksOnly(j, order[0], r);
      var next := Visit(j, order[0], r).run;
      if Visit(j, order[0], r).Next? {
        WalkFirstInTime(j, order[1..], next);
        var trace := Walk(j, order[1..], next).0.m.trace;
        assert forall k :: 0 <= k < |next.m.trace| ==> trace[k] == next.m.trace[k];
      }
    }
  }

  /** So whatever the waits turn out to be, a call that starts late is a retry. */
  lemma OnlyRetriesStartLate(j: Job, m: Moment, health: seq<HealthState>)
    requires Ready(j, Start(m, health)) && j.setup.deadline.Some?
    ensures FirstInTime(j, Journey(j, m, health).0.m.trace, |m.trace|)
  {
    ReachingOrderSorts(j.setup, health);
    WalkFirstInTime(j, ReachingOrder(j.setup, health), Start(m, health));
  }

  // ----- worlds in which no wait overruns

  /** No wait lasts longer than it was asked to. Time may pass anywhere else. */
  ghost predicate WaitsEnd(w: World) {
    forall k, d :: w.slept(k, d) <= d
  }

  lemma RoomNow(j: Job, m: Moment, wait: Duration)
    requires j.started <= m.now && j.setup.deadline.Some?
    ensures var (late, m') := NoRoomFor(j, m, wait);
            m'.now == j.world.Read(m).now && (!late <==> m'.now + wait < Due(j))
  {
  }

  /** A retry starts when the wait before it ends, and that wait was only begun because it was to end
      in time. */
  lemma RetryStartsWhenItsWaitEnds(j: Job, i: nat, attempt: nat, r: Run) returns (checked: nat, wait: Duration)
    requires Ready(j, r) && i < |r.health| && 1 <= attempt <= j.setup.Allowed() && j.setup.deadline.Some?
    ensures Once(j, i, attempt, r).Again? ==>
              && r.m.now <= checked && checked + wait < Due(j)
              && Once(j, i, attempt, r).run.m.now == checked + j.world.slept(r.m.calls + 1, wait)
  {
    hide Waiting, NoRoomFor, CountFailure, GiveUp;
    checked, wait := 0, 0;
    if Once(j, i, attempt, r).Again? {
      var sending := j.request.(model := j.setup.routes[i].model);
      var asked := r.(m := j.world.Call(r.m, i, attempt, sending), attempts := r.attempts + 1);
      wait := Waiting(j, asked, attempt, j.world.Outcome(r.m, i).error).value;
      checked := NoRoomFor(j, asked.m, wait).1.now;
      RoomNow(j, asked.m, wait);
    }
  }

  lemma {:induction false} TriesInTime(j: Job, i: nat, attempt: nat, r: Run)
    requires Ready(j, r) && i < |r.health| && 1 <= attempt <= j.setup.Allowed()
    requires j.setup.deadline.Some? && WaitsEnd(j.world) && r.m.now < Due(j)
    ensures StartsInTime(j, Tries(j, i, attempt, r).run.m.trace, |r.m.trace|)
    decreases j.setup.Allowed() - attempt
  {
    hide Once;
    var checked, asked := RetryStartsWhenItsWaitEnds(j, i, attempt, r);
    var called, told, wait := OnceShape(j, i, attempt, r);
    match Once(j, i, attempt, r) {
      case Settles(_) =>
      case Again(next) =>
        TriesInTime(j, i, attempt + 1, next);
        TriesAsksOnly(j, i, attempt + 1, next);
        var trace := Tries(j, i, attempt + 1, next).run.m.trace;
        assert forall k :: 0 <= k < |next.m.trace| ==> trace[k] == next.m.trace[k];
    }
  }

  lemma VisitInTime(j: Job, i: nat, r: Run)
    requires Ready(j, r) && i < |r.health| && j.setup.deadline.Some? && WaitsEnd(j.world)
    ensures StartsInTime(j, Visit(j, i, r).run.m.trace, |r.m.trace|)
  {
    hide Tries, GiveUp, NoRoomFor, Check;
    CheckPasses(j, i, r);
    var (why, m) := Check(j, i, r);
    RoomNow(j, m, 0);
    var (late, m') := NoRoomFor(j, m, 0);
    if why.None? && !late {
      TriesInTime(j, i, 1, r.(m := m'));
    }
  }

  lemma {:induction false} WalkInTime(j: Job, order: seq<nat>, r: Run)
    requires Ready(j, r) && Indices(order, |r.health|) && j.setup.deadline.Some? && WaitsEnd(j.world)
    ensures var trace := Walk(j, order, r).0.m.trace;
            r.m.trace <= trace && StartsInTime(j, trace, |r.m.trace|)
    decreases |order|
  {
    hide Visit;
    if order != [] {
      VisitInTime(j, order[0], r);
      VisitAsksOnly(j, order[0], r);
      var next := Visit(j, order[0], r).run;
      if Visit(j, order[0], r).Next? {
        WalkInTime(j, order[1..], next);
        var trace := Walk(j, order[1..], next).0.m.trace;
        assert forall k :: 0 <= k < |next.m.trace| ==> trace[k] == next.m.trace[k];
      }
    }
  }

  /** As long as no wait overruns, every call starts before the deadline, retries included, however
      long calls take and however much time passes between one step and the next. */
  lemma RequestIsInTime(j: Job, m: Moment, health: seq<HealthState>)
    requires Ready(j, Start(m, health)) && j.setup.deadline.Some? && WaitsEnd(j.world)
    ensures StartsInTime(j, Journey(j, m, health).0.m.trace, |m.trace|)
  {
    WalkInTime(j, ReachingOrder(j.setup, health), Start(m, health));
  }

  // ----- when a request is over

  ghost predicate CallsEnd(w: World, longest: nat) {
    forall k, i :: w.answer(k, i).took <= longest
  }

  /** The time that passes unnoticed before the readings of the clock from one to another. */
  ghost function Drifted(w: World, from: nat, to: nat): nat
    requires from <= to
  {
    if from == to then 0 else Drifted(w, from, to - 1) + w.drift(to - 1)
  }

  /** A clock no further on than a bound and what drifted since. */
  ghost predicate By(w: World, bound: int, from: nat, m: Moment) {
    from <= m.looks && m.now <= bound + Drifted(w, from, m.looks)
  }

  lemma ByRead(w: World, bound: int, from: nat, m: Moment)
    requires By(w, bound, from, m)
    ensures By(w, bound, from, w.Read(m))
  {
  }

  lemma RecordedBy(j: Job, i: nat, error: Error, r: Run, bound: int, from: nat)
    requires Ready(j, r) && i < |r.health| && By(j.world, bound, from, r.m)
    ensures By(j.world, bound, from, CountFailure(j, i, error, r).m)
    ensures By(j.world, bound, from, GiveUp(j, r).run.m)
  {
    hide By, Rested, Opening;
    ByRead(j.world, bound, from, r.m);
  }

  lemma OnceBy(j: Job, i: nat, attempt: nat, r: Run, longest: nat, bound: int, from: nat)
    requires Ready(j, r) && i < |r.health| && 1 <= attempt <= j.setup.Allowed() && j.setup.deadline.Some?
    requires WaitsEnd(j.world) && CallsEnd(j.world, longest)
    requires r.m.now < Due(j) && Due(j) + longest - 1 <= bound && from <= r.m.looks
    ensures By(j.world, bound, from, RunOf(Once(j, i, attempt, r)).m)
  {
    hide Waiting, NoRoomFor, CountFailure, GiveUp;
    var sending := j.request.(model := j.setup.routes[i].model);
    var outcome := j.world.Outcome(r.m, i);
    var asked := r.(m := j.world.Call(r.m, i, attempt, sending), attempts := r.attempts + 1);
    assert j.world.answer(r.m.calls, i).took <= longest;
    assert By(j.world, bound, from, asked.m);
    if outcome.Err? {
      var error := outcome.error;
      if error.Refused? {
        RecordedBy(j, i, error, asked, bound, from);
      } else {
        var waiting := Waiting(j, asked, attempt, error);
        if waiting.None? {
          RecordedBy(j, i, error, PassOver(j, i, Failing(error), asked), bound, from);
        } else {
          var told := PassOver(j, i, TryingAgain(error, attempt, j.setup.Allowed(), waiting.value), asked);
          RoomIsRead(j, told.m, waiting.value);
          ByRead(j.world, bound, from, told.m);
          RoomNow(j, told.m, waiting.value);
          var (late, m) := NoRoomFor(j, told.m, waiting.value);
          if late {
            RecordedBy(j, i, error, told.(m := m), bound, from);
            RecordedBy(j, i, error, CountFailure(j, i, error, told.(m := m)), bound, from);
          }
        }
      }
    }
  }

  lemma RoomIsRead(j: Job, m: Moment, wait: Duration)
    requires j.started <= m.now && j.setup.deadline.Some?
    ensures NoRoomFor(j, m, wait).1 == j.world.Read(m)
  {
  }

  lemma {:induction false} TriesBy(j: Job, i: nat, attempt: nat, r: Run, longest: nat, bound: int, from: nat)
    requires Ready(j, r) && i < |r.health| && 1 <= attempt <= j.setup.Allowed() && j.setup.deadline.Some?
    requires WaitsEnd(j.world) && CallsEnd(j.world, longest)
    requires r.m.now < Due(j) && Due(j) + longest - 1 <= bound && from <= r.m.looks
    ensures By(j.world, bound, from, Tries(j, i, attempt, r).run.m)
    decreases j.setup.Allowed() - attempt
  {
    hide Once, CallsEnd;
    OnceBy(j, i, attempt, r, longest, bound, from);
    var checked, wait := RetryStartsWhenItsWaitEnds(j, i, attempt, r);
    match Once(j, i, attempt, r) {
      case Settles(_) =>
      case Again(next) => TriesBy(j, i, attempt + 1, next, longest, bound, from);
    }
  }

  lemma CheckBy(j: Job, i: nat, r: Run, bound: int, from: nat)
    requires Ready(j, r) && i < |r.health| && By(j.world, bound, from, r.m)
    ensures By(j.world, bound, from, Check(j, i, r).1)
  {
    hide By, Unaffordable, Requirements.UnmetBy;
    ByRead(j.world, bound, from, r.m);
  }

  lemma VisitBy(j: Job, i: nat, r: Run, longest: nat, bound: int, from: nat)
    requires Ready(j, r) && i < |r.health| && j.setup.deadline.Some?
    requires WaitsEnd(j.world) && CallsEnd(j.world, longest)
    requires By(j.world, bound, from, r.m) && Due(j) + longest - 1 <= bound
    ensures By(j.world, bound, from, Visit(j, i, r).run.m)
  {
    hide Tries, GiveUp, NoRoomFor, Check, CallsEnd, WaitsEnd;
    CheckPasses(j, i, r);
    CheckBy(j, i, r, bound, from);
    var (why, m) := Check(j, i, r);
    RoomIsRead(j, m, 0);
    RoomNow(j, m, 0);
    ByRead(j.world, bound, from, m);
    if why.None? {
      var (late, m') := NoRoomFor(j, m, 0);
      if late {
        RecordedBy(j, i, Transient(Said("")), r.(m := m'), bound, from);
      } else {
        TriesBy(j, i, 1, r.(m := m'), longest, bound, from);
      }
    }
  }

  lemma {:induction false} WalkBy(j: Job, order: seq<nat>, r: Run, longest: nat, bound: int, from: nat)
    requires Ready(j, r) && Indices(order, |r.health|) && j.setup.deadline.Some?
    requires WaitsEnd(j.world) && CallsEnd(j.world, longest)
    requires By(j.world, bound, from, r.m) && Due(j) + longest - 1 <= bound
    ensures By(j.world, bound, from, Walk(j, order, r).0.m)
    decreases |order|
  {
    hide Visit, By, CallsEnd, WaitsEnd;
    if order != [] {
      VisitBy(j, order[0], r, longest, bound, from);
      match Visit(j, order[0], r) {
        case Done(_, _) =>
        case Next(next) => WalkBy(j, order[1..], next, longest, bound, from);
      }
    }
  }

  /** And when no call takes longer than `longest`, the request is over before a whole call more has gone
      by after the deadline, the time that drifted by at its readings of the clock aside. */
  lemma RequestEndsInTime(j: Job, m: Moment, health: seq<HealthState>, longest: nat)
    requires Ready(j, Start(m, health)) && j.setup.deadline.Some?
    requires WaitsEnd(j.world) && CallsEnd(j.world, longest)
    ensures var end := Journey(j, m, health).0.m;
            && m.looks <= end.looks
            && end.now <= Max(m.now, Due(j) + longest - 1) + Drifted(j.world, m.looks, end.looks)
  {
    hide Walk;
    WalkBy(j, ReachingOrder(j.setup, health), Start(m, health), longest, Max(m.now, Due(j) + longest - 1), m.looks);
  }

  // ----- giving up

  /** A reading of the clock at which waiting this long would have reached the deadline. */
  ghost predicate Reaches(j: Job, checked: nat, wait: Duration)
    requires j.setup.deadline.Some?
  {
    j.started <= checked && Elapsed(checked, j.started) + wait >= j.setup.deadline.value
  }

  /** Why a request gives up, and after how long: the deadline is reached, or the last thing that happened
      was a failed call whose wait would have reached it. */
  ghost predicate OutOfTime(j: Job, r: Run, elapsed: Duration)
    requires Ready(j, r)
  {
    && j.setup.deadline.Some?
    && elapsed == Elapsed(r.m.now, j.started)
    && (elapsed >= j.setup.deadline.value
        || (&& r.m.trace != []
            && var e := r.m.trace[|r.m.trace| - 1];
            && e.Called? && e.outcome.Err? && Waiting(j, r, e.attempt, e.outcome.error).Some?
            && exists checked: nat ::
                 e.at <= checked <= r.m.now && Reaches(j, checked, Waiting(j, r, e.attempt, e.outcome.error).value)))
  }

  ghost predicate GivesUpOutOfTime(j: Job, s: Step)
    requires Ready(j, s.run)
  {
    s.Done? && s.verdict.GaveUp? ==> OutOfTime(j, s.run, s.verdict.elapsed)
  }

  lemma OnceGivesUp(j: Job, i: nat, attempt: nat, r: Run)
    requires Ready(j, r) && i < |r.health| && 1 <= attempt <= j.setup.Allowed()
    ensures Once(j, i, attempt, r).Settles? ==> GivesUpOutOfTime(j, Once(j, i, attempt, r).step)
  {
    hide CountFailure, Elapsed, NoRoomFor, Retry.WaitBefore;
    var sending := j.request.(model := j.setup.routes[i].model);
    var outcome := j.world.Outcome(r.m, i);
    var asked := r.(m := j.world.Call(r.m, i, attempt, sending), attempts := r.attempts + 1);
    if outcome.Err? && !outcome.error.Refused? && j.setup.deadline.Some? {
      var error := outcome.error;
      var waiting := Waiting(j, asked, attempt, error);
      if waiting.Some? {
        var told := PassOver(j, i, TryingAgain(error, attempt, j.setup.Allowed(), waiting.value), asked);
        var (late, m) := NoRoomFor(j, told.m, waiting.value);
        if late {
          LateReaches(j, told.m, waiting.value);
          assert Reaches(j, m.now, waiting.value);
          var end := GiveUp(j, CountFailure(j, i, error, told.(m := m)));
          assert end.run.m.trace == r.m.trace + [Called(i, attempt, sending, r.m.now, outcome)];
          assert Waiting(j, end.run, attempt, error) == waiting;
        }
      }
    }
  }

  lemma LateReaches(j: Job, m: Moment, wait: Duration)
    requires j.started <= m.now && j.setup.deadline.Some?
    ensures var (late, m') := NoRoomFor(j, m, wait);
            late ==> Reaches(j, m'.now, wait)
  {
  }

  lemma {:induction false} TriesGivesUp(j: Job, i: nat, attempt: nat, r: Run)
    requires Ready(j, r) && i < |r.health| && 1 <= attempt <= j.setup.Allowed()
    ensures GivesUpOutOfTime(j, Tries(j, i, attempt, r))
    decreases j.setup.Allowed() - attempt
  {
    hide Once, OutOfTime;
    OnceGivesUp(j, i, attempt, r);
    match Once(j, i, attempt, r) {
      case Settles(_) =>
      case Again(next) => TriesGivesUp(j, i, attempt + 1, next);
    }
  }

  lemma VisitGivesUp(j: Job, i: nat, r: Run)
    requires Ready(j, r) && i < |r.health|
    ensures GivesUpOutOfTime(j, Visit(j, i, r))
  {
    hide Tries, NoRoomFor, Check, Waiting, Unaffordable, Requirements.MetBy;
    CheckPasses(j, i, r);
    var (why, m) := Check(j, i, r);
    var (late, m') := NoRoomFor(j, m, 0);
    if why.None? {
      if late {
        LateReaches(j, m, 0);
      } else {
        TriesGivesUp(j, i, 1, r.(m := m'));
      }
    }
  }

  lemma {:induction false} WalkGivesUp(j: Job, order: seq<nat>, r: Run)
    requires Ready(j, r) && Indices(order, |r.health|)
    ensures var (run, verdict) := Walk(j, order, r);
            Ready(j, run) && (verdict.GaveUp? ==> OutOfTime(j, run, verdict.elapsed))
    decreases |order|
  {
    hide Visit, OutOfTime;
    if order != [] {
      VisitGivesUp(j, order[0], r);
      match Visit(j, order[0], r) {
        case Done(_, _) =>
        case Next(next) => WalkGivesUp(j, order[1..], next);
      }
    }
  }

  // ----- every world

  /** A route that some world has a call made to: it passes every check that does not move with time, and
      opens before the deadline if it is resting. */
  ghost predicate Callable(j: Job, health: seq<HealthState>, i: nat)
    requires j.setup.deadline.Some? && |health| == |j.setup.routes|
  {
    && i < |health|
    && var route := j.setup.routes[i];
    && route.capabilities.Some? && j.needs.MetBy(route.capabilities.value)
    && Unaffordable(j.setup.budget, j.spent, route, j.request).None?
    && Due(j) > 0 && health[i].closedUntil <= Millis(Due(j) - 1)
  }

  /** Whether every call of the request starts in time in this world. */
  ghost predicate InTimeIn(j: Job, w: World, m: Moment, health: seq<HealthState>)
    requires Ready(j, Start(m, health)) && j.setup.deadline.Some?
  {
    StartsInTime(j, Journey(j.(world := w), m, health).0.m.trace, |m.trace|)
  }

  /** Nothing is called that is not callable, and nothing once the deadline has passed. */
  lemma VisitCallsNothing(j: Job, i: nat, r: Run, health: seq<HealthState>)
    requires Ready(j, r) && i < |r.health| == |health| && r.health[i] == health[i] && j.setup.deadline.Some?
    requires r.m.now >= Due(j) || !Callable(j, health, i)
    ensures var s := Visit(j, i, r);
            s.run.m.trace == r.m.trace && s.run.m.now >= r.m.now && (s.Next? ==> s.run.health == r.health)
  {
    hide Tries, GiveUp, NoRoomFor, Check, Unaffordable, Requirements.MetBy, Millis;
    CheckPasses(j, i, r);
    var (why, m) := Check(j, i, r);
    RoomNow(j, m, 0);
    var (late, m') := NoRoomFor(j, m, 0);
    if why.None? && !late {
      MillisGrow(m.now, Due(j) - 1);
    }
  }

  lemma {:induction false} WalkCallsNothing(j: Job, order: seq<nat>, r: Run, health: seq<HealthState>)
    requires Ready(j, r) && Indices(order, |r.health|) && r.health == health && j.setup.deadline.Some?
    requires r.m.now >= Due(j) || forall i: nat :: i < |health| ==> !Callable(j, health, i)
    ensures Walk(j, order, r).0.m.trace == r.m.trace
    decreases |order|
  {
    hide Visit, Callable;
    if order != [] {
      VisitCallsNothing(j, order[0], r, health);
      match Visit(j, order[0], r) {
        case Done(_, _) =>
        case Next(next) => WalkCallsNothing(j, order[1..], next, health);
      }
    }
  }

  /** A world whose first reading of the clock is the last moment before the deadline, whose providers are
      all busy and ask to be tried again at once, and in which waiting at once takes a nanosecond. */
  function BusyWorld(m: Moment, due: nat): World
    requires m.now < due
  {
    World((k: nat, i: nat) => Answer.Answer(0, Err(RateLimited(Some(0)))),
          (k: nat, wait: Duration) => 1,
          (k: nat) => if k == m.looks then due - 1 - m.now else 0,
          (k: nat) => 0)
  }

  /** The clock of that world. */
  predicate LastMoment(first: Moment, due: nat, m: Moment) {
    first.looks <= m.looks && m.now == if m.looks == first.looks then first.now else due - 1
  }

  lemma ReadsLastMoment(first: Moment, due: nat, m: Moment)
    requires first.now < due && LastMoment(first, due, m)
    ensures var m' := BusyWorld(first, due).Read(m);
            LastMoment(first, due, m') && m'.now == due - 1 && first.looks < m'.looks
  {
  }

  /** A retry at that last moment is late. */
  lemma BusyRetryIsLate(j: Job, i: nat, r: Run, first: Moment)
    requires Ready(j, r) && i < |r.health| && j.setup.deadline.Some? && j.setup.Allowed() > 1
    requires first.now < Due(j) && j.world == BusyWorld(first, Due(j)) && first.looks < r.m.looks
    requires r.m.now == Due(j) - 1
    ensures !StartsInTime(j, Tries(j, i, 1, r).run.m.trace, |r.m.trace|)
  {
    var once := Once(j, i, 1, r);
    BusyOnce(j, i, r, first);
    hide Once;
    var called, told, wait := OnceShape(j, i, 1, r);
    var next := once.run;
    var called', told', wait' := OnceShape(j, i, 2, next);
    TriesAsksOnly(j, i, 1, r);
    var trace := Tries(j, i, 1, r).run.m.trace;
    assert Tries(j, i, 1, r) == Tries(j, i, 2, next);
    SecondIsCalled(j, i, next, called');
    assert trace[|next.m.trace|] == called';
  }

  lemma SecondIsCalled(j: Job, i: nat, r: Run, called: Event)
    requires Ready(j, r) && i < |r.health| && 2 <= j.setup.Allowed()
    requires RunOf(Once(j, i, 2, r)).m.trace[..|r.m.trace| + 1] == r.m.trace + [called]
             && |RunOf(Once(j, i, 2, r)).m.trace| > |r.m.trace|
    ensures var trace := Tries(j, i, 2, r).run.m.trace;
            |r.m.trace| < |trace| && trace[|r.m.trace|] == called
  {
    hide Once;
    match Once(j, i, 2, r) {
      case Settles(_) =>
      case Again(next) => TriesAsksOnly(j, i, 3, next);
    }
  }

  lemma BusyOnce(j: Job, i: nat, r: Run, first: Moment)
    requires Ready(j, r) && i < |r.health| && j.setup.deadline.Some? && j.setup.Allowed() > 1
    requires first.now < Due(j) && j.world == BusyWorld(first, Due(j)) && first.looks < r.m.looks
    requires r.m.now == Due(j) - 1
    ensures Once(j, i, 1, r).Again? && Once(j, i, 1, r).run.m.now == Due(j)
  {
    hide NoRoomFor;
    var asked := j.world.Call(r.m, i, 1, j.request.(model := j.setup.routes[i].model));
    RoomNow(j, asked, 0);
  }

  lemma BusyVisitIsLate(j: Job, i: nat, r: Run, first: Moment, health: seq<HealthState>)
    requires Ready(j, r) && i < |r.health| == |health| && r.health[i] == health[i]
    requires j.setup.deadline.Some? && j.setup.Allowed() > 1
    requires first.now < Due(j) && j.world == BusyWorld(first, Due(j)) && LastMoment(first, Due(j), r.m)
    ensures var s := Visit(j, i, r);
            || (|r.m.trace| <= |s.run.m.trace| && !StartsInTime(j, s.run.m.trace, |r.m.trace|))
            || (&& !Callable(j, health, i) && s.Next? && s.run.m.trace == r.m.trace
                && s.run.health == r.health && LastMoment(first, Due(j), s.run.m))
  {
    hide Tries, GiveUp, NoRoomFor, Check, Unaffordable, Requirements.MetBy, Millis, BusyWorld;
    BusyCheck(j, i, r, first, health);
    var (why, m) := Check(j, i, r);
    if why.None? {
      RoomIsRead(j, m, 0);
      RoomNow(j, m, 0);
      ReadsLastMoment(first, Due(j), m);
      var (late, m') := NoRoomFor(j, m, 0);
      BusyRetryIsLate(j, i, r.(m := m'), first);
      TriesAsksOnly(j, i, 1, r.(m := m'));
    }
  }

  lemma BusyCheck(j: Job, i: nat, r: Run, first: Moment, health: seq<HealthState>)
    requires Ready(j, r) && i < |r.health| == |health| && r.health[i] == health[i] && j.setup.deadline.Some?
    requires first.now < Due(j) && j.world == BusyWorld(first, Due(j)) && LastMoment(first, Due(j), r.m)
    ensures var (why, m) := Check(j, i, r);
            && m.trace == r.m.trace && r.m.now <= m.now && LastMoment(first, Due(j), m)
            && (Callable(j, health, i) ==> why.None?)
  {
    hide Unaffordable, Requirements.MetBy, Requirements.UnmetBy, Millis, BusyWorld;
    ReadsLastMoment(first, Due(j), r.m);
  }

  lemma {:induction false} BusyWalkIsLate(j: Job, order: seq<nat>, r: Run, first: Moment, health: seq<HealthState>, i: nat)
    requires Ready(j, r) && Indices(order, |r.health|) && r.health == health
    requires j.setup.deadline.Some? && j.setup.Allowed() > 1
    requires first.now < Due(j) && j.world == BusyWorld(first, Due(j)) && LastMoment(first, Due(j), r.m)
    requires i in order && Callable(j, health, i)
    ensures !StartsInTime(j, Walk(j, order, r).0.m.trace, |r.m.trace|)
    decreases |order|
  {
    hide Visit, Callable, BusyWorld, LastMoment;
    BusyVisitIsLate(j, order[0], r, first, health);
    var s := Visit(j, order[0], r);
    if s.Next? {
      if s.run.m.trace == r.m.trace && s.run.health == r.health && LastMoment(first, Due(j), s.run.m)
         && !Callable(j, health, order[0]) {
        BusyWalkIsLate(j, order[1..], s.run, first, health, i);
      } else {
        WalkGoesOn(j, order[1..], s.run);
        StaysLate(j, s.run.m.trace, Walk(j, order[1..], s.run).0.m.trace, |r.m.trace|);
      }
    }
  }

  lemma WalkGoesOn(j: Job, order: seq<nat>, r: Run)
    requires Ready(j, r) && Indices(order, |r.health|)
    ensures r.m.trace <= Walk(j, order, r).0.m.trace
  {
    WalkFollows(j, order, r);
  }

  lemma StaysLate(j: Job, trace: seq<Event>, longer: seq<Event>, from: nat)
    requires j.setup.deadline.Some? && trace <= longer && !StartsInTime(j, trace, from)
    ensures !StartsInTime(j, longer, from)
  {
    var k :| from <= k < |trace| && trace[k].Called? && trace[k].at >= Due(j);
    assert longer[k] == trace[k];
  }

  lemma WithoutRetriesInTime(j: Job, m: Moment, health: seq<HealthState>)
    requires Ready(j, Start(m, health)) && j.setup.deadline.Some? && j.setup.Allowed() == 1
    ensures StartsInTime(j, Journey(j, m, health).0.m.trace, |m.trace|)
  {
    hide Walk, Unaffordable, Requirements.MetBy;
    ReachingOrderSorts(j.setup, health);
    OnlyRetriesStartLate(j, m, health);
    WalkIsProper(j, ReachingOrder(j.setup, health), Start(m, health), health);
    var trace := Journey(j, m, health).0.m.trace;
    assert forall k :: |m.trace| <= k < |trace| ==> Proper(j, health, trace[k]);
  }

  /** The theorem: a deadline that is looked at before every call is what the router promises, and what
      it keeps in every world exactly when it never retries, short of a request that calls nothing
      anyway: one that starts at its deadline or later, or has no route it could call before it. */
  lemma InTimeInEveryWorldExactlyWhen(j: Job, m: Moment, health: seq<HealthState>)
    requires Ready(j, Start(m, health)) && j.setup.deadline.Some?
    ensures (forall w: World :: InTimeIn(j, w, m, health))
            <==> || j.setup.Allowed() == 1
                 || m.now >= Due(j)
                 || forall i: nat :: i < |health| ==> !Callable(j, health, i)
  {
    hide Callable, BusyWorld, Walk, StartsInTime;
    ReachingOrderSorts(j.setup, health);
    var order := ReachingOrder(j.setup, health);
    if j.setup.Allowed() == 1 || m.now >= Due(j) || forall i: nat :: i < |health| ==> !Callable(j, health, i) {
      forall w: World ensures InTimeIn(j, w, m, health) {
        InTimeInOne(j, w, m, health);
      }
    } else {
      var i: nat :| i < |health| && Callable(j, health, i);
      var w := BusyWorld(m, Due(j));
      SameElsewhere(j, w, health, i);
      BusyWalkIsLate(j.(world := w), order, Start(m, health), m, health, i);
      SameDue(j, w, Journey(j.(world := w), m, health).0.m.trace, |m.trace|);
      assert !InTimeIn(j, w, m, health);
    }
  }

  lemma InTimeInOne(j: Job, w: World, m: Moment, health: seq<HealthState>)
    requires Ready(j, Start(m, health)) && j.setup.deadline.Some?
    requires j.setup.Allowed() == 1 || m.now >= Due(j) || forall i: nat :: i < |health| ==> !Callable(j, health, i)
    ensures InTimeIn(j, w, m, health)
  {
    hide Callable, Walk;
    var there := j.(world := w);
    if j.setup.Allowed() == 1 {
      WithoutRetriesInTime(there, m, health);
    } else {
      forall i: nat | i < |health| ensures Callable(there, health, i) <==> Callable(j, health, i) {
        SameElsewhere(j, w, health, i);
      }
      WalkCallsNothing(there, ReachingOrder(j.setup, health), Start(m, health), health);
    }
  }

  lemma SameElsewhere(j: Job, w: World, health: seq<HealthState>, i: nat)
    requires j.setup.deadline.Some? && |health| == |j.setup.routes|
    ensures Callable(j.(world := w), health, i) <==> Callable(j, health, i)
  {
    hide Unaffordable, Requirements.MetBy, Millis;
  }

  lemma SameDue(j: Job, w: World, trace: seq<Event>, from: nat)
    requires j.setup.deadline.Some?
    ensures StartsInTime(j.(world := w), trace, from) <==> StartsInTime(j, trace, from)
  {
  }

  // ----- a late retry

  /** One route, two attempts, a deadline of ten, and a wait that lasts longer than it was asked
      to. The deadline is looked at before the wait and not again after it. */
  const ONE_ROUTE := Setup(
    [Route("p", "m", Some(Capabilities(false, false, false, false, false, false, false, false, SelfHosted)), None)],
    Some(Retry(2, 4, 4, false)), None, None, Some(10), AsListed)

  const ASKING_NOTHING := Requirements(false, false, false, false, false, false, false, false, false)

  const OVERSLEEPING := World(
    (k: nat, i: nat) => Answer.Answer(0, Err(Transient(Said("503")))),
    (k: nat, asked: Duration) => 100,
    (k: nat) => 0,
    (k: nat) => 0)

  const PLAIN_REQUEST := ChatRequest("", [], None)

  const LATE_JOB := Job(ONE_ROUTE, OVERSLEEPING, 0, PLAIN_REQUEST, ASKING_NOTHING, 0)
  const AT_ONCE := Moment(0, 0, 0, [])

  lemma FirstTrySleepsTooLong(m: Moment)
    requires m.now == 0
    ensures var t := Once(LATE_JOB, 0, 1, Start(m, [HEALTHY]));
            t.Again? && t.run.m.now == 100 && |t.run.m.trace| == |m.trace| + 2
  {
    hide Waiting;
    var r := Start(m, [HEALTHY]);
    ShortWait(r.(m := OVERSLEEPING.Call(m, 0, 1, PLAIN_REQUEST.(model := "m")), attempts := 1));
  }

  lemma ShortWait(r: Run)
    ensures Waiting(LATE_JOB, r, 1, Transient(Said("503"))).Some?
    ensures Waiting(LATE_JOB, r, 1, Transient(Said("503"))).value <= 4
  {
    hide Retry.Backoff, Retry.Capped;
    ONE_ROUTE.retry.value.BackoffBetween(2, 2, 0);
  }

  lemma VisitOversleeps()
    ensures var s := Visit(LATE_JOB, 0, Start(AT_ONCE, [HEALTHY]));
            |s.run.m.trace| > 2 && s.run.m.trace[2].Called? && s.run.m.trace[2].at == 100
  {
    hide Once, Waiting;
    var r := Start(AT_ONCE, [HEALTHY]);
    var m := NoRoomFor(LATE_JOB, AT_ONCE, 0).1;
    assert !NoRoomFor(LATE_JOB, AT_ONCE, 0).0 && m.now == 0;
    FirstTrySleepsTooLong(m);
    var next := Once(LATE_JOB, 0, 1, r.(m := m)).run;
    var called, told, wait := OnceShape(LATE_JOB, 0, 2, next);
    TriesAsksOnly(LATE_JOB, 0, 2, next);
    assert Tries(LATE_JOB, 0, 1, r.(m := m)) == Tries(LATE_JOB, 0, 2, next);
    assert Check(LATE_JOB, 0, r) == (None, AT_ONCE);
  }

  /** Waits that overrun are why the assumption is there: without it a retry can start after the
      deadline. */
  lemma OversleptRetryStartsLate()
    ensures Ready(LATE_JOB, Start(AT_ONCE, [HEALTHY]))
    ensures !StartsInTime(LATE_JOB, Journey(LATE_JOB, AT_ONCE, [HEALTHY]).0.m.trace, 0)
  {
    hide Visit;
    var r := Start(AT_ONCE, [HEALTHY]);
    assert ReachingOrder(ONE_ROUTE, [HEALTHY]) == [0] by {
      assert SortedUpTo(ONE_ROUTE, [HEALTHY], 0) == [];
    }
    VisitOversleeps();
    var s := Visit(LATE_JOB, 0, r);
    if s.Next? {
      assert [0][1..] == [];
    }
    assert Walk(LATE_JOB, [0], r).0 == s.run;
  }
}
