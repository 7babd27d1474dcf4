/** What became of every route of a plan in a request that is not chat: the calls it got and how they
    followed one another, or what was wrong with it. */
module Servings {
  import opened Basics
  import opened Decimals
  import opened Reports
  import opened Retries
  import opened Surroundings
  import opened Media

  // ----- what is told of a route

  /** What keeps a route with a provider's name in it from being called, if anything does. */
  ghost predicate TroubleWith(j: Job, i: nat, trouble: Trouble)
    requires i < |j.plan.routes| && SplitOnce(j.plan.routes[i], '/').Some?
  {
    var provider := SplitOnce(j.plan.routes[i], '/').value.0;
    if provider !in j.providers then trouble == NotBuilt
    else if (j.onDevice || j.plan.onDevice) && j.providers[provider].reach != Routers.SelfHosted then trouble == CannotOnDevice
    else !j.providers[provider].endpoint && trouble == NoEndpoint
  }

  ghost predicate LinesFor(j: Job, i: nat, failed: seq<Event>, lines: seq<(string, Trouble)>)
    requires i < |j.plan.routes|
  {
    && |lines| == |failed|
    && (forall k :: 0 <= k < |failed| ==>
          failed[k].Called? && failed[k].outcome.Err? && lines[k] == (j.plan.routes[i], Failed(failed[k].outcome.error)))
  }

  /** One route's lines: one for every failed call when it was called, none when its name names no
      provider, and otherwise the one that says what is wrong with it. */
  ghost predicate Tells(j: Job, i: nat, lines: seq<(string, Trouble)>, events: seq<Event>)
    requires i < |j.plan.routes|
  {
    if Asked(events, i) then LinesFor(j, i, FailedCalls(events, i), lines)
    else if SplitOnce(j.plan.routes[i], '/').None? then lines == []
    else |lines| == 1 && lines[0].0 == j.plan.routes[i] && TroubleWith(j, i, lines[0].1)
  }

  ghost function Share(j: Job, events: seq<Event>, i: nat): nat
    requires i < |j.plan.routes|
  {
    if Asked(events, i) then |FailedCalls(events, i)|
    else if SplitOnce(j.plan.routes[i], '/').None? then 0
    else 1
  }

  /** The lines of a request are those of the routes it got to, one route after another. */
  ghost predicate TellsAll(j: Job, i: nat, n: nat, lines: seq<(string, Trouble)>, events: seq<Event>)
    requires i <= n <= |j.plan.routes|
    decreases n - i
  {
    if i == n then lines == []
    else
      var share := Share(j, events, i);
      && share <= |lines|
      && Tells(j, i, lines[..share], events)
      && TellsAll(j, i + 1, n, lines[share..], events)
  }

  // ----- how calls follow one another

  ghost predicate Goes(e: Event, i: nat, attempt: nat) {
    e.Called? && e.route == i && e.attempt == attempt
  }

  /** The policy of a plan: at least one attempt, waits from a quarter of a second to thirty, and no timeout
      repeated. */
  function Defaults(attempts: U32): Retry {
    Retry(if attempts == 0 then 1 else attempts, 250_000_000, 30_000_000_000, false)
  }

  ghost predicate Repeats(j: Job, e: Event) {
    e.Called? && Unsettled(e) && Defaults(j.plan.attempts).Repeats(e.attempt, e.outcome.error)
  }

  ghost predicate MayWait(j: Job, e: Event, wait: Duration)
    requires Repeats(j, e)
  {
    Defaults(j.plan.attempts).MayWait(e.attempt, e.outcome.error, wait)
  }

  /** What comes after a failed call: when it is worth another, a wait the policy allows and the same route
      again, unless the deadline ended the request before either; and otherwise a first attempt. */
  ghost predicate PacedAt(j: Job, events: seq<Event>, k: nat, gaveUp: bool)
    requires k < |events|
  {
    var e := events[k];
    e.Called? && Unsettled(e) ==>
      if Repeats(j, e) then
        || (gaveUp && k == |events| - 1)
        || (&& k < |events| - 1
            && events[k + 1].Slept? && MayWait(j, e, events[k + 1].asked)
            && (k < |events| - 2 ==> Goes(events[k + 2], e.route, e.attempt + 1))
            && (k == |events| - 2 ==> gaveUp))
      else k < |events| - 1 ==> events[k + 1].Called? && events[k + 1].attempt == 1
  }

  ghost predicate Paced(j: Job, events: seq<Event>, gaveUp: bool) {
    forall k: nat :: k < |events| ==> PacedAt(j, events, k, gaveUp)
  }

  ghost predicate Begins(events: seq<Event>, attempt: nat) {
    events != [] ==> events[0].Called? && events[0].attempt == attempt
  }

  ghost predicate OnlyTo(events: seq<Event>, i: nat) {
    forall e <- events :: e.Called? ==> e.route == i
  }

  ghost predicate OnlyIn(events: seq<Event>, i: nat, n: nat) {
    forall e <- events :: e.Called? ==> i <= e.route < n
  }

  ghost predicate Extends(before: Run, after: Run, events: seq<Event>, lines: seq<(string, Trouble)>) {
    after.m.trace == before.m.trace + events && after.fellThrough == before.fellThrough + lines
  }

  ghost predicate GaveUpIn(j: Job, s: Step) {
    s.Done? && GaveUp(j, s.run.m, s.end)
  }

  // ----- one attempt

  ghost function RunOf(t: Turn): Run {
    if t.Again? then t.run else t.step.run
  }

  /** One attempt adds a call, a line when it failed, and the wait before the next; or nothing when it is
      too late for it. */
  lemma OnceTells(j: Job, i: nat, attempt: nat, r: Run)
    returns (called: Option<Event>, lines: seq<(string, Trouble)>, wait: Option<Duration>)
    requires Ready(j, r) && i < |j.plan.routes| && SplitOnce(j.plan.routes[i], '/').Some?
    ensures var t := Once(j, i, attempt, true, r);
            && Extends(r, RunOf(t),
                 if called.None? then [] else if wait.None? then [called.value] else [called.value, Slept(wait.value)],
                 lines)
            && (t.Again? <==> wait.Some?)
            && (called.None? ==> wait.None? && lines == [] && t.Settles? && t.step.Done? && t.step.end.Ended? && t.step.end.error.Timeout?)
            && (called.Some? ==>
                  && Goes(called.value, i, attempt)
                  && LinesFor(j, i, if Unsettled(called.value) then [called.value] else [], lines)
                  && (wait.Some? ==> Unsettled(called.value) && Repeats(j, called.value) && MayWait(j, called.value, wait.value))
                  && (t.Settles? && Repeats(j, called.value) ==> t.step.Done? && t.step.end.Ended? && t.step.end.error.Timeout?)
                  && (t.Settles? && t.step.Next? ==> Unsettled(called.value)))
  {
    hide SplitOnce, Retry.WaitBefore, Retry.Repeats, Retry.MayWait, Elapsed;
    called, lines, wait := None, [], None;
    var (late, m) := OutOfTime(j, r.m, 0);
    if !late {
      var outcome := j.world.Outcome(m, i);
      called := Some(Called(i, attempt, Sending(j, i), m.now, outcome));
      if outcome.Err? && !outcome.error.Refused? {
        var asked := j.world.Call(m, i, attempt, Sending(j, i));
        j.plan.Policy().WaitsExactlyWhen(attempt, outcome.error, j.world.jitter(asked.calls));
        lines := [(j.plan.routes[i], Failed(outcome.error))];
        var waiting := Waiting(j, asked, attempt, outcome.error);
        if waiting.Some? && !OutOfTime(j, asked, waiting.value).0 {
          wait := waiting;
          assert [called.value] + [Slept(wait.value)] == [called.value, Slept(wait.value)];
        }
      }
    }
  }

  // ----- one route

  /** What the attempts at one route add, from some attempt on. */
  ghost predicate Attempts(j: Job, i: nat, attempt: nat, events: seq<Event>, lines: seq<(string, Trouble)>, gaveUp: bool)
    requires i < |j.plan.routes|
  {
    && (events == [] ==> gaveUp)
    && Begins(events, attempt) && OnlyTo(events, i)
    && LinesFor(j, i, FailedCalls(events, i), lines)
    && Paced(j, events, gaveUp)
  }

  lemma OneFailedCall(called: Event, i: nat, attempt: nat, wait: Option<Duration>)
    requires Goes(called, i, attempt)
    ensures FailedCalls([called] + if wait.Some? then [Slept(wait.value)] else [], i) ==
            if Unsettled(called) then [called] else []
  {
    FailedCallsAppend([called], if wait.Some? then [Slept(wait.value)] else [], i);
    assert [called][..0] == [] && FailedCalls([], i) == [];
    if wait.Some? {
      assert [Slept(wait.value)][..0] == [];
    }
  }

  /** An attempt that is the last. */
  lemma LastAttempt(j: Job, i: nat, attempt: nat, called: Event, told: seq<(string, Trouble)>, gaveUp: bool)
    requires i < |j.plan.routes| && Goes(called, i, attempt)
    requires LinesFor(j, i, if Unsettled(called) then [called] else [], told)
    requires Repeats(j, called) ==> gaveUp
    ensures Attempts(j, i, attempt, [called], told, gaveUp)
  {
    hide LinesFor;
    OneFailedCall(called, i, attempt, None);
    assert [called] + [] == [called];
  }

  lemma NoAttempt(j: Job, i: nat, attempt: nat)
    requires i < |j.plan.routes|
    ensures Attempts(j, i, attempt, [], [], true)
  {
  }

  /** A failed attempt, a wait, and the rest of the attempts. */
  lemma OneMoreAttempt(j: Job, i: nat, attempt: nat, called: Event, told: seq<(string, Trouble)>, wait: Duration,
                       events: seq<Event>, lines: seq<(string, Trouble)>, gaveUp: bool)
    requires i < |j.plan.routes| && Goes(called, i, attempt) && Unsettled(called)
    requires Repeats(j, called) && MayWait(j, called, wait)
    requires LinesFor(j, i, [called], told) && Attempts(j, i, attempt + 1, events, lines, gaveUp)
    ensures Attempts(j, i, attempt, [called, Slept(wait)] + events, told + lines, gaveUp)
  {
    hide Repeats, MayWait, Paced, FailedCalls;
    var first := [called, Slept(wait)];
    assert events != [] ==> events[0] in events;
    OneFailedCall(called, i, attempt, Some(wait));
    assert [called] + [Slept(wait)] == first;
    FailedCallsAppend(first, events, i);
    OneMorePaced(j, i, attempt, called, wait, events, gaveUp);
  }

  lemma OneMorePaced(j: Job, i: nat, attempt: nat, called: Event, wait: Duration, events: seq<Event>, gaveUp: bool)
    requires Goes(called, i, attempt) && Repeats(j, called) && MayWait(j, called, wait)
    requires (if events == [] then gaveUp else Goes(events[0], i, attempt + 1)) && Paced(j, events, gaveUp)
    ensures Paced(j, [called, Slept(wait)] + events, gaveUp)
  {
    hide Repeats, MayWait;
    var all := [called, Slept(wait)] + events;
    forall k: nat | k < |all|
      ensures PacedAt(j, all, k, gaveUp)
    {
      if k >= 2 {
        PacedLater(j, [called, Slept(wait)], events, k - 2, gaveUp);
      }
    }
  }

  lemma PacedLater(j: Job, front: seq<Event>, events: seq<Event>, k: nat, gaveUp: bool)
    requires k < |events| && PacedAt(j, events, k, gaveUp)
    ensures PacedAt(j, front + events, |front| + k, gaveUp)
  {
    hide Repeats, MayWait;
  }

  lemma {:induction false} TriesTells(j: Job, i: nat, attempt: nat, r: Run, before: nat)
    returns (events: seq<Event>, lines: seq<(string, Trouble)>)
    requires Ready(j, r) && MayAsk(j, i, true) && 1 <= attempt <= j.plan.Attempts() && Honest(r, before)
    ensures var s := Tries(j, i, attempt, true, r);
            && Extends(r, s.run, events, lines)
            && Attempts(j, i, attempt, events, lines, GaveUpIn(j, s))
            && (events == [] ==> lines == [])
    decreases j.plan.Attempts() - attempt
  {
    hide Once, Repeats, MayWait, Attempts, LinesFor, Honest, Concludes, RanOut, Media.Adds;
    OnceAdds(j, i, attempt, true, r, before);
    var called, told, wait := OnceTells(j, i, attempt, r);
    events, lines := [], told;
    match Once(j, i, attempt, true, r) {
      case Settles(step) =>
        if called.None? {
          NoAttempt(j, i, attempt);
        } else {
          events := [called.value];
          LastAttempt(j, i, attempt, called.value, told, GaveUpIn(j, step));
        }
      case Again(next) =>
        var more, told' := TriesTells(j, i, attempt + 1, next, before);
        events, lines := [called.value, Slept(wait.value)] + more, told + told';
        OneMoreAttempt(j, i, attempt, called.value, told, wait.value, more, told',
                       GaveUpIn(j, Tries(j, i, attempt + 1, true, next)));
    }
  }

  /** What one route's part of a request adds. */
  ghost predicate Visits(j: Job, i: nat, events: seq<Event>, lines: seq<(string, Trouble)>, s: Step)
    requires i < |j.plan.routes|
  {
    && OnlyTo(events, i) && Begins(events, 1) && Paced(j, events, GaveUpIn(j, s))
    && (events != [] ==> Asked(events, i))
    && (s.Done? ==> s.end.Served? || (s.end.Ended? && s.end.error.Refused?) || GaveUpIn(j, s))
    && if events == [] && s.Done? then lines == [] else Tells(j, i, lines, events)
  }

  lemma VisitTells(j: Job, i: nat, r: Run, before: nat) returns (events: seq<Event>, lines: seq<(string, Trouble)>)
    requires Ready(j, r) && i < |j.plan.routes| && Honest(r, before)
    ensures var s := Visit(j, i, r);
            Extends(r, s.run, events, lines) && Visits(j, i, events, lines, s)
  {
    hide SplitOnce, Tries, Honest, Concludes, RanOut, Media.Adds, LinesFor;
    events, lines := [], [];
    VisitAdds(j, i, r, before);
    match SplitOnce(j.plan.routes[i], '/') {
      case None =>
      case Some((provider, _)) =>
        if provider !in j.providers {
          lines := [(j.plan.routes[i], NotBuilt)];
        } else if j.StaysOnDevice() && !j.providers[provider].reach.OnDevice() {
          lines := [(j.plan.routes[i], CannotOnDevice)];
        } else if !j.providers[provider].endpoint {
          lines := WithoutEndpoint(j, i, r);
        } else {
          events, lines := TriesTells(j, i, 1, r, before);
          if events != [] {
            assert events[0] in events;
          }
        }
    }
  }

  /** A provider without the endpoint is found out at its first attempt, if there is time for that. */
  lemma WithoutEndpoint(j: Job, i: nat, r: Run) returns (lines: seq<(string, Trouble)>)
    requires Ready(j, r) && i < |j.plan.routes| && SplitOnce(j.plan.routes[i], '/').Some?
    ensures var s := Tries(j, i, 1, false, r);
            && Extends(r, s.run, [], lines)
            && lines == if s.Done? then [] else [(j.plan.routes[i], NoEndpoint)]
  {
    hide SplitOnce;
    var (late, m) := OutOfTime(j, r.m, 0);
    lines := if late then [] else [(j.plan.routes[i], NoEndpoint)];
  }

  // ----- a whole plan

  /** The lines about routes that are not called in between say as much of them later on. */
  lemma {:induction false} TellsLater(j: Job, i: nat, n: nat, lines: seq<(string, Trouble)>, front: seq<Event>, events: seq<Event>)
    requires i <= n <= |j.plan.routes| && TellsAll(j, i, n, lines, events)
    requires forall k :: i <= k < n ==> !Asked(front, k)
    ensures TellsAll(j, i, n, lines, front + events)
    decreases n - i
  {
    hide LinesFor, FailedCalls, Asked, TroubleWith;
    if i < n {
      AskedThen(front, events, i);
      FailedCallsAppend(front, events, i);
      NotAskedNotFailed(front, i);
      assert FailedCalls(front + events, i) == FailedCalls(events, i);
      TellsLater(j, i + 1, n, lines[Share(j, events, i)..], front, events);
    }
  }

  /** A route's lines, when only others are called after it. */
  lemma TellsBefore(j: Job, i: nat, lines: seq<(string, Trouble)>, events: seq<Event>, back: seq<Event>)
    requires i < |j.plan.routes| && Tells(j, i, lines, events) && !Asked(back, i)
    ensures Tells(j, i, lines, events + back)
  {
    hide LinesFor, FailedCalls, Asked, TroubleWith;
    AskedThen(events, back, i);
    FailedCallsAppend(events, back, i);
    NotAskedNotFailed(back, i);
    assert FailedCalls(events + back, i) == FailedCalls(events, i);
  }

  lemma TellsOneMore(j: Job, i: nat, n: nat, first: seq<(string, Trouble)>, lines: seq<(string, Trouble)>, events: seq<Event>)
    requires i < n <= |j.plan.routes|
    requires Tells(j, i, first, events) && TellsAll(j, i + 1, n, lines, events)
    ensures TellsAll(j, i, n, first + lines, events)
  {
    hide TroubleWith, Asked, FailedCalls;
    assert Share(j, events, i) == |first|;
    assert (first + lines)[..|first|] == first && (first + lines)[|first|..] == lines;
  }

  lemma PacedThen(j: Job, a: seq<Event>, b: seq<Event>, gaveUp: bool)
    requires Paced(j, a, false) && Paced(j, b, gaveUp) && Begins(b, 1)
    ensures Paced(j, a + b, gaveUp)
  {
    hide Repeats, MayWait;
    forall k: nat | k < |a + b|
      ensures PacedAt(j, a + b, k, gaveUp)
    {
      if k < |a| {
        assert PacedAt(j, a, k, false);
      } else {
        PacedLater(j, a, b, k - |a|, gaveUp);
      }
    }
  }

  /** Whether a request went through its whole plan: it was not answered, not refused, and not ended by
      its deadline. */
  ghost predicate RanOutOfRoutes(j: Job, m: Moment, end: End) {
    !end.Served? && !(end.Ended? && end.error.Refused?) && !GaveUp(j, m, end)
  }

  /** What a walk adds, told of the routes of the plan from `i` up to `n`. */
  ghost predicate Walks(j: Job, i: nat, n: nat, events: seq<Event>, lines: seq<(string, Trouble)>, m: Moment, end: End)
    requires i <= n <= |j.plan.routes|
  {
    && TellsAll(j, i, n, lines, events)
    && OnlyIn(events, i, n) && Begins(events, 1) && Paced(j, events, GaveUp(j, m, end))
    && (RanOutOfRoutes(j, m, end) ==> n == |j.plan.routes|)
  }

  lemma NotAskedOutside(events: seq<Event>, i: nat, n: nat, k: nat)
    requires OnlyIn(events, i, n) && !(i <= k < n)
    ensures !Asked(events, k)
  {
  }

  lemma {:induction false} WalkTells(j: Job, i: nat, r: Run, before: nat)
    returns (n: nat, events: seq<Event>, lines: seq<(string, Trouble)>)
    requires Ready(j, r) && i <= |j.plan.routes| && Honest(r, before)
    ensures var (run, end) := Walk(j, i, r);
            && i <= n <= |j.plan.routes| && Extends(r, run, events, lines)
            && Walks(j, i, n, events, lines, run.m, end)
    decreases |j.plan.routes| - i
  {
    hide Visit, Visits, Walks, Honest, Concludes, Media.Adds, RanOut;
    n, events, lines := i, [], [];
    if i == |j.plan.routes| {
      NothingWalked(j, r, Walk(j, i, r).1);
    } else {
      VisitAdds(j, i, r, before);
      var a, first := VisitTells(j, i, r, before);
      match Visit(j, i, r) {
        case Done(run, end) =>
          n, events, lines := if a != [] then i + 1 else i, a, first;
          WalkEnds(j, i, a, first, Visit(j, i, r));
        case Next(next) =>
          var b, more;
          n, b, more := WalkTells(j, i + 1, next, before);
          events, lines := a + b, first + more;
          ExtendsThen(r, next, Walk(j, i, r).0, a, b, first, more);
          WalkOneMore(j, i, n, a, b, first, more, Visit(j, i, r), Walk(j, i, r));
      }
    }
  }

  lemma ExtendsThen(r: Run, next: Run, run: Run, a: seq<Event>, b: seq<Event>,
                    first: seq<(string, Trouble)>, more: seq<(string, Trouble)>)
    requires Extends(r, next, a, first) && Extends(next, run, b, more)
    ensures Extends(r, run, a + b, first + more)
  {
  }

  lemma NothingWalked(j: Job, r: Run, end: End)
    ensures Extends(r, r, [], []) && Walks(j, |j.plan.routes|, |j.plan.routes|, [], [], r.m, end)
  {
    hide RanOut;
  }

  /** A walk that ends with its first route. */
  lemma WalkEnds(j: Job, i: nat, a: seq<Event>, first: seq<(string, Trouble)>, s: Step)
    requires i < |j.plan.routes| && s.Done? && Visits(j, i, a, first, s)
    ensures Walks(j, i, if a != [] then i + 1 else i, a, first, s.run.m, s.end)
  {
    hide Tells, Paced, RanOut;
    if a != [] {
      TellsOneMore(j, i, i + 1, first, [], a);
      assert first + [] == first;
    }
  }

  /** One route's part, and then the rest of a walk. */
  lemma WalkOneMore(j: Job, i: nat, n: nat, a: seq<Event>, b: seq<Event>, first: seq<(string, Trouble)>,
                    more: seq<(string, Trouble)>, s: Step, walked: (Run, End))
    requires i < n <= |j.plan.routes| && s.Next? && Visits(j, i, a, first, s)
    requires Walks(j, i + 1, n, b, more, walked.0.m, walked.1)
    ensures Walks(j, i, n, a + b, first + more, walked.0.m, walked.1)
  {
    hide Tells, TellsAll, Paced, RanOut;
    assert OnlyIn(a, i, i + 1);
    NotAskedOutside(b, i + 1, n, i);
    forall k | i + 1 <= k < n ensures !Asked(a, k) {
      NotAskedOutside(a, i, i + 1, k);
    }
    PacedThen(j, a, b, GaveUp(j, walked.0.m, walked.1));
    TellsBefore(j, i, first, a, b);
    TellsLater(j, i + 1, n, more, a, b);
    TellsOneMore(j, i, n, first, more, a + b);
  }

  // ----- every request

  /** What a request calls. */
  ghost function EventsOf(j: Job, m: Moment): seq<Event>
    requires j.started <= m.now
  {
    var trace := Walk(j, 0, Begun(m)).0.m.trace;
    if m.trace <= trace then trace[|m.trace|..] else []
  }

  /** The whole of what a request calls and tells. The routes it got to are the first `n` of its plan, and
      all of them unless it was answered, was refused or ran out of time. Each was either called, and every
      call of it that failed has a line with its error, in turn; or it has the one line that says what
      is wrong with it, and none when its name names no provider. There is no other call and no other
      line. A call that failed in a way worth another is followed by a wait the policy allows and the next
      attempt at that route, unless time ran out before either; one that failed in any other way by a
      first attempt, if by anything. */
  lemma RequestTellsAll(j: Job, m: Moment) returns (n: nat)
    requires j.started <= m.now
    ensures var (run, end) := Walk(j, 0, Begun(m));
            && n <= |j.plan.routes| && run.m.trace == m.trace + EventsOf(j, m)
            && Walks(j, 0, n, EventsOf(j, m), run.fellThrough, run.m, end)
  {
    hide Walk, Walks;
    var events, lines;
    n, events, lines := WalkTells(j, 0, Begun(m), Calls(m.trace));
    var run := Walk(j, 0, Begun(m)).0;
    assert run.m.trace[|m.trace|..] == events;
    assert [] + lines == lines;
  }

  lemma {:induction false} ToldOf(j: Job, i: nat, n: nat, lines: seq<(string, Trouble)>, events: seq<Event>, k: nat)
    requires i <= k < n <= |j.plan.routes| && TellsAll(j, i, n, lines, events)
    requires SplitOnce(j.plan.routes[k], '/').Some?
    ensures Asked(events, k) || exists line <- lines :: line.0 == j.plan.routes[k] && TroubleWith(j, k, line.1)
    decreases n - i
  {
    hide TroubleWith, LinesFor, Asked, SplitOnce;
    var share := Share(j, events, i);
    if i == k {
      assert !Asked(events, k) ==> lines[0] == lines[..share][0];
    } else {
      ToldOf(j, i + 1, n, lines[share..], events, k);
    }
  }

  /** A request that is not answered, not refused and not ended by its deadline calls every route of its plan
      that may be called: whose name names a provider that is there and has the endpoint, on a device when
      the data must stay on one. It says of every other that names a provider what is wrong with it. */
  lemma EveryRouteIsCalledOrInTrouble(j: Job, m: Moment, i: nat)
    requires j.started <= m.now && i < |j.plan.routes| && SplitOnce(j.plan.routes[i], '/').Some?
    ensures var (run, end) := Walk(j, 0, Begun(m));
            RanOutOfRoutes(j, run.m, end) ==>
              if MayAsk(j, i, true) then Asked(EventsOf(j, m), i)
              else exists line <- run.fellThrough :: line.0 == j.plan.routes[i] && TroubleWith(j, i, line.1)
  {
    hide Walk, EventsOf, Asked, SplitOnce, Proper, Paced, RanOut, Begins, TellsAll;
    var n := RequestTellsAll(j, m);
    RequestIsProper(j, m);
    var (run, end) := Walk(j, 0, Begun(m));
    if RanOutOfRoutes(j, run.m, end) {
      ToldOf(j, 0, n, run.fellThrough, EventsOf(j, m), i);
      if Asked(EventsOf(j, m), i) {
        AskedMayBeAsked(j, m, i);
      }
    }
  }

  lemma AskedMayBeAsked(j: Job, m: Moment, i: nat)
    requires j.started <= m.now && Asked(EventsOf(j, m), i)
    ensures MayAsk(j, i, true)
  {
    hide Walk, SplitOnce, Later, Within;
    RequestIsProper(j, m);
    var trace := Walk(j, 0, Begun(m)).0.m.trace;
    var k: nat :| k < |EventsOf(j, m)| && EventsOf(j, m)[k].Called? && EventsOf(j, m)[k].route == i;
    assert Proper(j, trace[|m.trace| + k]);
  }

  /** However a request ends, so it does of every route before one it called. */
  lemma EarlierRoutesAreCalledOrInTrouble(j: Job, m: Moment, i: nat, k: nat)
    requires j.started <= m.now && i < k < |j.plan.routes| && SplitOnce(j.plan.routes[i], '/').Some?
    ensures var (run, end) := Walk(j, 0, Begun(m));
            Asked(EventsOf(j, m), k) ==>
              if MayAsk(j, i, true) then Asked(EventsOf(j, m), i)
              else exists line <- run.fellThrough :: line.0 == j.plan.routes[i] && TroubleWith(j, i, line.1)
  {
    hide Walk, EventsOf, Asked, SplitOnce, Proper, Paced, RanOut, Begins, TellsAll, OnlyIn;
    var n := RequestTellsAll(j, m);
    var (run, end) := Walk(j, 0, Begun(m));
    if Asked(EventsOf(j, m), k) {
      if n <= k {
        NotAskedOutside(EventsOf(j, m), 0, n, k);
      }
      ToldOf(j, 0, n, run.fellThrough, EventsOf(j, m), i);
      if Asked(EventsOf(j, m), i) {
        AskedMayBeAsked(j, m, i);
      }
    }
  }
}
