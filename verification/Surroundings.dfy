/** Everything a router asks of the world outside it: the clock, the providers, and a wait.

    A `World` is an oracle, fixed in advance and otherwise arbitrary: what the k-th call made
    to a route answers and how long it takes, how long a wait really lasts, how much time
    passes unnoticed before each reading of the clock, and which random number comes next.
    `Moment` is how far a run has come in it. */
module Surroundings {
  import opened Basics
  import opened Reports
  import opened Replies

  type Outcome = Result<ChatResponse, Error>

  datatype Answer = Answer(took: nat, outcome: Outcome)

  datatype Event =
    | Called(route: nat, attempt: nat, sent: ChatRequest, at: nat, outcome: Outcome)
    | Slept(asked: Duration)

  datatype Moment = Moment(now: nat, looks: nat, calls: nat, trace: seq<Event>)

  /** Nothing has happened in between but time. */
  ghost predicate Quiet(m: Moment, m': Moment) {
    m'.trace == m.trace && m'.calls == m.calls && m.now <= m'.now
  }

  datatype World = World(
    answer: (nat, nat) -> Answer,
    slept: (nat, Duration) -> nat,
    drift: nat -> nat,
    jitter: nat -> U64)
  {
    function Read(m: Moment): (m': Moment)
      ensures Quiet(m, m')
    {
      m.(now := m.now + drift(m.looks), looks := m.looks + 1)
    }

    function Outcome(m: Moment, route: nat): Outcome {
      answer(m.calls, route).outcome
    }

    function Call(m: Moment, route: nat, attempt: nat, sent: ChatRequest): Moment {
      m.(now := m.now + answer(m.calls, route).took,
         calls := m.calls + 1,
         trace := m.trace + [Called(route, attempt, sent, m.now, Outcome(m, route))])
    }

    function Sleep(m: Moment, wait: Duration): Moment {
      m.(now := m.now + slept(m.calls, wait), trace := m.trace + [Slept(wait)])
    }
  }

  // ----- what a trace says

  /** How many of these events are calls. */
  ghost function Calls(trace: seq<Event>): nat
    decreases |trace|
  {
    if trace == [] then 0
    else Calls(trace[..|trace| - 1]) + if trace[|trace| - 1].Called? then 1 else 0
  }

  lemma OneMoreEvent(trace: seq<Event>, e: Event)
    ensures Calls(trace + [e]) == Calls(trace) + if e.Called? then 1 else 0
  {
    assert (trace + [e])[..|trace|] == trace;
  }

  /** A call that neither answered nor was refused, after which a request may go on. */
  ghost predicate Unsettled(e: Event) {
    e.Called? ==> e.outcome.Err? && !e.outcome.error.Refused?
  }

  ghost predicate Asked(events: seq<Event>, i: nat) {
    exists k :: 0 <= k < |events| && events[k].Called? && events[k].route == i
  }

  /** The calls to one route that neither answered nor were refused, in turn. */
  ghost function FailedCalls(events: seq<Event>, i: nat): (failed: seq<Event>)
    ensures forall e <- failed :: e.Called? && e.route == i && e.outcome.Err? && !e.outcome.error.Refused?
    decreases |events|
  {
    if events == [] then []
    else
      var e := events[|events| - 1];
      FailedCalls(events[..|events| - 1], i) + if e.Called? && e.route == i && Unsettled(e) then [e] else []
  }

  lemma AskedThen(a: seq<Event>, b: seq<Event>, i: nat)
    ensures Asked(a + b, i) <==> Asked(a, i) || Asked(b, i)
  {
    if Asked(a, i) {
      var k :| 0 <= k < |a| && a[k].Called? && a[k].route == i;
      assert (a + b)[k] == a[k];
    }
    if Asked(b, i) {
      var k :| 0 <= k < |b| && b[k].Called? && b[k].route == i;
      assert (a + b)[|a| + k] == b[k];
    }
  }

  lemma {:induction false} FailedCallsAppend(a: seq<Event>, b: seq<Event>, i: nat)
    ensures FailedCalls(a + b, i) == FailedCalls(a, i) + FailedCalls(b, i)
    decreases |b|
  {
    if b == [] {
      assert a + b == a;
    } else {
      FailedCallsAppend(a, b[..|b| - 1], i);
      assert (a + b)[..|a + b| - 1] == a + b[..|b| - 1];
    }
  }

  lemma {:induction false} NotAskedNotFailed(events: seq<Event>, i: nat)
    ensures !Asked(events, i) ==> FailedCalls(events, i) == []
    decreases |events|
  {
    if events != [] {
      NotAskedNotFailed(events[..|events| - 1], i);
      AskedThen(events[..|events| - 1], [events[|events| - 1]], i);
      assert events == events[..|events| - 1] + [events[|events| - 1]];
      assert [events[|events| - 1]][0] == events[|events| - 1];
    }
  }

  // ----- the clock

  /** How long ago something was, as a duration that can be held. */
  function Elapsed(now: nat, started: nat): Duration
    requires started <= now
  {
    Min(now - started, LONGEST_DURATION)
  }

  /** Whole milliseconds since the router was built, which is where the clock starts. */
  function Millis(now: nat): U64 {
    Min(Elapsed(now, 0) / NANOS_PER_MILLI, U64_MAX)
  }

  /** The world as a running program meets it, one effect at a time. */
  class Outside {
    const world: World
    var moment: Moment

    constructor (world: World, moment: Moment)
      ensures this.world == world && this.moment == moment
    {
      this.world := world;
      this.moment := moment;
    }

    method Now() returns (now: nat)
      modifies this
      ensures moment == world.Read(old(moment)) && now == moment.now
    {
      moment := world.Read(moment);
      now := moment.now;
    }

    method Call(route: nat, attempt: nat, sent: ChatRequest) returns (outcome: Outcome)
      modifies this
      ensures outcome == world.Outcome(old(moment), route)
      ensures moment == world.Call(old(moment), route, attempt, sent)
    {
      outcome := world.Outcome(moment, route);
      moment := world.Call(moment, route, attempt, sent);
    }

    method Sleep(wait: Duration)
      modifies this
      ensures moment == world.Sleep(old(moment), wait)
    {
      moment := world.Sleep(moment, wait);
    }
  }
}
