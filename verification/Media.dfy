/** A request that is not chat: a plan's routes, tried in order until one answers. What is asked for
    and what comes back are opaque here, and stood for by a chat request and reply. */
module Media {
  import opened Basics
  import opened Decimals
  import opened Reports
  import opened Replies
  import opened Retries
  import opened Surroundings
  import Routers

  /** A provider that is ready to call, and whether it has the endpoint this request needs. */
  datatype Built = Built(reach: Routers.Reach, endpoint: bool)

  datatype Plan = Plan(routes: seq<string>, attempts: U32, deadline: Option<Duration>, onDevice: bool)
  {
    function Attempts(): nat {
      Max(attempts, 1)
    }

    function Policy(): Retry {
      Retry(Attempts(), 250 * NANOS_PER_MILLI, 30_000 * NANOS_PER_MILLI, false)
    }
  }

  datatype Trouble = NotBuilt | CannotOnDevice | NoEndpoint | Failed(error: Error)

  /** Everything fixed while one request is looking for a route. */
  datatype Job = Job(
    plan: Plan,
    providers: map<string, Built>,
    world: World,
    asked: ChatRequest,
    onDevice: bool,
    started: nat)
  {
    predicate StaysOnDevice() {
      onDevice || plan.onDevice
    }
  }

  datatype Run = Run(m: Moment, fellThrough: seq<(string, Trouble)>, last: Option<Error>, attempts: nat)

  datatype Routed = Routed(value: ChatResponse, route: string, attempts: nat, fellThrough: seq<(string, Trouble)>)

  /** What a request comes to: an answer, an error, or that nothing could serve it. */
  datatype End = Served(routed: Routed) | Ended(error: Error) | NothingServes(tried: seq<(string, Trouble)>)

  datatype Step = Done(run: Run, end: End) | Next(run: Run)

  ghost predicate Ready(j: Job, r: Run) {
    j.started <= r.m.now
  }

  // ----- what a request does

  /** Whether waiting this long from now would reach the deadline. */
  function OutOfTime(j: Job, m: Moment, wait: Duration): (r: (bool, Moment))
    requires j.started <= m.now
    ensures Quiet(m, r.1)
    ensures !r.0 && j.plan.deadline.Some? ==> r.1.now < j.started + j.plan.deadline.value
  {
    if j.plan.deadline.None? then (false, m)
    else
      var m' := j.world.Read(m);
      (Min(Elapsed(m'.now, j.started) + wait, LONGEST_DURATION) >= j.plan.deadline.value, m')
  }

  function TimedOut(j: Job, r: Run): (s: Step)
    requires Ready(j, r)
    ensures s.Done? && Ready(j, s.run) && Quiet(r.m, s.run.m)
  {
    var m := j.world.Read(r.m);
    Done(r.(m := m), Ended(Timeout(Elapsed(m.now, j.started))))
  }

  function Note(j: Job, i: nat, trouble: Trouble, r: Run): Run
    requires i < |j.plan.routes|
  {
    r.(fellThrough := r.fellThrough + [(j.plan.routes[i], trouble)])
  }

  function Sending(j: Job, i: nat): ChatRequest
    requires i < |j.plan.routes| && SplitOnce(j.plan.routes[i], '/').Some?
  {
    j.asked.(model := SplitOnce(j.plan.routes[i], '/').value.1)
  }

  function Waiting(j: Job, m: Moment, attempt: nat, error: Error): (wait: Option<Duration>)
    ensures wait.Some? ==> attempt < j.plan.Attempts()
  {
    j.plan.Policy().WaitBefore(attempt + 1, error, j.world.jitter(m.calls))
  }

  datatype Turn = Settles(step: Step) | Again(run: Run)

  /** One attempt at a route that may be called. */
  function Once(j: Job, i: nat, attempt: nat, endpoint: bool, r: Run): (t: Turn)
    requires Ready(j, r) && i < |j.plan.routes| && SplitOnce(j.plan.routes[i], '/').Some?
    ensures t.Settles? ==> Ready(j, t.step.run)
    ensures t.Again? ==> Ready(j, t.run) && attempt < j.plan.Attempts()
  {
    var (late, m) := OutOfTime(j, r.m, 0);
    if late then Settles(TimedOut(j, r.(m := m)))
    else if !endpoint then Settles(Next(Note(j, i, NoEndpoint, r.(m := m))))
    else
      var outcome := j.world.Outcome(m, i);
      var asked := r.(m := j.world.Call(m, i, attempt, Sending(j, i)), attempts := r.attempts + 1);
      match outcome
      case Ok(value) =>
        Settles(Done(asked, Served(Routed(value, j.plan.routes[i], asked.attempts, asked.fellThrough))))
      case Err(error) =>
        if error.Refused? then Settles(Done(asked, Ended(error)))
        else
          var told := Note(j, i, Failed(error), asked);
          match Waiting(j, told.m, attempt, error)
          case None => Settles(Next(told.(last := Some(error))))
          case Some(wait) =>
            var (tooLate, m') := OutOfTime(j, told.m, wait);
            if tooLate then Settles(TimedOut(j, told.(m := m')))
            else Again(told.(m := j.world.Sleep(m', wait), last := Some(error)))
  }

  function Tries(j: Job, i: nat, attempt: nat, endpoint: bool, r: Run): (s: Step)
    requires Ready(j, r) && i < |j.plan.routes| && SplitOnce(j.plan.routes[i], '/').Some?
    requires attempt <= j.plan.Attempts()
    ensures Ready(j, s.run)
    decreases j.plan.Attempts() - attempt
  {
    match Once(j, i, attempt, endpoint, r)
    case Settles(step) => step
    case Again(next) => Tries(j, i, attempt + 1, endpoint, next)
  }

  /** One route: passed over in silence when its name has no slash, passed over with a reason when its
      provider is not there or is off a device the data may not leave, and tried otherwise. */
  function Visit(j: Job, i: nat, r: Run): (s: Step)
    requires Ready(j, r) && i < |j.plan.routes|
    ensures Ready(j, s.run)
  {
    match SplitOnce(j.plan.routes[i], '/')
    case None => Next(r)
    case Some((provider, _)) =>
      if provider !in j.providers then Next(Note(j, i, NotBuilt, r))
      else if j.StaysOnDevice() && !j.providers[provider].reach.OnDevice() then Next(Note(j, i, CannotOnDevice, r))
      else Tries(j, i, 1, j.providers[provider].endpoint, r)
  }

  /** What is left to do when no route is: the last error, or that nothing could serve. */
  function Exhausted(r: Run): End {
    match r.last
    case Some(error) => Ended(error)
    case None => NothingServes(r.fellThrough)
  }

  function Walk(j: Job, i: nat, r: Run): (Run, End)
    requires Ready(j, r) && i <= |j.plan.routes|
    decreases |j.plan.routes| - i
  {
    if i == |j.plan.routes| then (r, Exhausted(r))
    else
      match Visit(j, i, r)
      case Done(run, end) => (run, end)
      case Next(run) => Walk(j, i + 1, run)
  }

  function Begun(m: Moment): Run {
    Run(m, [], None, 0)
  }

  // ----- the same, as it is done

  class Gateway {
    const providers: map<string, Built>

    constructor (providers: map<string, Built>)
      ensures this.providers == providers
    {
      this.providers := providers;
    }

    method IsLate(j: Job, outside: Outside, wait: Duration) returns (late: bool)
      requires j.world == outside.world && j.started <= outside.moment.now
      modifies outside
      ensures (late, outside.moment) == OutOfTime(j, old(outside.moment), wait)
    {
      if j.plan.deadline.None? {
        return false;
      }
      var now := outside.Now();
      late := Min(Elapsed(now, j.started) + wait, LONGEST_DURATION) >= j.plan.deadline.value;
    }

    method StopNow(j: Job, outside: Outside, ghost r: Run) returns (end: End)
      requires j.world == outside.world && Ready(j, r) && r.m == outside.moment
      modifies outside
      ensures TimedOut(j, r) == Done(r.(m := outside.moment), end)
    {
      var now := outside.Now();
      end := Ended(Timeout(Elapsed(now, j.started)));
    }

    /** One attempt at one route: how it ended the request when it did, and otherwise whether the route is
        to be asked again. */
    method AskOnce(j: Job, i: nat, attempt: nat, built: Built, outside: Outside, ghost r: Run,
                   tried: seq<(string, Trouble)>, past: Option<Error>, before: nat)
      returns (end: Option<End>, again: bool, fellThrough: seq<(string, Trouble)>, last: Option<Error>, attempts: nat)
      requires j.world == outside.world && Ready(j, r) && r == Run(outside.moment, tried, past, before)
      requires i < |j.plan.routes| && SplitOnce(j.plan.routes[i], '/').Some?
      modifies outside
      ensures again ==> end.None?
      ensures Once(j, i, attempt, built.endpoint, r) ==
              var run := Run(outside.moment, fellThrough, last, attempts);
              if again then Again(run) else if end.Some? then Settles(Done(run, end.value)) else Settles(Next(run))
    {
      hide SplitOnce, Retry.WaitBefore, Elapsed;
      end, again, fellThrough, last, attempts := None, false, tried, past, before;
      var name := j.plan.routes[i];
      var late := IsLate(j, outside, 0);
      if late {
        var stopped := StopNow(j, outside, Run(outside.moment, fellThrough, last, attempts));
        end := Some(stopped);
        return;
      }
      if !built.endpoint {
        fellThrough := fellThrough + [(name, NoEndpoint)];
        return;
      }
      attempts := attempts + 1;
      var outcome := outside.Call(i, attempt, Sending(j, i));
      match outcome {
        case Ok(value) =>
          end := Some(Served(Routed(value, name, attempts, fellThrough)));
        case Err(error) =>
          if error.Refused? {
            end := Some(Ended(error));
            return;
          }
          fellThrough := fellThrough + [(name, Failed(error))];
          var waiting := j.plan.Policy().WaitBefore(attempt + 1, error, outside.world.jitter(outside.moment.calls));
          if waiting.None? {
            last := Some(error);
            return;
          }
          var tooLate := IsLate(j, outside, waiting.value);
          if tooLate {
            var stopped := StopNow(j, outside, Run(outside.moment, fellThrough, last, attempts));
            end := Some(stopped);
            return;
          }
          last := Some(error);
          again := true;
          outside.Sleep(waiting.value);
      }
    }

    /** Asks one route until it answers, is settled, or time runs out. Without an end the next route is
        to be tried. */
    method TryRoute(j: Job, i: nat, built: Built, outside: Outside, ghost r: Run,
                    tried: seq<(string, Trouble)>, past: Option<Error>, before: nat)
      returns (end: Option<End>, fellThrough: seq<(string, Trouble)>, last: Option<Error>, attempts: nat)
      requires j.world == outside.world && Ready(j, r) && r == Run(outside.moment, tried, past, before)
      requires i < |j.plan.routes| && SplitOnce(j.plan.routes[i], '/').Some?
      modifies outside
      ensures Ready(j, Run(outside.moment, fellThrough, last, attempts))
      ensures Tries(j, i, 1, built.endpoint, r) ==
              var run := Run(outside.moment, fellThrough, last, attempts);
              if end.Some? then Done(run, end.value) else Next(run)
    {
      hide SplitOnce, Once;
      end, fellThrough, last, attempts := None, tried, past, before;
      var allowed := Max(j.plan.attempts, 1);
      for attempt := 1 to allowed + 1
        invariant Ready(j, Run(outside.moment, fellThrough, last, attempts)) && attempt <= allowed && end.None?
        invariant Tries(j, i, attempt, built.endpoint, Run(outside.moment, fellThrough, last, attempts))
                  == Tries(j, i, 1, built.endpoint, r)
      {
        var again;
        end, again, fellThrough, last, attempts :=
          AskOnce(j, i, attempt, built, outside, Run(outside.moment, fellThrough, last, attempts), fellThrough, last, attempts);
        if !again {
          return;
        }
      }
    }

    /** Goes through the routes of a plan, one after another, up to the first answer. */
    method Serve(plan: Plan, onDevice: bool, asked: ChatRequest, outside: Outside) returns (end: End)
      modifies outside
      ensures var j := Job(plan, providers, outside.world, asked, onDevice, old(outside.moment).now);
              Walk(j, 0, Begun(old(outside.moment))).0.m == outside.moment && Walk(j, 0, Begun(old(outside.moment))).1 == end
    {
      hide Tries;
      var j := Job(plan, providers, outside.world, asked, onDevice, outside.moment.now);
      var fellThrough: seq<(string, Trouble)>, last, attemptsSoFar := [], None, 0;
      ghost var start := Begun(outside.moment);
      for i := 0 to |plan.routes|
        invariant Ready(j, Run(outside.moment, fellThrough, last, attemptsSoFar))
        invariant Walk(j, i, Run(outside.moment, fellThrough, last, attemptsSoFar)) == Walk(j, 0, start)
      {
        var split := SplitOnce(plan.routes[i], '/');
        if split.None? {
          continue;
        }
        if split.value.0 !in providers {
          fellThrough := fellThrough + [(plan.routes[i], NotBuilt)];
          continue;
        }
        var built := providers[split.value.0];
        if (onDevice || plan.onDevice) && !built.reach.OnDevice() {
          fellThrough := fellThrough + [(plan.routes[i], CannotOnDevice)];
          continue;
        }
        var ended;
        ended, fellThrough, last, attemptsSoFar :=
          TryRoute(j, i, built, outside, Run(outside.moment, fellThrough, last, attemptsSoFar), fellThrough, last, attemptsSoFar);
        if ended.Some? {
          end := ended.value;
          return;
        }
      }
      end := if last.Some? then Ended(last.value) else NothingServes(fellThrough);
    }
  }

  // ----- which calls it makes, and when

  /** A call this request may make: on a device when the data must stay on one, to an endpoint that is
      there, for the model the route names, and before the deadline. */
  predicate Proper(j: Job, e: Event) {
    e.Called? ==>
      && e.route < |j.plan.routes|
      && SplitOnce(j.plan.routes[e.route], '/').Some?
      && var (provider, model) := SplitOnce(j.plan.routes[e.route], '/').value;
      && provider in j.providers && j.providers[provider].endpoint
      && (j.onDevice || j.plan.onDevice ==> j.providers[provider].reach == Routers.SelfHosted)
      && e.sent == j.asked.(model := model)
      && 1 <= e.attempt && (e.attempt == 1 || e.attempt <= j.plan.attempts)
      && (j.plan.deadline.Some? ==> e.at < j.started + j.plan.deadline.value)
  }

  /** Where a call stands in a plan: its route, and its attempt at it. */
  predicate Before(a: (nat, nat), b: (nat, nat)) {
    a.0 < b.0 || (a.0 == b.0 && a.1 < b.1)
  }

  predicate Within(e: Event, from: (nat, nat), to: (nat, nat)) {
    e.Called? ==> !Before((e.route, e.attempt), from) && Before((e.route, e.attempt), to)
  }

  predicate Later(a: Event, b: Event) {
    a.Called? && b.Called? ==> Before((a.route, a.attempt), (b.route, b.attempt))
  }

  /** What is added to a trace: proper calls between two places of a plan, in its order, with nothing
      after an answer or a refusal; `going` says that not even the last is one. */
  ghost predicate Adds(j: Job, from: (nat, nat), to: (nat, nat), before: seq<Event>, after: seq<Event>, going: bool) {
    && before <= after
    && (forall k :: |before| <= k < |after| ==>
          Proper(j, after[k]) && Within(after[k], from, to) && (going ==> Unsettled(after[k])))
    && (forall k, l :: |before| <= k < l < |after| ==>
          Later(after[k], after[l]) && (after[l].Called? ==> Unsettled(after[k])))
  }

  lemma AddsThen(j: Job, a: (nat, nat), b: (nat, nat), c: (nat, nat), x: seq<Event>, y: seq<Event>, z: seq<Event>, going: bool)
    requires Adds(j, a, b, x, y, true) && Adds(j, b, c, y, z, going)
    requires !Before(b, a) && !Before(c, b)
    ensures Adds(j, a, c, x, z, going)
  {
    hide Proper;
    assert forall k :: 0 <= k < |y| ==> y[k] == z[k];
    forall k | |x| <= k < |z|
      ensures Proper(j, z[k]) && Within(z[k], a, c) && (going ==> Unsettled(z[k]))
    {
      assert k < |y| ==> Within(y[k], a, b);
    }
    forall k, l | |x| <= k < l < |z|
      ensures Later(z[k], z[l]) && (z[l].Called? ==> Unsettled(z[k]))
    {
      if k < |y| <= l {
        assert Within(y[k], a, b) && Within(z[l], b, c);
      }
    }
  }

  // ----- how many, and the last of them

  function LastCall(trace: seq<Event>): Option<Event> {
    if trace == [] then None
    else if trace[|trace| - 1].Called? then Some(trace[|trace| - 1])
    else LastCall(trace[..|trace| - 1])
  }

  lemma LastCallOneMore(trace: seq<Event>, e: Event)
    ensures LastCall(trace + [e]) == if e.Called? then Some(e) else LastCall(trace)
  {
    assert (trace + [e])[..|trace|] == trace;
  }

  predicate LastFailedWith(trace: seq<Event>, error: Error) {
    var e := LastCall(trace);
    e.Some? && e.value.Called? && e.value.outcome == Err(error)
  }

  /** The run counts its calls, and knows the error of the last, if there was one. */
  ghost predicate Honest(r: Run, before: nat) {
    && before + r.attempts == Calls(r.m.trace)
    && (r.last.None? ==> r.attempts == 0)
    && (r.last.Some? ==> LastFailedWith(r.m.trace, r.last.value))
  }

  ghost predicate Reaches(j: Job, checked: nat, wait: Duration)
    requires j.plan.deadline.Some?
  {
    j.started <= checked && Elapsed(checked, j.started) + wait >= j.plan.deadline.value
  }

  /** Why a request runs out of time: the deadline is reached, or the last thing that happened was a failed
      call whose wait would have reached it. */
  ghost predicate RanOut(j: Job, m: Moment, elapsed: Duration) {
    && j.plan.deadline.Some? && j.started <= m.now
    && elapsed == Elapsed(m.now, j.started)
    && (elapsed >= j.plan.deadline.value
        || (&& m.trace != []
            && var e := m.trace[|m.trace| - 1];
            && e.Called? && e.outcome.Err? && Waiting(j, m, e.attempt, e.outcome.error).Some?
            && exists checked: nat ::
                 e.at <= checked <= m.now && Reaches(j, checked, Waiting(j, m, e.attempt, e.outcome.error).value)))
  }

  lemma LateReaches(j: Job, m: Moment, wait: Duration)
    requires j.started <= m.now
    ensures var (late, m') := OutOfTime(j, m, wait);
            late ==> j.plan.deadline.Some? && Reaches(j, m'.now, wait)
  {
  }

  lemma LateRunsOut(j: Job, r: Run, checked: nat)
    requires Ready(j, r) && j.plan.deadline.Some? && checked <= r.m.now && Reaches(j, checked, 0)
    ensures var s := TimedOut(j, r);
            s.end == Ended(Timeout(Elapsed(s.run.m.now, j.started))) && RanOut(j, s.run.m, s.end.error.elapsed)
  {
    hide Waiting;
  }

  lemma WaitRunsOut(j: Job, r: Run, checked: nat, called: Event)
    requires Ready(j, r) && j.plan.deadline.Some? && checked <= r.m.now
    requires r.m.trace != [] && r.m.trace[|r.m.trace| - 1] == called && called.Called? && called.outcome.Err?
    requires called.at <= checked && Waiting(j, r.m, called.attempt, called.outcome.error).Some?
    requires Reaches(j, checked, Waiting(j, r.m, called.attempt, called.outcome.error).value)
    ensures var s := TimedOut(j, r);
            s.end == Ended(Timeout(Elapsed(s.run.m.now, j.started))) && RanOut(j, s.run.m, s.end.error.elapsed)
  {
    hide Retry.WaitBefore, Elapsed;
    var s := TimedOut(j, r);
    assert Waiting(j, s.run.m, called.attempt, called.outcome.error) == Waiting(j, r.m, called.attempt, called.outcome.error);
  }

  /** An answer is the last call's. An error is too, unless the deadline ended the request. Nothing
      could serve only when nothing was called. */
  ghost predicate Concludes(j: Job, r: Run, end: End, before: nat) {
    && before + r.attempts == Calls(r.m.trace)
    && match end
       case Served(routed) =>
         var e := LastCall(r.m.trace);
         && e.Some? && e.value.Called? && e.value.route < |j.plan.routes|
         && e.value.outcome == Ok(routed.value)
         && routed == Routed(routed.value, j.plan.routes[e.value.route], r.attempts, r.fellThrough)
       case Ended(error) => (error.Timeout? && RanOut(j, r.m, error.elapsed)) || LastFailedWith(r.m.trace, error)
       case NothingServes(tried) => r.attempts == 0 && tried == r.fellThrough
  }

  /** Whether a request was ended by its deadline. */
  ghost predicate GaveUp(j: Job, m: Moment, end: End) {
    end.Ended? && end.error.Timeout? && RanOut(j, m, end.error.elapsed)
  }

  ghost predicate Leaves(j: Job, s: Step, before: nat) {
    if s.Done? then
      && Concludes(j, s.run, s.end, before)
      && (s.end.Served? || (s.end.Ended? && s.end.error.Refused?) || GaveUp(j, s.run.m, s.end))
    else Honest(s.run, before)
  }

  // ----- every request

  ghost predicate MayAsk(j: Job, i: nat, endpoint: bool) {
    && i < |j.plan.routes|
    && SplitOnce(j.plan.routes[i], '/').Some?
    && var provider := SplitOnce(j.plan.routes[i], '/').value.0;
    && provider in j.providers && endpoint == j.providers[provider].endpoint
    && (j.StaysOnDevice() ==> j.providers[provider].reach.OnDevice())
  }

  /** One attempt adds at most a call and a wait. */
  lemma OnceAdds(j: Job, i: nat, attempt: nat, endpoint: bool, r: Run, before: nat)
    requires Ready(j, r) && MayAsk(j, i, endpoint) && 1 <= attempt <= j.plan.Attempts() && Honest(r, before)
    ensures match Once(j, i, attempt, endpoint, r)
            case Settles(step) =>
              && Adds(j, (i, attempt), (i, attempt + 1), r.m.trace, step.run.m.trace, step.Next?)
              && Leaves(j, step, before)
            case Again(run) =>
              && Adds(j, (i, attempt), (i, attempt + 1), r.m.trace, run.m.trace, true)
              && Honest(run, before)
  {
    hide SplitOnce, Elapsed, Calls, LastCall, Waiting, Adds, RanOut, Reaches;
    var (late, m) := OutOfTime(j, r.m, 0);
    LateReaches(j, r.m, 0);
    if late {
      LateRunsOut(j, r.(m := m), m.now);
    }
    NothingAdded(j, (i, attempt), (i, attempt + 1), r.m.trace);
    if !late && endpoint {
      var called := Called(i, attempt, Sending(j, i), m.now, j.world.Outcome(m, i));
      assert Proper(j, called);
      OneMoreEvent(r.m.trace, called);
      LastCallOneMore(r.m.trace, called);
      CallAdded(j, called, r.m.trace);
      var asked := j.world.Call(m, i, attempt, Sending(j, i));
      assert asked.trace == r.m.trace + [called];
      if called.outcome.Err? && !called.outcome.error.Refused? {
        var waiting := Waiting(j, asked, attempt, called.outcome.error);
        if waiting.Some? {
          OneMoreEvent(asked.trace, Slept(waiting.value));
          LastCallOneMore(asked.trace, Slept(waiting.value));
          WaitAdded(j, called, r.m.trace, Slept(waiting.value));
          LateReaches(j, asked, waiting.value);
          var (tooLate, m') := OutOfTime(j, asked, waiting.value);
          if tooLate {
            WaitIsTheSame(j, asked, m', attempt, called.outcome.error);
            WaitRunsOut(j, Note(j, i, Failed(called.outcome.error), Run(m', r.fellThrough, r.last, r.attempts + 1)), m'.now, called);
          }
        }
      }
    }
  }

  lemma WaitIsTheSame(j: Job, m: Moment, m': Moment, attempt: nat, error: Error)
    requires m.calls == m'.calls
    ensures Waiting(j, m, attempt, error) == Waiting(j, m', attempt, error)
  {
  }

  lemma NothingAdded(j: Job, from: (nat, nat), to: (nat, nat), trace: seq<Event>)
    ensures Adds(j, from, to, trace, trace, true) && Adds(j, from, to, trace, trace, false)
  {
  }

  lemma CallAdded(j: Job, called: Event, trace: seq<Event>)
    requires called.Called? && Proper(j, called)
    ensures var place := (called.route, called.attempt);
            Adds(j, place, (place.0, place.1 + 1), trace, trace + [called], false)
    ensures var place := (called.route, called.attempt);
            Unsettled(called) ==> Adds(j, place, (place.0, place.1 + 1), trace, trace + [called], true)
  {
    hide Proper;
  }

  lemma WaitAdded(j: Job, called: Event, trace: seq<Event>, wait: Event)
    requires called.Called? && Proper(j, called) && Unsettled(called) && wait.Slept?
    ensures var place := (called.route, called.attempt);
            && Adds(j, place, (place.0, place.1 + 1), trace, trace + [called] + [wait], true)
            && Adds(j, place, (place.0, place.1 + 1), trace, trace + [called] + [wait], false)
  {
  }

  lemma {:induction false} TriesAdds(j: Job, i: nat, attempt: nat, endpoint: bool, r: Run, before: nat)
    requires Ready(j, r) && MayAsk(j, i, endpoint) && 1 <= attempt <= j.plan.Attempts() && Honest(r, before)
    ensures var s := Tries(j, i, attempt, endpoint, r);
            Adds(j, (i, attempt), (i + 1, 0), r.m.trace, s.run.m.trace, s.Next?) && Leaves(j, s, before)
    decreases j.plan.Attempts() - attempt
  {
    hide Once, Honest, Concludes, Proper, Adds;
    OnceAdds(j, i, attempt, endpoint, r, before);
    match Once(j, i, attempt, endpoint, r) {
      case Settles(step) =>
        AddsUpTo(j, (i, attempt), (i, attempt + 1), (i + 1, 0), r.m.trace, step.run.m.trace, step.Next?);
      case Again(run) =>
        TriesAdds(j, i, attempt + 1, endpoint, run, before);
        var s := Tries(j, i, attempt + 1, endpoint, run);
        AddsThen(j, (i, attempt), (i, attempt + 1), (i + 1, 0), r.m.trace, run.m.trace, s.run.m.trace, s.Next?);
    }
  }

  lemma AddsUpTo(j: Job, a: (nat, nat), b: (nat, nat), c: (nat, nat), x: seq<Event>, y: seq<Event>, going: bool)
    requires Adds(j, a, b, x, y, going) && !Before(c, b)
    ensures Adds(j, a, c, x, y, going)
  {
    hide Proper;
  }

  lemma VisitAdds(j: Job, i: nat, r: Run, before: nat)
    requires Ready(j, r) && i < |j.plan.routes| && Honest(r, before)
    ensures var s := Visit(j, i, r);
            Adds(j, (i, 0), (i + 1, 0), r.m.trace, s.run.m.trace, s.Next?) && Leaves(j, s, before)
  {
    hide Tries, Concludes;
    match SplitOnce(j.plan.routes[i], '/') {
      case None =>
      case Some((provider, _)) =>
        if provider in j.providers && MayAsk(j, i, j.providers[provider].endpoint) {
          TriesAdds(j, i, 1, j.providers[provider].endpoint, r, before);
          var s := Tries(j, i, 1, j.providers[provider].endpoint, r);
          AddsFrom(j, (i, 1), (i, 0), (i + 1, 0), r.m.trace, s.run.m.trace, s.Next?);
        }
    }
  }

  lemma AddsFrom(j: Job, a: (nat, nat), b: (nat, nat), c: (nat, nat), x: seq<Event>, y: seq<Event>, going: bool)
    requires Adds(j, a, c, x, y, going) && !Before(a, b)
    ensures Adds(j, b, c, x, y, going)
  {
    hide Proper;
  }

  lemma {:induction false} WalkAdds(j: Job, i: nat, r: Run, before: nat)
    requires Ready(j, r) && i <= |j.plan.routes| && Honest(r, before)
    ensures var (run, end) := Walk(j, i, r);
            && Adds(j, (i, 0), (|j.plan.routes|, 0), r.m.trace, run.m.trace, false)
            && Concludes(j, run, end, before)
    decreases |j.plan.routes| - i
  {
    if i < |j.plan.routes| {
      hide Visit, Adds, Concludes, Honest;
      VisitAdds(j, i, r, before);
      match Visit(j, i, r) {
        case Done(run, end) =>
          AddsUpTo(j, (i, 0), (i + 1, 0), (|j.plan.routes|, 0), r.m.trace, run.m.trace, false);
        case Next(run) =>
          WalkAdds(j, i + 1, run, before);
          AddsThen(j, (i, 0), (i + 1, 0), (|j.plan.routes|, 0), r.m.trace, run.m.trace, Walk(j, i + 1, run).0.m.trace, false);
      }
    }
  }

  /** Every call a request makes is one it may make and starts before the deadline, however long the
      waits turn out to be; the calls follow the plan; nothing follows an answer or a refusal; and the
      request ends with what its last call said, unless time ran out or there was none. */
  lemma RequestIsProper(j: Job, m: Moment)
    requires j.started <= m.now
    ensures var (run, end) := Walk(j, 0, Begun(m));
            && Adds(j, (0, 0), (|j.plan.routes|, 0), m.trace, run.m.trace, false)
            && Concludes(j, run, end, Calls(m.trace))
  {
    WalkAdds(j, 0, Begun(m), Calls(m.trace));
  }
}
