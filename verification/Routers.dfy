/** The routing loop, over routes to several providers.

    `Walk`, `Visit` and `Tries` say what a request does to a router, as a function of where it
    starts and of the world it meets. `Router.Attempt` is the code that does it. */
module Routers {
  import opened Basics
  import opened Reports
  import opened Replies
  import opened Usages
  import opened Pricing
  import opened Budgets
  import opened Breakers
  import opened Retries
  import opened Surroundings

  // ----- what a route can do and what a request needs

  datatype Reach = FirstPartyApi | CloudPartner | PrivateEndpoint | SelfHosted
  {
    predicate OnDevice() {
      SelfHosted?
    }
  }

  datatype Capabilities = Capabilities(
    tools: bool,
    structuredOutput: bool,
    promptCaching: bool,
    thinking: bool,
    images: bool,
    documents: bool,
    audio: bool,
    streaming: bool,
    reach: Reach)

  datatype Requirements = Requirements(
    tools: bool,
    structuredOutput: bool,
    promptCaching: bool,
    thinking: bool,
    images: bool,
    documents: bool,
    audio: bool,
    streaming: bool,
    mustStayOnDevice: bool)
  {
    /** Whether nothing asked for is missing. */
    predicate MetBy(have: Capabilities) {
      && (mustStayOnDevice ==> have.reach.OnDevice())
      && (tools ==> have.tools)
      && (structuredOutput ==> have.structuredOutput)
      && (promptCaching ==> have.promptCaching)
      && (thinking ==> have.thinking)
      && (streaming ==> have.streaming)
      && (images ==> have.images)
      && (documents ==> have.documents)
      && (audio ==> have.audio)
    }

    /** The names of everything asked for and not had. */
    function UnmetBy(have: Capabilities): (missing: seq<string>)
      ensures missing == [] <==> MetBy(have)
    {
      Unless(mustStayOnDevice, have.reach.OnDevice(), "on-device")
      + Unless(tools, have.tools, "tools")
      + Unless(structuredOutput, have.structuredOutput, "structured_output")
      + Unless(promptCaching, have.promptCaching, "prompt_caching")
      + Unless(streaming, have.streaming, "streaming")
      + Unless(thinking, have.thinking, "thinking")
      + Unless(images, have.images, "images")
      + Unless(documents, have.documents, "documents")
      + Unless(audio, have.audio, "audio")
    }
  }

  /** What a route can be missing, by name. */
  predicate Lacks(needs: Requirements, have: Capabilities, name: string) {
    || (name == "on-device" && needs.mustStayOnDevice && have.reach != SelfHosted)
    || (name == "tools" && needs.tools && !have.tools)
    || (name == "structured_output" && needs.structuredOutput && !have.structuredOutput)
    || (name == "prompt_caching" && needs.promptCaching && !have.promptCaching)
    || (name == "streaming" && needs.streaming && !have.streaming)
    || (name == "thinking" && needs.thinking && !have.thinking)
    || (name == "images" && needs.images && !have.images)
    || (name == "documents" && needs.documents && !have.documents)
    || (name == "audio" && needs.audio && !have.audio)
  }

  /** Exactly what is asked for and not had is listed, each under its own name, and requirements are met when there
      is no such thing. */
  lemma MissingIsNamed(needs: Requirements, have: Capabilities)
    ensures forall name :: name in needs.UnmetBy(have) <==> Lacks(needs, have, name)
    ensures needs.MetBy(have) <==> forall name :: !Lacks(needs, have, name)
  {
    hide Lacks, Requirements.MetBy, Requirements.UnmetBy;
    forall name ensures name in needs.UnmetBy(have) <==> Lacks(needs, have, name) {
      OneIsNamed(needs, have, name);
    }
    if needs.UnmetBy(have) != [] {
      assert needs.UnmetBy(have)[0] in needs.UnmetBy(have);
    }
  }

  lemma OneIsNamed(needs: Requirements, have: Capabilities, name: string)
    ensures name in needs.UnmetBy(have) <==> Lacks(needs, have, name)
  {
    hide Unless;
    NamedWhenLacking(needs.mustStayOnDevice, have.reach.OnDevice(), "on-device", name);
    NamedWhenLacking(needs.tools, have.tools, "tools", name);
    NamedWhenLacking(needs.structuredOutput, have.structuredOutput, "structured_output", name);
    NamedWhenLacking(needs.promptCaching, have.promptCaching, "prompt_caching", name);
    NamedWhenLacking(needs.streaming, have.streaming, "streaming", name);
    NamedWhenLacking(needs.thinking, have.thinking, "thinking", name);
    NamedWhenLacking(needs.images, have.images, "images", name);
    NamedWhenLacking(needs.documents, have.documents, "documents", name);
    NamedWhenLacking(needs.audio, have.audio, "audio", name);
  }

  lemma NamedWhenLacking(wanted: bool, had: bool, other: string, name: string)
    ensures name in Unless(wanted, had, other) <==> wanted && !had && name == other
  {
  }

  function Unless(wanted: bool, had: bool, name: string): seq<string> {
    if wanted && !had then [name] else []
  }

  /** A model at a provider. Without capabilities, the provider does not know the model. */
  datatype Route = Route(
    provider: string,
    model: string,
    capabilities: Option<Capabilities>,
    prices: Option<PriceBook>)
  {
    function Name(): string {
      provider + "/" + model
    }

    function RateOf(): Option<Rate> {
      if prices.None? then None else prices.value.RateOf(model)
    }
  }

  datatype Order = AsListed | Cheapest | Healthiest

  /** A router's routes and the policies it was built with. */
  datatype Setup = Setup(
    routes: seq<Route>,
    retry: Option<Retry>,
    breaker: Option<Breaker>,
    budget: Option<Budget>,
    deadline: Option<Duration>,
    order: Order)
  {
    ghost predicate Valid() {
      retry.Some? ==> retry.value.Valid()
    }

    /** How many times one route may be asked. */
    function Allowed(): nat {
      if retry.None? then 1 else retry.value.attempts
    }
  }

  // ----- which route is reached for first

  /** What a route is sorted by: whether it belongs with the routes nothing is known about, and
      then a number. */
  datatype Key = Key(unknown: bool, rank: int)
  {
    predicate Before(other: Key) {
      (!unknown && other.unknown) || (unknown == other.unknown && rank < other.rank)
    }
  }

  function KeyOf(setup: Setup, health: seq<HealthState>, i: nat): Key
    requires i < |setup.routes| == |health|
  {
    match setup.order
    case AsListed => Key(false, 0)
    case Cheapest =>
      (match setup.routes[i].RateOf()
       case None => Key(true, 0)
       case Some(rate) => Key(false, SatAdd(rate.input, rate.output)))
    case Healthiest => Key(false, health[i].failures)
  }

  /** The routes by index, sorted by key with ties in the order they were written. */
  function ReachingOrder(setup: Setup, health: seq<HealthState>): seq<nat>
    requires |setup.routes| == |health|
    ensures Indices(ReachingOrder(setup, health), |health|)
  {
    SortedUpTo(setup, health, |setup.routes|)
  }

  function SortedUpTo(setup: Setup, health: seq<HealthState>, n: nat): (order: seq<nat>)
    requires n <= |setup.routes| == |health|
    ensures Indices(order, n)
  {
    if n == 0 then [] else Insert(setup, health, SortedUpTo(setup, health, n - 1), n - 1)
  }

  function Insert(setup: Setup, health: seq<HealthState>, order: seq<nat>, i: nat): (inserted: seq<nat>)
    requires |setup.routes| == |health| && i < |health|
    requires Indices(order, i)
    ensures Indices(inserted, i + 1)
  {
    if order != [] && KeyOf(setup, health, i).Before(KeyOf(setup, health, order[|order| - 1]))
    then Insert(setup, health, order[..|order| - 1], i) + [order[|order| - 1]]
    else order + [i]
  }

  // ----- what a budget says before a request goes out

  /** What a budget has against a route, if anything. */
  function Unaffordable(budget: Option<Budget>, spent: I64, route: Route, request: ChatRequest)
    : Option<Broke>
  {
    if budget.None? then None
    else
      var left := Remaining(budget.value.cap, spent);
      if left == 0 then Some(Spent)
      else if route.prices.None? then WithoutAPrice(budget.value, NoBook)
      else if route.prices.value.currency != budget.value.currency
      then Some(OtherCurrency(route.prices.value.currency))
      else if route.RateOf().None? then WithoutAPrice(budget.value, NotListed)
      else if request.maxTokens.Some? &&
              MostAReplyCanCost(request.maxTokens.value, route.RateOf().value) > left
      then Some(ReplyTooDear(MostAReplyCanCost(request.maxTokens.value, route.RateOf().value), left))
      else None
  }

  function WithoutAPrice(budget: Budget, why: Broke): Option<Broke> {
    if budget.unpriced.Refused? then Some(why) else None
  }

  // ----- one request

  /** Everything fixed while one request is looking for a route. */
  datatype Job = Job(
    setup: Setup,
    world: World,
    spent: I64,
    request: ChatRequest,
    needs: Requirements,
    started: nat)

  /** Where a request has got to. */
  datatype Run = Run(
    m: Moment,
    health: seq<HealthState>,
    fellThrough: seq<Attempted>,
    last: Option<Error>,
    attempts: nat,
    resting: nat,
    overBudget: nat)

  datatype Verdict =
    | Answered(response: ChatResponse, route: nat)
    | Failed(error: Error)
    | GaveUp(elapsed: Duration)

  datatype Step = Done(run: Run, verdict: Verdict) | Next(run: Run)

  ghost predicate Ready(j: Job, r: Run) {
    && j.setup.Valid()
    && |r.health| == |j.setup.routes|
    && j.started <= r.m.now
  }

  function PassOver(j: Job, i: nat, why: Why, r: Run): Run
    requires i < |j.setup.routes|
  {
    r.(fellThrough := r.fellThrough + [Attempted(j.setup.routes[i].Name(), why)])
  }

  /** Whether waiting this long from now would reach the deadline, and the reading of the clock
      it takes to know. Without a deadline the clock is not read. */
  function NoRoomFor(j: Job, m: Moment, wait: Duration): (r: (bool, Moment))
    requires j.started <= m.now
    ensures Quiet(m, r.1) && (r.0 ==> j.setup.deadline.Some?)
  {
    if j.setup.deadline.None? then (false, m)
    else
      var m' := j.world.Read(m);
      (Min(Elapsed(m'.now, j.started) + wait, LONGEST_DURATION) >= j.setup.deadline.value, m')
  }

  function GiveUp(j: Job, r: Run): (s: Step)
    requires Ready(j, r)
    ensures s.Done? && s.verdict.GaveUp? && Ready(j, s.run) && Quiet(r.m, s.run.m)
    ensures s.run == r.(m := s.run.m)
  {
    var m := j.world.Read(r.m);
    Done(r.(m := m), GaveUp(Elapsed(m.now, j.started)))
  }

  function CountFailure(j: Job, i: nat, error: Error, r: Run): (r': Run)
    requires Ready(j, r) && i < |r.health|
    ensures Ready(j, r') && Quiet(r.m, r'.m)
    ensures r' == r.(m := r'.m, health := r'.health)
  {
    var (h, m) := Recorded(j.setup.breaker, j.world, r.m, r.health[i], error);
    r.(health := r.health[i := h], m := m)
  }

  function Waiting(j: Job, r: Run, attempt: nat, error: Error): Option<Duration>
    requires j.setup.Valid()
  {
    if j.setup.retry.None? then None
    else j.setup.retry.value.WaitBefore(attempt + 1, error, j.world.jitter(r.m.calls))
  }

  /** An answer is given by the route that was asked. */
  ghost predicate AnsweredBy(verdict: Verdict, i: nat) {
    verdict.Answered? ==> verdict.route == i
  }

  /** How one attempt leaves a request: done with this route, or about to ask it again. */
  datatype Turn = Settles(step: Step) | Again(run: Run)

  /** One attempt at one route, and the wait before the next when there is to be one. */
  function Once(j: Job, i: nat, attempt: nat, r: Run): (t: Turn)
    requires Ready(j, r) && i < |r.health|
    requires 1 <= attempt <= j.setup.Allowed()
    ensures t.Settles? ==> Ready(j, t.step.run) && (t.step.Done? ==> AnsweredBy(t.step.verdict, i))
    ensures t.Again? ==> Ready(j, t.run) && attempt < j.setup.Allowed()
  {
    var sending := j.request.(model := j.setup.routes[i].model);
    var outcome := j.world.Outcome(r.m, i);
    var asked := r.(m := j.world.Call(r.m, i, attempt, sending), attempts := r.attempts + 1);
    match outcome
    case Ok(response) =>
      Settles(Done(asked.(health := asked.health[i := HEALTHY]), Answered(response, i)))
    case Err(error) =>
      if error.Refused? then Settles(Done(CountFailure(j, i, error, asked), Failed(error)))
      else
        match Waiting(j, asked, attempt, error)
        case None =>
          var told := PassOver(j, i, Failing(error), asked);
          Settles(Next(CountFailure(j, i, error, told).(last := Some(error))))
        case Some(wait) =>
          var told := PassOver(j, i, TryingAgain(error, attempt, j.setup.Allowed(), wait), asked);
          var (late, m) := NoRoomFor(j, told.m, wait);
          if late then Settles(GiveUp(j, CountFailure(j, i, error, told.(m := m))))
          else Again(told.(m := j.world.Sleep(m, wait), last := Some(error)))
  }

  /** Asks one route, from this attempt on, until it answers, is settled, or time runs out. */
  function Tries(j: Job, i: nat, attempt: nat, r: Run): (s: Step)
    requires Ready(j, r) && i < |r.health|
    requires 1 <= attempt <= j.setup.Allowed()
    ensures Ready(j, s.run) && (s.Done? ==> AnsweredBy(s.verdict, i))
    decreases j.setup.Allowed() - attempt
  {
    match Once(j, i, attempt, r)
    case Settles(step) => step
    case Again(next) => Tries(j, i, attempt + 1, next)
  }

  /** Why a route is passed over before anything is sent, if it is: it does not know the model,
      cannot do what is needed, is resting, or is past the budget, asked in that order. */
  function Check(j: Job, i: nat, r: Run): (Option<Why>, Moment)
    requires Ready(j, r) && i < |r.health|
  {
    var route := j.setup.routes[i];
    if route.capabilities.None? then (Some(UnknownModel), r.m)
    else if j.needs.UnmetBy(route.capabilities.value) != []
    then (Some(Cannot(j.needs.UnmetBy(route.capabilities.value))), r.m)
    else
      var (left, m) := SkippedFor(j.world, r.m, r.health[i]);
      if left.Some? then (Some(Resting(left.value, r.health[i].denied, r.health[i].failures)), m)
      else
        match Unaffordable(j.setup.budget, j.spent, route, j.request)
        case Some(broke) => (Some(NoMoney(broke)), m)
        case None => (None, m)
  }

  /** Everything one route does with a request: the checks, and then the asking. */
  function Visit(j: Job, i: nat, r: Run): (s: Step)
    requires Ready(j, r) && i < |r.health|
    ensures Ready(j, s.run) && (s.Done? ==> AnsweredBy(s.verdict, i))
  {
    var (why, m) := Check(j, i, r);
    match why
    case Some(why) =>
      Next(PassOver(j, i, why, r).(
           m := m,
           resting := r.resting + if why.Resting? then 1 else 0,
           overBudget := r.overBudget + if why.NoMoney? then 1 else 0))
    case None =>
      var (late, m') := NoRoomFor(j, m, 0);
      if late then GiveUp(j, r.(m := m')) else Tries(j, i, 1, r.(m := m'))
  }

  /** The answer when every route has been passed over or asked. */
  function Exhausted(last: Option<Error>, overBudget: nat, resting: nat, tried: seq<Attempted>): Verdict {
    if last.Some? then Failed(last.value)
    else if overBudget > 0 then Failed(OverBudget(NothingAffordable(tried)))
    else if resting > 0 then Failed(Transient(EveryRouteResting(tried)))
    else Failed(Unsupported(NoRouteCanServe(tried)))
  }

  ghost predicate Indices(order: seq<nat>, n: nat) {
    forall p :: 0 <= p < |order| ==> order[p] < n
  }

  function Walk(j: Job, order: seq<nat>, r: Run): (Run, Verdict)
    requires Ready(j, r) && Indices(order, |r.health|)
    decreases |order|
  {
    if order == [] then (r, Exhausted(r.last, r.overBudget, r.resting, r.fellThrough))
    else
      match Visit(j, order[0], r)
      case Done(r', verdict) => (r', verdict)
      case Next(r') => Walk(j, order[1..], r')
  }

  lemma WalkFrom(j: Job, order: seq<nat>, at: nat, r: Run)
    requires Ready(j, r) && Indices(order, |r.health|) && at < |order|
    ensures Walk(j, order[at..], r) ==
            match Visit(j, order[at], r)
            case Done(r', verdict) => (r', verdict)
            case Next(r') => Walk(j, order[at + 1..], r')
  {
    assert order[at..][0] == order[at] && order[at..][1..] == order[at + 1..];
  }

  /** A request, from the moment it starts. */
  function Start(m: Moment, health: seq<HealthState>): Run {
    Run(m, health, [], None, 0, 0, 0)
  }

  /** A request seen through: which route is reached for first, and then the walk. */
  function Journey(j: Job, m: Moment, health: seq<HealthState>): (Run, Verdict)
    requires Ready(j, Start(m, health))
  {
    Walk(j, ReachingOrder(j.setup, health), Start(m, health))
  }

  /** An answer with its history: the route, the lines about the others, the calls. */
  datatype Routed = Routed(
    response: ChatResponse,
    route: string,
    fellThrough: seq<Attempted>,
    attempts: nat)

  function AnswerTo(routes: seq<Route>, fellThrough: seq<Attempted>, attempts: nat, verdict: Verdict)
    : Result<Routed, Error>
    requires verdict.Answered? ==> verdict.route < |routes|
  {
    match verdict
    case Answered(response, i) =>
      Ok(Routed(response, routes[i].Name(), fellThrough, attempts))
    case Failed(error) => Err(error)
    case GaveUp(elapsed) => Err(Timeout(elapsed))
  }

  // ----- what a check at startup does

  /** What a provider says of a model without being asked for a token: it can be reached, it cannot,
      or that could not be found out. */
  datatype Access = Granted | Denied(reason: string) | Unknown(reason: string)

  /** The health of the first `n` routes' being checked, and how far the clock was read for it. Only a
      denial is acted on, and only under a breaker. */
  function Checked(setup: Setup, w: World, m: Moment, health: seq<HealthState>, answers: seq<Access>, n: nat)
    : (r: (seq<HealthState>, Moment))
    requires n <= |answers| == |health|
    ensures |r.0| == |health| && Quiet(m, r.1)
  {
    if n == 0 then (health, m)
    else
      var (before, now) := Checked(setup, w, m, health, answers, n - 1);
      if answers[n - 1].Denied? && setup.breaker.Some? then
        var later := w.Read(now);
        (before[n - 1 := before[n - 1].CloseFor(setup.breaker.value.settled, later.now).(denied := true)], later)
      else (before, now)
  }

  // ----- what a completed call costs a budget

  /** What a call cost against the book of the first route with this name, in the budget's
      currency, when that can be known. */
  function PriceAgainst(setup: Setup, name: string, model: string, usage: Usage): Option<I64> {
    if setup.budget.None? then None
    else
      var found := FirstNamed(setup.routes, name);
      if found.None? || found.value.prices.None? then None
      else if found.value.prices.value.currency != setup.budget.value.currency then None
      else
        match found.value.prices.value.Price(model, usage)
        case None => None
        case Some(priced) => Some(priced.amount)
  }

  function FirstNamed(routes: seq<Route>, name: string): Option<Route> {
    if routes == [] then None
    else if routes[0].Name() == name then Some(routes[0])
    else FirstNamed(routes[1..], name)
  }

  function Settled(setup: Setup, name: string, model: string, usage: Usage, purse: PurseState): PurseState {
    if setup.budget.None? then purse
    else
      match PriceAgainst(setup, name, model, usage)
      case Some(amount) => purse.Spend(amount)
      case None => purse.Unmeasured()
  }

  /** What a call that was priced somewhere else leaves of a purse: its cost put down, and one unmeasured call
      fewer, if it could be priced. */
  function ChargedLater(setup: Setup, name: string, model: string, usage: Usage, purse: PurseState): PurseState {
    match PriceAgainst(setup, name, model, usage)
    case Some(amount) => purse.Spend(amount).MeasuredAfterAll()
    case None => purse
  }

  class Router {
    const setup: Setup
    const health: seq<Health>
    const purse: Purse

    ghost predicate Valid() {
      && setup.Valid()
      && |health| == |setup.routes|
      && (forall i, k :: 0 <= i < k < |health| ==> health[i] != health[k])
    }

    function States(): seq<HealthState>
      reads health
    {
      seq(|health|, i requires 0 <= i < |health| reads health => health[i].State())
    }

    /** A new router, every route healthy and its purse empty. */
    constructor (setup: Setup)
      requires setup.Valid()
      ensures Valid() && this.setup == setup && fresh(purse)
      ensures forall h <- health :: fresh(h) && h.State() == HEALTHY
      ensures purse.State() == PurseState(0, 0)
    {
      var health: seq<Health> := [];
      while |health| < |setup.routes|
        invariant |health| <= |setup.routes|
        invariant forall h <- health :: fresh(h) && h.State() == HEALTHY
        invariant forall i, k :: 0 <= i < k < |health| ==> health[i] != health[k]
      {
        var one := new Health();
        health := health + [one];
      }
      this.setup, this.health := setup, health;
      purse := new Purse();
    }

    /** Tells a route that it failed a request. */
    method Record(ghost j: Job, ghost now: Run, i: nat, error: Error, outside: Outside)
      requires At(j, now, outside) && i < |health|
      modifies health[i], outside
      ensures CountFailure(j, i, error, now) == now.(m := outside.moment, health := States())
    {
      health[i].Record(setup.breaker, error, outside);
      assert States() == now.health[i := health[i].State()];
    }

    /** Whether a run of the walk has got to where this router and the world now are. */
    ghost predicate At(j: Job, now: Run, outside: Outside)
      reads this, health, outside
    {
      && Valid() && j.setup == setup && j.world == outside.world
      && Ready(j, now) && now.m == outside.moment && now.health == States()
    }

    /** One attempt at one route. Answers how it ended for the request when it ended there, and
        otherwise whether the route is to be asked again. */
    method TryOnce(ghost j: Job, ghost now: Run, i: nat, attempt: nat, sending: ChatRequest, started: nat,
                   outside: Outside)
      returns (verdict: Option<Verdict>, again: bool, failed: Option<Error>, why: Option<Why>)
      requires At(j, now, outside) && i < |health| && 1 <= attempt <= setup.Allowed()
      requires j.started == started && sending == j.request.(model := setup.routes[i].model)
      modifies health[i], outside
      ensures At(j, now.(m := outside.moment, health := States()), outside)
      ensures again ==> verdict.None?
      ensures verdict.None? ==> failed.Some?
      ensures var fellThrough := if why.Some? then
                now.fellThrough + [Attempted(setup.routes[i].Name(), why.value)] else now.fellThrough;
              var run := now.(m := outside.moment, health := States(),
                fellThrough := fellThrough, attempts := now.attempts + 1);
              Once(j, i, attempt, now) ==
              if again then Again(run.(last := failed))
              else if verdict.Some? then Settles(Done(run, verdict.value))
              else Settles(Next(run.(last := failed)))
    {
      verdict, again, failed, why := None, false, None, None;
      var outcome := outside.Call(i, attempt, sending);
      ghost var asked := now.(m := outside.moment, attempts := now.attempts + 1);
      match outcome {
        case Ok(response) =>
          health[i].Served();
          assert States() == now.health[i := HEALTHY];
          verdict := Some(Answered(response, i));
        case Err(error) =>
          if error.Refused? {
            Record(j, asked, i, error, outside);
            verdict := Some(Failed(error));
            return;
          }
          failed := Some(error);
          var waiting := if setup.retry.None? then None
            else setup.retry.value.WaitBefore(attempt + 1, error, outside.world.jitter(outside.moment.calls));
          match waiting {
            case None =>
              why := Some(Failing(error));
              Record(j, asked, i, error, outside);
            case Some(wait) =>
              why := Some(TryingAgain(error, attempt, setup.Allowed(), wait));
              var late := HasNoRoomFor(j, started, wait, outside);
              if late {
                Record(j, asked.(m := outside.moment), i, error, outside);
                var elapsed := StopNow(started, outside);
                verdict := Some(GaveUp(elapsed));
              } else {
                again := true;
                outside.Sleep(wait);
              }
          }
      }
    }

    /** Asks one route as many times as the policy allows. Without a verdict the next route is
        to be asked. */
    method TryRoute(ghost j: Job, ghost r: Run, i: nat, request: ChatRequest, started: nat,
                    outside: Outside, tried: seq<Attempted>, before: nat)
      returns (verdict: Option<Verdict>, last: Option<Error>, fellThrough: seq<Attempted>, attempts: nat)
      requires At(j, r, outside) && i < |health|
      requires j.request == request && j.started == started
      requires r.fellThrough == tried && r.attempts == before
      modifies health[i], outside
      ensures var run := r.(m := outside.moment, health := States(), last := last,
                            fellThrough := fellThrough, attempts := attempts);
              && At(j, run, outside)
              && Tries(j, i, 1, r).run.(last := last) == run
              && (if verdict.Some? then Tries(j, i, 1, r).Done? && Tries(j, i, 1, r).verdict == verdict.value
                  else Tries(j, i, 1, r) == Next(run))
    {
      hide Once;
      verdict, last, fellThrough, attempts := None, None, tried, before;
      var sending := request.(model := setup.routes[i].model);
      var allowed := setup.Allowed();
      ghost var now := r;
      for attempt := 1 to allowed + 1
        invariant At(j, now, outside)
        invariant now == r.(m := outside.moment, health := States(), last := now.last,
                            fellThrough := fellThrough, attempts := attempts)
        invariant attempt <= allowed && Tries(j, i, attempt, now) == Tries(j, i, 1, r)
      {
        attempts := attempts + 1;
        var again, failed, why;
        verdict, again, failed, why := TryOnce(j, now, i, attempt, sending, started, outside);
        if why.Some? {
          fellThrough := fellThrough + [Attempted(setup.routes[i].Name(), why.value)];
        }
        last := failed;
        if !again {
          return;
        }
        now := now.(m := outside.moment, health := States(), last := last,
                    fellThrough := fellThrough, attempts := attempts);
      }
    }

    /** Why this route is passed over before anything is sent, if it is. */
    method PassedOver(ghost j: Job, ghost r: Run, i: nat, request: ChatRequest, needs: Requirements,
                      outside: Outside)
      returns (why: Option<Why>)
      requires At(j, r, outside) && i < |health|
      requires j.request == request && j.needs == needs && j.spent == purse.spent
      modifies outside
      ensures (why, outside.moment) == Check(j, i, r)
      ensures At(j, r.(m := outside.moment), outside)
    {
      var route := setup.routes[i];
      if route.capabilities.None? {
        return Some(UnknownModel);
      }
      var missing := needs.UnmetBy(route.capabilities.value);
      if missing != [] {
        return Some(Cannot(missing));
      }
      var left := health[i].ClosedFor(outside);
      if left.Some? {
        return Some(Resting(left.value, health[i].denied, health[i].consecutiveFailures));
      }
      var broke := Unaffordable(setup.budget, purse.spent, route, request);
      if broke.Some? {
        return Some(NoMoney(broke.value));
      }
      why := None;
    }

    /** One route's part of a request: the checks, and then the asking. Without a verdict the
        next route is to be reached for. */
    method VisitRoute(ghost j: Job, ghost r: Run, i: nat, request: ChatRequest, needs: Requirements,
                      started: nat, outside: Outside, tried: seq<Attempted>, before: nat, past: Option<Error>)
      returns (verdict: Option<Verdict>, why: Option<Why>, last: Option<Error>, fellThrough: seq<Attempted>, attempts: nat)
      requires At(j, r, outside) && i < |health|
      requires j.request == request && j.needs == needs && j.started == started && j.spent == purse.spent
      requires r.fellThrough == tried && r.attempts == before && r.last == past
      modifies health[i], outside
      ensures var run := r.(m := outside.moment, health := States(), last := last,
                            fellThrough := fellThrough, attempts := attempts,
                            resting := r.resting + if why.Some? && why.value.Resting? then 1 else 0,
                            overBudget := r.overBudget + if why.Some? && why.value.NoMoney? then 1 else 0);
              && At(j, run, outside)
              && Visit(j, i, r).run.(last := last) == run
              && (if verdict.Some? then Visit(j, i, r).Done? && Visit(j, i, r).verdict == verdict.value
                  else Visit(j, i, r) == Next(run))
    {
      hide Tries, Check;
      verdict, last, fellThrough, attempts := None, past, tried, before;
      why := PassedOver(j, r, i, request, needs, outside);
      if why.Some? {
        fellThrough := fellThrough + [Attempted(setup.routes[i].Name(), why.value)];
        return;
      }
      var late := HasNoRoomFor(j, started, 0, outside);
      ghost var asking := r.(m := outside.moment);
      if late {
        var elapsed := StopNow(started, outside);
        verdict := Some(GaveUp(elapsed));
        return;
      }
      verdict, last, fellThrough, attempts :=
        TryRoute(j, asking, i, request, started, outside, fellThrough, attempts);
    }

    /** Asks every provider once whether its route can be reached, and rests the ones that say no. */
    method Preflight(answers: seq<Access>, outside: Outside) returns (reached: seq<(string, Access)>)
      requires Valid() && |answers| == |health|
      modifies health, outside
      ensures |reached| == |answers|
      ensures forall i :: 0 <= i < |answers| ==> reached[i] == (setup.routes[i].Name(), answers[i])
      ensures (States(), outside.moment) ==
              Checked(setup, outside.world, old(outside.moment), old(States()), answers, |answers|)
    {
      reached := [];
      for i := 0 to |answers|
        invariant |reached| == i && Valid()
        invariant forall k :: 0 <= k < i ==> reached[k] == (setup.routes[k].Name(), answers[k])
        invariant (States(), outside.moment) ==
                  Checked(setup, outside.world, old(outside.moment), old(States()), answers, i)
      {
        if answers[i].Denied? && setup.breaker.Some? {
          ghost var before := States();
          health[i].DeniedBy(setup.breaker.value.settled, outside);
          assert States() == before[i := health[i].State()];
        }
        reached := reached + [(setup.routes[i].Name(), answers[i])];
      }
    }

    /** The whole of a request: the routes in their reaching order, each visited until one
        settles it. */
    method Attempt(request: ChatRequest, needs: Requirements, outside: Outside)
      returns (result: Result<Routed, Error>, ghost job: Job, ghost run: Run, ghost verdict: Verdict)
      requires Valid()
      modifies health, outside
      ensures job == Job(setup, outside.world, purse.spent, request, needs, old(outside.moment.now))
      ensures Ready(job, Start(old(outside.moment), old(States())))
      ensures (run, verdict) == Journey(job, old(outside.moment), old(States()))
      ensures run.m == outside.moment && run.health == States()
      ensures verdict.Answered? ==> verdict.route < |setup.routes|
      ensures result == AnswerTo(setup.routes, run.fellThrough, run.attempts, verdict)
    {
      hide Visit, ReachingOrder;
      var started := outside.moment.now;
      var fellThrough: seq<Attempted> := [];
      var last: Option<Error> := None;
      var attempts, resting, overBudget := 0, 0, 0;
      job := Job(setup, outside.world, purse.spent, request, needs, started);
      run := Start(outside.moment, States());
      ghost var start := run;
      var order := ReachingOrder(setup, States());
      var at := 0;
      while at < |order|
        invariant at <= |order| && Indices(order, |health|)
        invariant At(job, run, outside)
        invariant run == Run(outside.moment, States(), fellThrough, last, attempts, resting, overBudget)
        invariant Walk(job, order[at..], run) == Walk(job, order, start)
      {
        var ended, why;
        WalkFrom(job, order, at, run);
        ghost var visited := Visit(job, order[at], run);
        ended, why, last, fellThrough, attempts :=
          VisitRoute(job, run, order[at], request, needs, started, outside, fellThrough, attempts, last);
        if ended.Some? {
          run, verdict := visited.run, ended.value;
          result := AnswerTo(setup.routes, fellThrough, attempts, ended.value);
          return;
        }
        resting := resting + if why.Some? && why.value.Resting? then 1 else 0;
        overBudget := overBudget + if why.Some? && why.value.NoMoney? then 1 else 0;
        run := visited.run;
        at := at + 1;
      }
      var ending := Exhausted(last, overBudget, resting, fellThrough);
      verdict := ending;
      result := AnswerTo(setup.routes, fellThrough, attempts, ending);
    }

    method HasNoRoomFor(ghost j: Job, started: nat, wait: Duration, outside: Outside) returns (late: bool)
      requires j.setup == setup && j.world == outside.world && j.started == started
      requires started <= outside.moment.now
      modifies outside
      ensures (late, outside.moment) == NoRoomFor(j, old(outside.moment), wait)
    {
      if setup.deadline.None? {
        return false;
      }
      var now := outside.Now();
      late := Min(Elapsed(now, started) + wait, LONGEST_DURATION) >= setup.deadline.value;
    }

    method StopNow(started: nat, outside: Outside) returns (elapsed: Duration)
      requires started <= outside.moment.now
      modifies outside
      ensures outside.moment == outside.world.Read(old(outside.moment))
      ensures elapsed == Elapsed(outside.moment.now, started)
    {
      var now := outside.Now();
      elapsed := Elapsed(now, started);
    }

    /** A request and, when it is answered, the charge for its reply. */
    method Chat(request: ChatRequest, needs: Requirements, outside: Outside)
      returns (result: Result<Routed, Error>, ghost job: Job, ghost run: Run, ghost verdict: Verdict)
      requires Valid()
      modifies health, outside, purse
      ensures job == Job(setup, outside.world, old(purse.spent), request, needs, old(outside.moment.now))
      ensures Ready(job, Start(old(outside.moment), old(States())))
      ensures (run, verdict) == Journey(job, old(outside.moment), old(States()))
      ensures run.m == outside.moment && run.health == States()
      ensures verdict.Answered? ==> verdict.route < |setup.routes|
      ensures result == AnswerTo(setup.routes, run.fellThrough, run.attempts, verdict)
      ensures purse.State() ==
              match result
              case Err(_) => old(purse.State())
              case Ok(routed) =>
                Settled(setup, routed.route, routed.response.model, routed.response.usage, old(purse.State()))
    {
      result, job, run, verdict := Attempt(request, needs, outside);
      if result.Ok? {
        Settle(result.value.route, result.value.response.model, result.value.response.usage);
      }
    }

    /** Charges a finished call to the purse, or counts it among those without a price. */
    method Settle(route: string, model: string, usage: Usage)
      modifies purse
      ensures purse.State() == Settled(setup, route, model, usage, old(purse.State()))
    {
      if setup.budget.None? {
        return;
      }
      var amount := PriceAgainst(setup, route, model, usage);
      match amount {
        case Some(amount) => purse.Spend(amount);
        case None => purse.Unmeasured();
      }
    }

    /** Adds the cost of a call that was priced somewhere else, such as a streamed
        one, and answers whether it could. */
    method Charge(route: string, model: string, usage: Usage) returns (priced: bool)
      modifies purse
      ensures priced == PriceAgainst(setup, route, model, usage).Some?
      ensures purse.State() == ChargedLater(setup, route, model, usage, old(purse.State()))
    {
      var amount := PriceAgainst(setup, route, model, usage);
      if amount.None? {
        return false;
      }
      purse.Spend(amount.value);
      purse.MeasuredAfterAll();
      priced := true;
    }
  }
}
