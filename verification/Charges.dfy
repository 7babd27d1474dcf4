/** What the budget lets through, and what a call costs it afterwards. */
module Charges {
  import opened Basics
  import opened Replies
  import opened Usages
  import opened Pricing
  import opened Budgets
  import opened Surroundings
  import opened Routers
  import opened Journeys
  import opened Requests

  // ----- before a call

  /** Whether a reply of at most this many tokens surely fits what is left. */
  predicate ReplyFits(maxTokens: U32, rate: Rate, left: int) {
    Min(maxTokens * rate.output, I64_MAX) < (left + 1) * MILLION
  }

  /** A budget lets a route through exactly when something is left of it, the route's book is in its currency,
      an unlisted price is allowed to be, and the dearest reply the request allows costs, in whole
      micros, no more than what is left. */
  lemma AffordableExactlyWhen(budget: Budget, spent: I64, route: Route, request: ChatRequest)
    ensures Unaffordable(Some(budget), spent, route, request).None? <==>
            && spent < budget.cap
            && (route.prices.Some? ==> route.prices.value.currency == budget.currency)
            && (Listed(route) || budget.unpriced.Allowed?)
            && (Listed(route) && request.maxTokens.Some? ==>
                  ReplyFits(request.maxTokens.value, route.prices.value.rates[route.model],
                            Min(budget.cap - spent, I64_MAX)))
    ensures Unaffordable(None, spent, route, request).None?
  {
    hide MostAReplyCanCost;
    if spent < budget.cap && Listed(route) && request.maxTokens.Some? {
      MostInMicros(request.maxTokens.value, route.prices.value.rates[route.model], Min(budget.cap - spent, I64_MAX));
    }
  }

  lemma MostInMicros(maxTokens: U32, rate: Rate, left: I64)
    requires left > 0
    ensures MostAReplyCanCost(maxTokens, rate) <= left <==> ReplyFits(maxTokens, rate, left)
  {
    var product := maxTokens * rate.output;
    if product >= 0 {
      InMicros(Clamp(product), left);
    } else {
      TruncateShrinks(Clamp(product), MILLION);
    }
  }

  lemma InMicros(a: nat, left: nat)
    ensures a / MILLION <= left <==> a < (left + 1) * MILLION
  {
  }

  /** What it says when it does not, the first of these that is so. */
  lemma WhyNotAffordable(budget: Budget, spent: I64, route: Route, request: ChatRequest)
    ensures var broke := Unaffordable(Some(budget), spent, route, request);
            broke.Some? ==>
              match broke.value
              case Spent => spent >= budget.cap
              case NoBook => spent < budget.cap && route.prices.None? && budget.unpriced.Refused?
              case OtherCurrency(currency) =>
                && spent < budget.cap && route.prices.Some? && currency == route.prices.value.currency
                && currency != budget.currency
              case NotListed =>
                && spent < budget.cap && route.prices.Some? && route.prices.value.currency == budget.currency
                && !Listed(route) && budget.unpriced.Refused?
              case ReplyTooDear(most, left) =>
                && left == Min(budget.cap - spent, I64_MAX) && 0 < left < most
                && Listed(route) && route.prices.value.currency == budget.currency && request.maxTokens.Some?
  {
    hide MostAReplyCanCost;
  }

  // ----- after a call

  /** What a call cost, in the budget's currency, by the book of the route that answered. */
  ghost function CostOf(budget: Budget, route: Route, model: string, usage: Usage): Option<I64> {
    if route.prices.Some? && route.prices.value.currency == budget.currency
       && route.prices.value.PriceWith(model, usage, NO_UNITS).Some?
    then Some(route.prices.value.PriceWith(model, usage, NO_UNITS).value.amount)
    else None
  }

  /** Whether a rate charges for something that was counted. */
  predicate CountsSomething(rate: Rate, usage: Usage, units: Units) {
    || ((rate.input != 0 || rate.cacheRead != 0 || rate.cacheWrite != 0 || rate.output != 0)
        && (usage.input.Some? || usage.cacheRead.Some? || usage.cacheWrite.Some? || usage.output.Some?))
    || (rate.image != 0 && units.images.Some?)
    || (rate.audioSecond != 0 && units.audioMillis.Some?)
    || (rate.character != 0 && units.characters.Some?)
  }

  /** A call can be priced exactly when its model is listed and its rate charges for something that was
      counted; and then in the book's currency. */
  lemma PricedExactlyWhen(book: PriceBook, model: string, usage: Usage, units: Units)
    ensures var priced := book.PriceWith(model, usage, units);
            && (priced.Some? <==> model in book.rates && CountsSomething(book.rates[model], usage, units))
            && (priced.Some? ==> priced.value.currency == book.currency && priced.value.book == book.id)
  {
    hide TokenAmount, Amount;
  }

  lemma PriceIsTheRoutes(setup: Setup, i: nat, model: string, usage: Usage)
    requires NamesDiffer(setup.routes) && i < |setup.routes| && setup.budget.Some?
    ensures PriceAgainst(setup, setup.routes[i].Name(), model, usage)
            == CostOf(setup.budget.value, setup.routes[i], model, usage)
  {
    hide PriceBook.PriceWith;
    FindsByName(setup.routes, i);
  }

  /** A request that is answered puts the cost of the call on the purse, or counts it among those nobody could
      measure; one that is not answered, or has no budget, changes nothing. */
  lemma AnAnswerIsCharged(setup: Setup, w: World, b: Books, ask: Ask)
    requires Fits(setup, b) && NamesDiffer(setup.routes)
    ensures var verdict, after := Concluded(setup, w, b, ask).1, Chatted(setup, w, b, ask).purse;
            if verdict.Answered? && setup.budget.Some? then
              && verdict.route < |setup.routes|
              && match CostOf(setup.budget.value, setup.routes[verdict.route], verdict.response.model, verdict.response.usage)
                 case Some(cost) => after == PurseState(Wrap(b.purse.spent + cost), b.purse.unmeasured)
                 case None => after == PurseState(b.purse.spent, (b.purse.unmeasured + 1) % (U64_MAX + 1))
            else after == b.purse
  {
    hide Journey, CostOf, PriceAgainst, Wrap;
    AffordableAnswer(setup, w, b, ask);
    var verdict := Concluded(setup, w, b, ask).1;
    if verdict.Answered? && setup.budget.Some? {
      PriceIsTheRoutes(setup, verdict.route, verdict.response.model, verdict.response.usage);
    }
  }

  /** A call priced afterwards costs what it would have cost at once, and is no longer among the unmeasured;
      one that cannot be priced stays among them. */
  lemma ALaterChargeIsTheSame(setup: Setup, i: nat, model: string, usage: Usage, purse: PurseState)
    requires NamesDiffer(setup.routes) && i < |setup.routes|
    ensures var after := ChargedLater(setup, setup.routes[i].Name(), model, usage, purse);
            var cost := if setup.budget.None? then None else CostOf(setup.budget.value, setup.routes[i], model, usage);
            if cost.Some? then after == PurseState(Wrap(purse.spent + cost.value), Max(purse.unmeasured - 1, 0))
            else after == purse
    ensures setup.budget.Some? && purse.unmeasured < U64_MAX ==>
              ChargedLater(setup, setup.routes[i].Name(), model, usage, purse.Unmeasured())
              == Settled(setup, setup.routes[i].Name(), model, usage, purse)
  {
    hide CostOf, PriceAgainst, PurseState.Spend, PurseState.Unmeasured, PurseState.MeasuredAfterAll, Wrap;
    if setup.budget.None? {
      NothingWithoutABudget(setup, setup.routes[i].Name(), model, usage);
    } else {
      PriceIsTheRoutes(setup, i, model, usage);
      var cost := CostOf(setup.budget.value, setup.routes[i], model, usage);
      if cost.Some? {
        TakenBack(purse, cost.value);
      }
    }
  }

  lemma NothingWithoutABudget(setup: Setup, name: string, model: string, usage: Usage)
    requires setup.budget.None?
    ensures PriceAgainst(setup, name, model, usage).None?
  {
  }

  lemma TakenBack(purse: PurseState, amount: I64)
    ensures purse.Spend(amount).MeasuredAfterAll() ==
            PurseState(Wrap(purse.spent + amount), Max(purse.unmeasured - 1, 0))
    ensures purse.unmeasured < U64_MAX ==> purse.Unmeasured().Spend(amount).MeasuredAfterAll() == purse.Spend(amount)
  {
    hide Wrap;
  }

  // ----- after a run

  /** What one request costs, if it costs anything that can be told. */
  ghost function CostOfOne(setup: Setup, verdict: Verdict): Option<I64>
    requires setup.budget.Some?
  {
    if verdict.Answered? && verdict.route < |setup.routes|
    then CostOf(setup.budget.value, setup.routes[verdict.route], verdict.response.model, verdict.response.usage)
    else None
  }

  ghost function CostOfAll(setup: Setup, w: World, b: Books, asks: seq<Ask>): int
    requires Fits(setup, b) && setup.budget.Some?
    decreases |asks|
  {
    if asks == [] then 0
    else
      var cost := CostOfOne(setup, Concluded(setup, w, b, asks[0]).1);
      (if cost.Some? then cost.value else 0) + CostOfAll(setup, w, Chatted(setup, w, b, asks[0]), asks[1..])
  }

  /** How many requests of a run were answered by a call nobody could measure. */
  ghost function Uncounted(setup: Setup, w: World, b: Books, asks: seq<Ask>): nat
    requires Fits(setup, b) && setup.budget.Some?
    decreases |asks|
  {
    if asks == [] then 0
    else
      var verdict := Concluded(setup, w, b, asks[0]).1;
      (if verdict.Answered? && CostOfOne(setup, verdict).None? then 1 else 0)
      + Uncounted(setup, w, Chatted(setup, w, b, asks[0]), asks[1..])
  }

  lemma WrapAdds(a: int, b: int)
    ensures Wrap(Wrap(a) + b) == Wrap(a + b)
  {
    ModAdds(a - I64_MIN, b);
  }

  lemma ModAdds(a: int, b: int)
    ensures (a % 0x1_0000_0000_0000_0000 + b) % 0x1_0000_0000_0000_0000 == (a + b) % 0x1_0000_0000_0000_0000
  {
  }

  /** Over any run, what is spent is the sum of what its answered calls cost, and what is unmeasured the
      number of those whose cost nobody could tell, as far as nothing wraps. */
  lemma {:induction false} SpendingAddsUp(setup: Setup, w: World, b: Books, asks: seq<Ask>)
    requires Fits(setup, b) && NamesDiffer(setup.routes) && setup.budget.Some?
    ensures ChattedAll(setup, w, b, asks).purse ==
            PurseState(Wrap(b.purse.spent + CostOfAll(setup, w, b, asks)),
                       (b.purse.unmeasured + Uncounted(setup, w, b, asks)) % (U64_MAX + 1))
    decreases |asks|
  {
    hide CostOf, Concluded, Chatted, NamesDiffer;
    if asks == [] {
      WrapFits(b.purse.spent);
    } else {
      hide Wrap;
      AnAnswerIsCharged(setup, w, b, asks[0]);
      var next := Chatted(setup, w, b, asks[0]);
      SpendingAddsUp(setup, w, next, asks[1..]);
      var verdict := Concluded(setup, w, b, asks[0]).1;
      var cost := CostOfOne(setup, verdict);
      if cost.Some? {
        WrapAdds(b.purse.spent + cost.value, CostOfAll(setup, w, next, asks[1..]));
      } else if verdict.Answered? {
        ModAdds(b.purse.unmeasured + 1, Uncounted(setup, w, next, asks[1..]));
      }
    }
  }
}
