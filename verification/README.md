# llmr, modelled and proved

llmr is a router for language models: a program sends a request, and the router picks one of several
providers, asks again or elsewhere when a call fails, keeps to a deadline and a budget, and says what
the answer cost. It also keeps the price list it charges by up to date. This project models that
behaviour in Dafny and proves what every request, every stream of events, every price and every run
of price syncs keeps.

The modules follow the program's own parts.

- **Requests.** `Reports`, `Surroundings`, `Breakers`, `Retries`, `Budgets` and `Routers` hold the
  routing loop and the state it works on. Providers, the clock, waits and random draws are a `World`:
  an oracle that is fixed in advance and otherwise arbitrary, so a theorem about all worlds is a
  theorem about all providers. `Routers.Router` is the code, with its loops and its mutable health and
  purse; `Walk`, `Visit`, `Tries` and `Once` say the same as functions of a trace of calls and waits,
  and every method is proved equal to its function. `Journeys`, `Safety`, `Histories`, `Deadlines` and
  `Requests` prove what the traces keep: which calls are made and which must be, in which order, and what
  is told of every route. `Charges` proves what a call costs the budget. `SharedPurses` takes the purse again as interleaved steps of many requests. `Media` is
  the second routing loop, for pictures, speech and embeddings, and `Servings` what becomes of every route of its plan.
- **Replies.** `Replies`, `Transcripts`, `Chunking`, `Conservation`, `Signatures`, `Replays`,
  `Chunks` and `Endings`: the transcript that folds a stream of events into a reply, the replay that unfolds a reply
  into events, and the writer of OpenAI chunks that consumes the same events.
- **Money and dates.** `Usages`, `Pricing`, `Costs`, `Decimals`, `Micros`, `Dates`, `Ledgers` and
  `Summaries`: decimal amounts read and written, integer prices, merged usage, the two calendar
  algorithms, the ledger, and usage reports.
- **Price sync.** `Prices`, `Stores`, `PriceRuns` and `Effectives`: what a list changes, the table it
  changes, what every reachable table keeps, and what a provider charges in the end.

`Basics` writes out the source's fixed-width integers and their saturating, wrapping and truncating
operators over unbounded integers. Durations are nanoseconds, bounded as the source's are.

## What turned out not to hold

Five things the code or its comments suggest are not so. Each has its exact condition here.

- *A deadline is looked at before every attempt* (src/router.rs:617-621). It is looked at before the
  first attempt at a route and before a wait, and not after the wait.
  `Deadlines.InTimeInEveryWorldExactlyWhen` shows when the promise is kept whatever the providers and
  the clock do: exactly when the router never retries, or the request calls nothing anyway.
  `Deadlines.OversleptRetryStartsLate` gives a retry that is late, `Deadlines.OnlyRetriesStartLate`
  shows that nothing but a retry ever is, and `Deadlines.RequestIsInTime` that no retry is as long as
  waits do not overrun. `Media` does look again, and every call it makes starts in time.
- *Signatures are kept in the order they arrive.* One that arrives while two thinking blocks are open
  goes on the last of them. `Signatures.ProofsKeepTheirOrderExactlyWhen` has the condition and
  `Signatures.OpenBlocksAreSignedBackwards` a stream that turns two around.
- *A held price the source no longer gives is dropped* (src/bin/llmr/prices.rs:521-522). Not when the
  list does not price the model at all, nor when it goes back to a price that was refused, and in every
  other case it is: `PriceRuns.StaleHoldStaysExactlyWhen`, with a run of each kind in
  `PriceRuns.AnUnlistedHoldStays` and `PriceRuns.AStaleHoldStays`.
- *An amount that is written reads back.* All but the smallest one do: `Micros.ExactReadsBack`.
- *Two usages priced as one cost no less than priced apart.* Not when a line is full. They do exactly
  when what the full lines lose is no more than what the others gain by rounding once instead of twice:
  `Costs.MergingCostsNoLessExactlyWhen`. `Costs.FullLineCostsLessMerged` is two usages that cost less.

## Model

| member | source | states |
|---|---|---|
| `Breakers.BackoffDoubles` | src/breaker.rs:149-157 | A rest is the first one doubled for every failure after the first, up to the longest, for up to 32 failures in a row |
| `Breakers.BackoffGrows` | src/breaker.rs:149-157 | More failures never earn a shorter rest, and no rest passes the longest, also where the shift runs out of bits |
| `Breakers.RestEarned` | src/breaker.rs:117-147 | Which failures earn a rest and how long a one: the wait a provider named, whole, however long; the settled rest for bad credentials or a model that is not there; the doubling backoff for what passes; and none for anything else |
| `Breakers.Health.ClosedFor` | src/breaker.rs:186-193 | How much longer a route is skipped, and that the clock is read only when a timer is set |
| `Breakers.Health.Record` | src/router.rs:1151-1158 | A failed request is counted whether or not there is a policy, and rests the route when the policy says so, from the count just reached |
| `Breakers.Health.DeniedBy` | src/breaker.rs:222-237 | A denial marks the route and closes it for the whole wait, overwriting what was there |
| `Breakers.Health.Served` | src/breaker.rs:259-266 | An answer clears the count, the timer and a denial |
| `Breakers.ClosingShortensExactlyWhen` | src/breaker.rs:222-226 | Closing a route again cuts its rest short exactly when more of it is left, in whole milliseconds, than the new one lasts |
| `Breakers.FailingNeverShortens` | src/breaker.rs:205-226 | A failed request never cuts a rest short, as its route was found open before it was called |
| `Breakers.FailuresAreSpreadOut` | src/breaker.rs:184-226 | Failures of one route that follow one another span at least the rests that all but the last of them earned, in whole milliseconds, whatever they were |
| `Breakers.BackoffFailuresAreSpreadOut` | src/breaker.rs:117-157 | With a policy, n failures in a row that back off span at least the first n - 1 backoffs |
| `Retries.Retry.BackoffBetween` | src/retry.rs:172-207 | A wait lies between half of the doubled and capped one and the whole of it, which grows with each attempt up to the ceiling |
| `Retries.Retry.CappedDoubles` | src/retry.rs:172-181 | Before jitter, the first wait is the base and each of the next sixteen twice the one before, up to the ceiling, and none is longer after that |
| `Retries.Retry.EveryWaitHasADraw` | src/retry.rs:183-207 | Every wait from half to the whole has a random draw that makes it, the last nanosecond of an odd one aside |
| `Retries.Retry.WaitsExactlyWhen` | src/retry.rs:149-164 | Another attempt is asked for exactly while attempts are left and the failure can be repeated, a timeout only when told to; the wait is the one the provider named, as it is, and otherwise lies between half of the doubled and capped one and the whole of it |
| `Retries.Scatter` | src/retry.rs:194-207 | The jitter stays within its span |
| `Budgets.Purse.Spend` | src/budget.rs:199-202 | An amount is added to what is spent, wrapping as an atomic does, and nothing else changes |
| `Budgets.Purse.MeasuredAfterAll` | src/budget.rs:209-213 | One call fewer is unmeasured, and never fewer than none |
| `SharedPurses.OvershootIsBounded` | src/budget.rs:170-213 | Under every interleaving of requests that check, call and settle, what is spent plus the most that those in flight can cost never passes cap - 1 + most * dearest, and what is spent is the sum of all that was put down |
| `SharedPurses.OvershootIsReached` | src/budget.rs:170-213 | The bound cannot be improved: some interleaving reaches it, for every cap, number in flight and cost |
| `SharedPurses.NothingStartsOnceSpent` | src/router.rs:545-557 | A request passes the check exactly while less than the cap has been put down |
| `SharedPurses.RouterStepsAreAllowed` | src/router.rs:531-557 | A request the router lets past its budget may pass here too, and what it spends then is what a settlement adds |
| `Routers.Requirements.UnmetBy` | src/router.rs:200-247 | What is missing is listed, and the list is empty exactly when the capabilities are enough |
| `Routers.MissingIsNamed` | src/router.rs:200-247 | Exactly what is asked for and not had is listed, each under its own name, self-hosting for data that must stay on the device included |
| `Routers.Router.constructor` | src/router.rs:382-408 | A new router has every route healthy and nothing spent |
| `Routers.Router.TryOnce` | src/router.rs:1016-1090 | One attempt does what the trace function says: calls with the request and the route's model, clears health on an answer, stops on a refusal, and otherwise waits, gives up for want of time, or moves on |
| `Routers.Router.TryRoute` | src/router.rs:1006-1097 | A route's attempts, one after another with their waits, are the attempts of the trace function, and the loop never runs off its end |
| `Routers.Router.PassedOver` | src/router.rs:961-1000 | The four checks before a call, in their order: unknown model, something missing, resting, budget |
| `Routers.Router.VisitRoute` | src/router.rs:961-1098 | One route's part of a request is the visit of the trace function, deadline included |
| `Routers.Router.Attempt` | src/router.rs:945-1119 | A whole request is the walk of the trace function over the reaching order, with the same trace, health, counts and answer |
| `Routers.Router.Chat` | src/router.rs:822-839 | A request that is answered puts its cost on the purse, and one that is not leaves the purse alone |
| `Routers.Router.Settle` | src/router.rs:516-543 | The cost is that of the first route of that name, in the budget's currency, and a cost that cannot be known is counted as unmeasured |
| `Routers.Router.Charge` | src/router.rs:499-510 | A later charge is spent and takes one unmeasured call back, only when it could be priced |
| `Routers.Router.Preflight` | src/router.rs:791-806 | Every route is checked once and reported in order, and only a denial under a breaker changes health |
| `Journeys.ReachingOrderSorts` | src/router.rs:678-695 | The reaching order is every route once, sorted, with ties as written |
| `Journeys.PrecedesExactlyWhen` | src/router.rs:678-695 | Of two routes the one written first comes first; or the one with fewer failures; or the cheaper in what its input and output rates add up to, held to 64 bits, with every priced route before every unpriced one; ties are as written |
| `Journeys.WalkAccounts` | src/router.rs:961-1119 | Attempts are calls, and every skip and failed call has one line, for any part of a walk |
| `Journeys.WalkHealth` | src/router.rs:961-1119 | What a walk leaves of each route's health follows from the last thing that route said in it |
| `Requests.RequestIsAccountedFor` | src/router.rs:945-1119 | Attempts equal calls made; an answer comes with skips + attempts - 1 lines, a request that gave up with one for every skip and call, a refusal with one fewer |
| `Requests.RequestIsJustified` | src/router.rs:1072-1118 | A request ends with its last call's reply or error; with no call, the cap comes before a resting route and both before nothing fitting; and it gives up only when the deadline is reached or the wait its last call asked for would have reached it, saying how long it took |
| `Requests.RequestHeals` | src/router.rs:1022-1097 | A route that served is as good as new; one that was called and did not serve has exactly one failure more, is as denied as it was, and has its timer moved only by a failure that rests it under a policy; and one that was not called is as it was |
| `Requests.RequestIsProper` | src/router.rs:961-1048 | Every call went to a route that met all requirements, was not resting when found and fitted the budget, carrying the request unchanged but for its model; calls follow the reaching order, so that of two routes the one asked first sorts first, and no route is asked again once left; nothing follows an answer or a refusal; data that must stay on the device only goes to self-hosted routes |
| `Histories.RequestTellsAll` | src/router.rs:945-1119 | The routes a request got to are the front of its reaching order, and the whole of it when it ran out of routes. Each was called, with one line for every failed call, or has the one line that says why it was passed over, and there is no other line. A failure worth another attempt is followed by a wait the policy allows and the next attempt at the same route, unless the request gives up; any other by a first attempt. An answer is that of the last call and names the route it went to |
| `Histories.AnswerIsTheLastCalls` | src/router.rs:1022-1043 | What a caller is given: the reply of the last call with the name of the route it went to, the number of calls and all the lines; or the error; or the time after which the request gave up |
| `Histories.EveryRouteIsCalledOrPassedOver` | src/router.rs:961-1118 | A request that is not answered, not refused and does not give up has called every route, except those it has a line about that do not know the model, lack something required, were closed when reached or are past the budget |
| `Histories.EarlierRoutesAreCalledOrPassedOver` | src/router.rs:961-1000 | However a request ends, every route that sorts before one it called was called too, or passed over for such a reason |
| `Histories.FitRoutesAreCalled` | src/router.rs:961-1097 | A route that knows the model, meets the needs, fits the budget and is open when the request starts is called before the request runs out of routes |
| `Charges.AffordableExactlyWhen` | src/router.rs:545-597 | A budget lets a route through if and only if something of it is left, the route's book is in its currency, a price that is not listed is allowed to be, and the dearest reply the request allows costs, in whole micros, no more than what is left |
| `Charges.WhyNotAffordable` | src/router.rs:549-587 | What it says when it does not: spent, no book, another currency, not listed, or a reply too dear, the first of them that is so |
| `Charges.AnAnswerIsCharged` | src/router.rs:516-543 | An answered request adds the price of its call by the answering route's own book to what is spent, and leaves the unmeasured count alone; when that price cannot be told in the budget's currency, it adds one to that count and nothing to what is spent; one that is not answered changes neither |
| `Charges.PricedExactlyWhen` | src/cost/pricing.rs:580-638 | A call has a price exactly when its model is listed and its rate charges for something that was counted: tokens, pictures, seconds or characters; and then it is in the book's currency and names the book |
| `Charges.ALaterChargeIsTheSame` | src/router.rs:499-510 | A call priced afterwards adds what it would have added at once and takes one call off the unmeasured ones, never below none; counted as unmeasured first and charged later, it leaves the purse as charging it at once does |
| `Charges.SpendingAddsUp` | src/router.rs:516-543 | Over any run of requests, what is spent is the sum of what its answered calls cost and the unmeasured count the number of those whose cost cannot be told, both as 64-bit counters hold them |
| `Requests.DeniedRoutesAreLeftAlone` | src/router.rs:791-806 | The next request does not call a denied route until a whole rest has gone by since the check found it denied |
| `Deadlines.OnlyRetriesStartLate` | src/router.rs:1002-1004 | In any world, the first attempt at every route starts before the deadline |
| `Deadlines.InTimeInEveryWorldExactlyWhen` | src/router.rs:617-621 | Every call starts before the deadline in every world if and only if one attempt is all a route gets, or the request starts at its deadline or later, or no route meets the requirements, fits the budget and opens before the deadline |
| `Deadlines.RetryStartsWhenItsWaitEnds` | src/router.rs:1050-1081 | A retry starts when the wait before it really ends, and that wait was begun only because it was to end before the deadline |
| `Deadlines.RequestIsInTime` | src/router.rs:1002-1081 | As long as no wait lasts longer than asked, every call, retries included, starts before the deadline, however long calls take and however much time passes between steps |
| `Deadlines.RequestEndsInTime` | src/router.rs:1002-1081 | When also no call takes longer than T, the request is over before deadline + T and the time that passed unnoticed before its readings of the clock |
| `Deadlines.OversleptRetryStartsLate` | src/router.rs:617-621 | A world in which a retry starts after the deadline |
| `Requests.FailingRouteIsLeftAlone` | src/router.rs:983-990 | However many requests there are, a route that keeps failing is asked in n of them only if the run lasts the first n - 1 waits of its backoff |
| `Requests.WithoutABreakerNothingRests` | src/router.rs:1151-1158 | Without a breaker no route ever rests |
| `Requests.FindsByName` | src/router.rs:516-521 | When names differ, the first route of a name is the route |
| `Requests.ReplyIsCovered` | src/budget.rs:129-131 | The bound checked before a call covers the output line of the price put down after it |
| `Requests.SpendingIsBounded` | src/router.rs:545-587 | Over a run of requests with reply limits that are kept to, spending never falls and never passes the cap by more than the prompt side of the last call charged |
| `Media.Gateway.AskOnce` | src/bin/llmr/gateway.rs:416-450 | One attempt of the second routing loop does what its trace function says |
| `Media.Gateway.TryRoute` | src/bin/llmr/gateway.rs:416-450 | The loop over a route's attempts ends where the trace function does: with the same answer, error or next route, the same lines, count and moment |
| `Media.Gateway.Serve` | src/bin/llmr/gateway.rs:384-468 | The loop over a plan's routes comes to the same answer or error, at the same moment, as the walk of the trace function over them |
| `Media.RequestIsProper` | src/bin/llmr/gateway.rs:384-468 | Every call goes to a provider that is there, has the endpoint and is on the device when the data must be, for the model its route names, and starts before the deadline in any world; calls follow the plan; nothing follows an answer or a refusal; attempts are counted; and the answer is the last call's unless there was none or time ran out, the deadline being reached or the wait the last call asked for about to reach it |
| `Servings.RequestTellsAll` | src/bin/llmr/gateway.rs:384-468 | The routes a request got to are the front of its plan, and the whole of it unless it was answered, refused or out of time. Each was called, with one line for every failed call; or has the one line that says its provider is not there, is off the device the data must stay on, or has no such endpoint; or names no provider and has none. A failure worth another attempt is followed by a wait the policy allows and the next attempt at the same route, unless time runs out |
| `Servings.EveryRouteIsCalledOrInTrouble` | src/bin/llmr/gateway.rs:412-466 | A request that is not answered, not refused and not out of time has called every route of its plan that may be called, and says of every other that names a provider what is wrong with it |
| `Servings.EarlierRoutesAreCalledOrInTrouble` | src/bin/llmr/gateway.rs:412-466 | However a request ends, the same is so of every route before one it called |
| `Transcripts.Transcript.Push` | src/chat/stream.rs:165-255 | Every event updates the transcript in place as the state function says |
| `Transcripts.Transcript.CloseTool` | src/chat/stream.rs:318-330 | A call in progress becomes a finished block, read as JSON or kept raw |
| `Transcripts.Transcript.SignLast` | src/chat/stream.rs:194-219 | A signature goes on the last thinking block still open, or is kept on its own |
| `Transcripts.Transcript.Drain` | src/chat/stream.rs:266-273 | A stream pushed event by event is the fold of it |
| `Transcripts.Transcript.AnswerSoFar` | src/chat/stream.rs:275-283 | The text so far is the text blocks run together |
| `Transcripts.Transcript.FinishReply` | src/chat/stream.rs:294-312 | The finished reply, with what stands in for a stop, usage or model that never came |
| `Chunking.ReplyDoesNotDependOnChunking` | src/chat/stream.rs:165-330 | Streams that say the same give the same reply, whatever the cuts and wherever models and usage reports stand |
| `Chunking.CuttingSaysTheSame` | src/chat/stream.rs:169-236 | A piece of text, thinking or arguments cut in two anywhere says the same |
| `Chunking.MovingSaysTheSame` | src/chat/stream.rs:245-254 | So does a model or usage report that changes places with its neighbour, two models aside |
| `Conservation.ReplyKeepsEverything` | src/chat/stream.rs:165-330 | Text, reasoning, verbatim blocks and tool calls are kept exactly and in order, and every signature exactly once |
| `Signatures.SignatureGoesLastExactlyWhen` | src/chat/stream.rs:194-219 | A signature is kept after all others exactly when nothing was signed since the block it lands on |
| `Signatures.ProofsKeepTheirOrderExactlyWhen` | src/chat/stream.rs:194-219 | Signatures keep their order when none arrives for a block that a signed one has followed, and when no two are the same only then |
| `Signatures.OpenBlocksAreSignedBackwards` | src/chat/stream.rs:194-219 | A stream whose two signatures are kept the wrong way round |
| `Replays.TakeApart` | src/provider.rs:230-291 | The loop that takes a reply apart gives the events of every block in order, between the model and the stop and usage |
| `Replays.ReplyComesBackNormal` | src/provider.rs:230-291 | A reply taken apart and put together again is its own normal form, for every reply |
| `Replays.ReplyComesBackUnchangedExactlyWhen` | src/provider.rs:230-291 | It is unchanged if and only if it is an assistant's, in normal form, with tool inputs that print and read as themselves |
| `Replays.NormalReplyComesBack` | src/provider.rs:230-291 | With a JSON library that reads what it writes, every assistant's reply in normal form comes back unchanged |
| `Replays.NormalIsNormal` | src/provider.rs:253-291 | The normal form is in normal form, is the reply itself when that was, and is shorter otherwise |
| `Replays.NormalIsIdempotent` | src/provider.rs:253-291 | Putting a reply in normal form twice is doing it once |
| `Chunks.ChunkWriter.Write` | src/bin/llmr/openai.rs:804-852 | The chunks of one event, with the opening one first, and the writer's new state |
| `Chunks.LineStaysInStep` | src/bin/llmr/openai.rs:804-852 | After any stream, a client that reads the chunks holds what the stream said, and call by call unless arguments went astray |
| `Chunks.ClientAgreesWithTranscript` | src/bin/llmr/openai.rs:804-852 | Client and transcript agree on text, reasoning and stop for every stream, and on the calls if and only if every fragment that says anything arrives inside an open call |
| `Endings.ReplyEndsAsItsStreamDoes` | src/chat/stream.rs:294-312 | For every stream, the reply stops as the last stop event says, and is interrupted with a note that the stream ended early when there is none; its usage is all reports merged, and absent without any; its model is the last one named, else the one asked for |
| `Endings.ClientHearsTheStop` | src/bin/llmr/openai.rs:804-852 | A client of the chunks is told the reason the reply gives, and is told none exactly when the stream never stopped and the reply says it was interrupted |
| `Endings.ChunksSaySomething` | src/bin/llmr/openai.rs:804-852 | No chunk is empty: it opens the reply or a call, holds a piece of text, reasoning or arguments, or gives the reason the reply stopped. And every chunk carries the last model its stream has named, or the one the writer was made with |
| `Endings.CallsAreReadOrKept` | src/chat/stream.rs:318-330 | Every tool call of a reply has the JSON its arguments read as, and when they do not read, the whole text of them |
| `Usages.MergeIsCommutativeMonoid` | src/cost/usage.rs:223-240 | Merging is commutative and associative, with an unreported usage as its unit, saturation included |
| `Usages.MergeCoverage` | src/cost/usage.rs:181-201 | What a merged usage says of itself, in every case: absent only when neither reported, an estimate when either was, and otherwise exact exactly when between them they report everything |
| `Pricing.PriceWith` | src/cost/pricing.rs:580-638 | The tally the code keeps comes to the price the rate, usage and units make |
| `Pricing.Tally.Unit` | src/cost/pricing.rs:606-620 | One unit price adds its line, and records whether it was measured or missing |
| `Costs.NeverOvercharges` | src/cost/pricing.rs:580-638 | A price is never negative and never above the exact rational cost |
| `Costs.ShortByLessThanAMicroALine` | src/cost/pricing.rs:583-588 | Without saturation it is short of the exact cost by less than a micro for every line charged |
| `Costs.CountingMoreNeverCostsLess` | src/cost/pricing.rs:580-638 | It is monotone in every count, saturated or not |
| `Costs.CoverageSaysWhatIsMissing` | src/cost/pricing.rs:594-631 | When a price is exact, an estimate or a floor: a part with nothing to measure it makes a floor even of an estimate |
| `Costs.LineOfMerge` | src/cost/pricing.rs:585-588 | The line of two counts together is at most a micro above their own, and not below them exactly when those fit in one line |
| `Costs.MergedPriceIs` | src/cost/pricing.rs:580-638 | For any rate without negative parts, the price of a merge is the two prices, plus a micro for every line whose two remainders make one and that has room for it, less what two lines come to over the most that one can |
| `Costs.MergingCostsNoLessExactlyWhen` | src/cost/pricing.rs:580-638 | A merge costs no less than its two usages if and only if the full lines lose no more than the others gain |
| `Costs.MergedPriceIsClose` | src/cost/pricing.rs:580-638 | So pricing a merge is at most four micros above pricing apart, and unless a line is full never below |
| `Costs.FullLineCostsLessMerged` | src/cost/pricing.rs:585-588 | Two usages that cost less together than apart |
| `Micros.ParseMicros` | src/cost/pricing.rs:24-72 | The reading loop, padding and limits included, is the reading function |
| `Micros.ParsesExactly` | src/cost/pricing.rs:24-72 | A text reads as an amount if and only if it is an optionally signed decimal of at most six places whose value in millionths is that amount and fits |
| `Micros.ExactReadsBack` | src/cost/pricing.rs:74-78 | Every amount but the smallest reads back from what is written, and that one does not |
| `Micros.EveryReadingIsWritable` | src/cost/pricing.rs:24-78 | Any text that reads has a written form that reads as the same amount |
| `Dates.EveryDayHasItsDate` | src/bin/llmr/prices.rs:333-348 | Every day number gives a date of the calendar whose number it is |
| `Dates.EveryDateHasItsDay` | src/cost/pricing.rs:409-427 | Every date of the calendar is given back by its own number |
| `Dates.NumbersFollowTheCalendar` | src/cost/pricing.rs:409-427 | The day after any date, by month lengths and the leap rule, has the next number, and 1970-01-01 has zero |
| `Dates.DayReadsBack` | src/bin/llmr/prices.rs:333-348 | The text of any second reads back as its day, from the start of year nought on, and before that not at all |
| `Dates.DatedExactlyWhen` | src/cost/pricing.rs:409-427 | A text has a day number if and only if it is three numbers with dashes between them, the second from 1 to 12 and the third from 1 to 31; a day the month does not have is let through |
| `Dates.DayPrintsTheDate` | src/bin/llmr/prices.rs:333-348 | Every second of a date prints that date |
| `Dates.GoodForNinetyDays` | src/cost/pricing.rs:503-532 | A book is good for the ninety days that begin on its date, cut short by its expiry, and no others; past them it says how many days ago it expired, or how many have gone by since its date |
| `Dates.WhatCannotBeDated` | src/cost/pricing.rs:503-532 | A book is never taken for good by a text that is no date, and which of today, expiry and last check is at fault is named, in that order |
| `Ledgers.Ledger.Record` | src/cost/ledger.rs:157-164 | A call is priced once, when recorded, and a call without a price is kept |
| `Ledgers.Ledger.RecordUnpriced` | src/cost/ledger.rs:174-182 | A call nobody could price is kept, without a cost |
| `Ledgers.Ledger.Absorb` | src/cost/ledger.rs:213-215 | The other ledger's calls go after this one's |
| `Ledgers.Ledger.Overall` | src/cost/ledger.rs:326-341 | There is no total exactly when two costs are in different currencies |
| `Ledgers.Ledger.Totals` | src/cost/ledger.rs:382-405 | One total for every currency that was priced, and no other |
| `Ledgers.Ledger.Estimated` | src/cost/ledger.rs:243-260 | What was estimated, by currency |
| `Ledgers.KindOfFigure` | src/cost/ledger.rs:346-374 | Two flags come to the join of what every part makes of the figure |
| `Ledgers.KindIsTheLeastBound` | src/cost/ledger.rs:346-374 | A figure's kind is the least that none of its parts is worse than |
| `Ledgers.WholeExactlyWhen` | src/cost/ledger.rs:300-313 | A total is exact only when every call was priced from usage reported in full, and then it is |
| `Ledgers.OneCurrencyIsTheTotal` | src/cost/ledger.rs:374-382 | With one currency its own total is the total |
| `Ledgers.AbsorbAdds` | src/cost/ledger.rs:213-215 | After absorbing, every currency has the sum of the amounts and the worse of the kinds |
| `Ledgers.EstimatesAreWithinTotals` | src/cost/ledger.rs:243-260 | What was estimated is never above the total, and is there exactly when the total says so |
| `Summaries.Fold` | src/bin/llmr/store.rs:614-622 | The fold into a growing list is the fold function |
| `Summaries.FoldedKeysDiffer` | src/bin/llmr/store.rs:614-622 | Rows sorted by key fold into distinct keys |
| `Summaries.FoldedIsByKey` | src/bin/llmr/store.rs:614-622 | Each total is everything its key's rows came to, in every counter and currency |
| `Summaries.FoldingLosesNothing` | src/bin/llmr/usage.rs:340-359 | All groups together are all rows together |
| `Summaries.GroupsAddUpToTheTotal` | src/bin/llmr/manage.rs:1146-1167 | However the same requests are grouped, the groups add up to the ungrouped total |
| `Prices.NeedsAPerson` | src/bin/llmr/prices.rs:526-549 | The first part of a price that moves too far, in the order the parts are looked at |
| `Prices.MovesInWholes` | src/bin/llmr/prices.rs:541-546 | A charge that is there moves too far exactly when it leaves half to half as much again |
| `Prices.NoMoveExactlyWhen` | src/bin/llmr/prices.rs:526-549 | A price needs nobody exactly when no part of it moves too far |
| `Prices.ReasonIsTheFirstMove` | src/bin/llmr/prices.rs:526-549 | The reason names the first part that moves too far, in the order input, output, cache read, cache write, picture, second, character, with that part's own two amounts |
| `Prices.ParseSource` | src/bin/llmr/prices.rs:464-506 | The rows of a list and how many were passed over, and nothing when it prices nothing |
| `Prices.RowsAreOfEntries` | src/bin/llmr/prices.rs:464-506 | The rows of a list are, one each and in order, those of its entries that have a price and are Gemini's by a prefixed name, listed without the prefix, or Anthropic's or OpenAI's by a name without a slash |
| `Prices.ListedExactlyWhen` | src/bin/llmr/prices.rs:471-499 | A model of a vendor is listed at a price if and only if some such entry has that price |
| `Prices.SkippedAreThePriceless` | src/bin/llmr/prices.rs:494-499 | What is counted as passed over is every such entry without a price that can be charged, and nothing else |
| `Prices.ListsAreDistinct` | src/bin/llmr/prices.rs:471-499 | No model of a vendor is listed twice, however it is named |
| `Prices.Plan` | src/bin/llmr/prices.rs:555-610 | The changes and the counts the loop makes, each row decided by the table as it was |
| `Prices.SummaryAddsUp` | src/bin/llmr/prices.rs:555-610 | Applied, held and unchanged rows add up to those seen; applied, held and changed are the changes made that apply a price, hold one, and replace one that applied |
| `Prices.ChangesSayFromWhere` | src/bin/llmr/prices.rs:555-610 | Every price a sync applies differs from the one it says applied before, which is the one that did; every price it holds gives the move from that one which is too far; and it drops only what is held |
| `Stores.Store.ApplyPriceChanges` | src/bin/llmr/store.rs:729-791 | The whole new table, empty rows removed |
| `Stores.Store.SettleHeld` | src/bin/llmr/store.rs:819-836 | The whole new table, and an error exactly when nothing is held |
| `Stores.Store.Sync` | src/bin/llmr/prices.rs:157-174 | Deciding and applying are one step of the table |
| `Stores.SyncAt` | src/bin/llmr/store.rs:729-791 | A sync touches a row by the rate its own model is listed at and by nothing else |
| `PriceRuns.EveryStateIsSound` | src/bin/llmr/store.rs:729-836 | In every reachable table no row is empty, and a held price is neither what applies nor what was refused |
| `PriceRuns.SyncIsIdempotent` | src/bin/llmr/prices.rs:555-610 | Syncing a list again changes nothing and counts every row as unchanged |
| `PriceRuns.PriceAfterSync` | src/bin/llmr/prices.rs:555-610 | After a sync a price is the listed one exactly when nothing applied or the move is small enough, and is as it was otherwise |
| `PriceRuns.PriceAfterSettling` | src/bin/llmr/store.rs:819-836 | Only accepting makes a held price apply |
| `PriceRuns.HeldAfterSync` | src/bin/llmr/prices.rs:573-597 | What is held after a sync, in every case |
| `PriceRuns.EditionsAfterSync` | src/bin/llmr/store.rs:729-791 | A price is marked with the edition of the sync that brought it, held or applied, and keeps that mark until it is replaced |
| `PriceRuns.EditionsAfterSettling` | src/bin/llmr/store.rs:819-836 | An accepted price is marked with the edition it was held in |
| `PriceRuns.StampsAfterSync` | src/bin/llmr/store.rs:729-791 | A row bears the time of the sync that last made a price of it apply, or that made the row, and a held price that of the sync that brought it |
| `PriceRuns.SettlingAnswersTheHold` | src/bin/llmr/store.rs:819-836 | Settling takes the held price off, remembers it when it is refused, forgets an earlier refusal when it is accepted, stamps the row, and touches no other |
| `PriceRuns.RejectedAfterSync` | src/bin/llmr/store.rs:729-791 | What was refused is forgotten when a price applies anew, and only then |
| `PriceRuns.StaleHoldStaysExactlyWhen` | src/bin/llmr/prices.rs:565-584 | After any list, a hold that the list does not give stays exactly when the list does not price the model or is back at the refused price |
| `PriceRuns.AnUnlistedHoldStays` | src/bin/llmr/prices.rs:565-566 | A run that ends with a hold for a model the list has left out |
| `PriceRuns.AStaleHoldStays` | src/bin/llmr/prices.rs:578-584 | A run that ends with a hold while the list is back at the refused price |
| `PriceRuns.PricesDriftSlowly` | src/bin/llmr/prices.rs:526-610 | Over any run in which nobody accepts a price for a model, no charge of it goes away and each stays within 2^-k and 1.5^k of what it was, for k syncs |
| `PriceRuns.HalvingIsReached` | src/bin/llmr/prices.rs:541-546 | The lower bound is met: for every k whose power of two can be held, a run of k syncs nobody takes part in that takes a charge from 2^k to 1 |
| `PriceRuns.GrowingIsReached` | src/bin/llmr/prices.rs:541-546 | And the upper one: a run of k syncs that takes a charge from 2^k to 3^k |
| `Effectives.Compose` | src/bin/llmr/prices.rs:670-706 | A provider's book has for every model the price set by hand, else the synced one, else the shipped one, with where it came from, and there is no book exactly when there is no price; it has the name and currency of the shipped book on the vendor's own endpoint, and otherwise a name of the provider's own and dollars |
| `Effectives.VendorExactlyWhen` | src/bin/llmr/prices.rs:627-637 | A vendor's published prices hold for a provider exactly when it has no base URL of its own and is of that vendor's type |
| `Effectives.ElsewhereOnlyHandSet` | src/bin/llmr/prices.rs:676-704 | Away from a vendor's own endpoint, a model has a price exactly when somebody set one by hand for that provider |
| `Effectives.HandSetWins` | src/bin/llmr/prices.rs:700-704 | A price set by hand is charged on any endpoint, whatever the lists say, and is marked with the day it was set |
| `Effectives.ChargesWhatApplies` | src/bin/llmr/prices.rs:670-706 | On the vendor's own endpoint, a model nobody priced by hand is charged the price that applies in the table |
| `Effectives.OriginIsWhereItApplies` | src/bin/llmr/prices.rs:670-706 | And the price is marked as synced, with its edition, exactly when the table has one, and otherwise as shipped, with the name of the shipped book |
| `Effectives.NoHeldPriceIsCharged` | src/bin/llmr/prices.rs:670-706 | In no reachable state is a held or refused price charged, unless set by hand |

## Left out

- HTTP, server start and shutdown, request handlers, streaming bodies and logging: plumbing around what is modelled.
- SQLite: the price table is a map with the row effects of its statements, and the usage query a list of rows each of which is the sum of the requests it covers. A query whose sum overflows is an error there and does not occur here.
- JSON and TOML: values are opaque, with a reader and a writer; a round trip is a condition where one is needed.
- Vendor translation of requests and replies, and the reading of one price entry (`rate_of`, `banded`, `micros`): they depend on the vendors' shapes, and the last on decimal fractions in floating point.
- Credentials, tokens and bearer checks: library ciphers.
- Async execution and threads: a request is sequential and a purse is shared by atomic steps. Health that changes under a request because of another one is not modelled. With one request at a time a failure never cuts a rest short; a denial at a startup check can, and `Breakers.ClosingShortensExactlyWhen` says when.
- `Router::stream` and its counting of unmeasured calls: it is `chat` with a different call, and the purse operations it uses are modelled.
- The bodies of requests that are not chat, and of their answers: opaque, and stood for by a chat request and reply.
- The text of messages: they are kept as the values they are formatted from.
- The order of currencies, totals and editions in a ledger, and of costs in a usage report: maps and sets stand for sorted lists. `summary` and `editions` are views.
- The protocol's own words for why a reply stopped: the reason itself is kept.
- Views, builders, enum spellings, the sync schedule and its configuration.
- Prices.Moves: compares real quotients where the code compares 64-bit floating point ones; the two agree for amounts up to a thousand dollars, which is the most a list can give.
- PriceRuns.PricesDriftSlowly: asks that the price it starts from is not negative, as no listed price is.
- Retries.Retry.Valid: asks for a ceiling under a thousand years, past which the jitter would divide by zero.
- Dates.DayNumber: does not model the overflow of years whose day number does not fit 64 bits.
- Summaries.Absorbed: counters are unbounded, where the code's are 64-bit and overflow.
- Breakers.BackoffFailuresAreSpreadOut: asks that the failure counter does not wrap in the run and that the clock fits its milliseconds.
- Deadlines.RequestEndsInTime: asks that waits do not overrun, without which a request can end any time later.
- Requests.FailingRouteIsLeftAlone: asks the same of the counter and the clock.
- Requests.SpendingIsBounded: asks that replies keep to their limits and come from the model asked for, that names differ and that rates are not negative; each can fail, and the bound with it.
- SharedPurses.OvershootIsBounded: asks that the bound itself fits 64 bits, since the purse wraps.
- Conservation.ReplyKeepsEverything: says of signatures only that each is kept once; their order is the subject of `Signatures`.
- Ledgers.AbsorbAdds: asks for amounts that are not negative, as saturating sums of mixed signs depend on their order.
- Ledgers.EstimatesAreWithinTotals: asks for amounts that are not negative, without which a credit could put the total under its own estimates.
