/** What can go wrong with a call, and what a router says about the routes that did not serve.

    Durations are nanoseconds, bounded by the longest duration the source can hold. The text
    of a message is kept as the values it is formatted from. */
module Reports {
  import opened Basics

  const NANOS_PER_MILLI := 1_000_000
  const LONGEST_DURATION := U64_MAX * 1_000_000_000 + 999_999_999

  type Duration = d: int | 0 <= d <= LONGEST_DURATION

  datatype Error =
    | Unsupported(why: Text)
    | Auth(message: string)
    | NotFound(message: string)
    | InvalidRequest(message: string)
    | RateLimited(retryAfter: Option<Duration>)
    | Timeout(elapsed: Duration)
    | Refused(category: Option<string>)
    | Transient(why: Text)
    | OverBudget(why: Text)
    | Unreadable(message: string)
  {
    /** The failures a second try may get past. */
    predicate IsRetryable() {
      RateLimited? || Timeout? || Transient?
    }

    /** How long the provider asked to be left alone, when it said. */
    function RetryAfter(): Option<Duration> {
      if RateLimited? then retryAfter else None
    }
  }

  /** A message: words somebody wrote, or the list of everything a router tried. */
  datatype Text =
    | Said(words: string)
    | NoRouteCanServe(tried: seq<Attempted>)
    | EveryRouteResting(tried: seq<Attempted>)
    | NothingAffordable(tried: seq<Attempted>)

  /** A route that did not serve a request, and why. */
  datatype Attempted = Attempted(route: string, why: Why)

  datatype Why =
    | UnknownModel
    | Cannot(missing: seq<string>)
    | Resting(left: Duration, denied: bool, failures: U32)
    | NoMoney(broke: Broke)
    | Failing(error: Error)
    | TryingAgain(error: Error, attempt: nat, allowed: nat, wait: Duration)
  {
    /** Whether nothing was sent: the route was passed over before it was called. */
    predicate Skip() {
      UnknownModel? || Cannot? || Resting? || NoMoney?
    }
  }

  /** Why a budget refuses a route. */
  datatype Broke =
    | Spent
    | NoBook
    | NotListed
    | OtherCurrency(currency: string)
    | ReplyTooDear(most: I64, left: I64)
}
