/** Keeping a run within an amount of money, by looking before each call. */
module Budgets {
  import opened Basics
  import opened Pricing

  datatype Unpriced = Refused | Allowed

  datatype Budget = Budget(cap: I64, currency: string, unpriced: Unpriced)

  /** An upper bound for the reply's own part of a price: every token at the output rate. */
  function MostAReplyCanCost(maxTokens: U32, rate: Rate): I64 {
    Truncated(SatMul(maxTokens, rate.output), MILLION)
  }

  /** What is left of a cap, never below zero. */
  function Remaining(cap: I64, spent: I64): I64 {
    Max(Clamp(cap - spent), 0)
  }

  /** What has gone out so far, and how many calls could not be counted in it. Both numbers wrap, as atomic additions do. */
  datatype PurseState = PurseState(spent: I64, unmeasured: U64)
  {
    function Spend(amount: I64): PurseState {
      this.(spent := Wrap(spent + amount))
    }

    function Unmeasured(): PurseState {
      this.(unmeasured := (unmeasured + 1) % (U64_MAX + 1))
    }

    /** One unmeasured call fewer, for a call priced later. Never below zero. */
    function MeasuredAfterAll(): PurseState {
      this.(unmeasured := if unmeasured == 0 then 0 else unmeasured - 1)
    }
  }

  class Purse {
    var spent: I64
    var unmeasured: U64

    constructor ()
      ensures State() == PurseState(0, 0)
    {
      spent, unmeasured := 0, 0;
    }

    ghost function State(): PurseState
      reads this
    {
      PurseState(spent, unmeasured)
    }

    method Spend(amount: I64)
      modifies this
      ensures State() == old(State()).Spend(amount)
    {
      spent := Wrap(spent + amount);
    }

    method Unmeasured()
      modifies this
      ensures State() == old(State()).Unmeasured()
    {
      unmeasured := (unmeasured + 1) % (U64_MAX + 1);
    }

    method MeasuredAfterAll()
      modifies this
      ensures State() == old(State()).MeasuredAfterAll()
    {
      if unmeasured > 0 {
        unmeasured := unmeasured - 1;
      }
    }
  }
}
