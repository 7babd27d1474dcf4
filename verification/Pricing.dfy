/** The price of a call: rates per unit, and the integer arithmetic that charges by them. Amounts
    are in micros, a millionth of the currency's unit each. */
module Pricing {
  import opened Basics
  import opened Usages

  /** Token and character rates are per million, pictures each, audio per second. */
  datatype Rate = Rate(
    input: I64,
    cacheRead: I64,
    cacheWrite: I64,
    output: I64,
    image: I64,
    audioSecond: I64,
    character: I64)
  {
    predicate ByToken() {
      input != 0 || cacheRead != 0 || cacheWrite != 0 || output != 0
    }

    predicate NonNegative() {
      && 0 <= input && 0 <= cacheRead && 0 <= cacheWrite && 0 <= output
      && 0 <= image && 0 <= audioSecond && 0 <= character
    }
  }

  /** Pictures, seconds and characters: what is sold by something other than the token. */
  datatype Units = Units(images: Option<U64>, audioMillis: Option<U64>, characters: Option<U64>)

  const NO_UNITS := Units(None, None, None)

  datatype Priced = Priced(amount: I64, currency: string, book: string, coverage: Coverage)

  datatype PriceBook = PriceBook(id: string, currency: string, rates: map<string, Rate>)
  {
    function RateOf(model: string): Option<Rate> {
      if model in rates then Some(rates[model]) else None
    }

    /** The price of a call: every part of the rate that was measured, charged; nothing when no
        part was. */
    function PriceWith(model: string, usage: Usage, units: Units): Option<Priced> {
      if model !in rates || !Measured(rates[model], usage, units) then None
      else Some(Priced(Amount(rates[model], usage, units), currency, id,
                       CoverageOf(rates[model], usage, units)))
    }

    function Price(model: string, usage: Usage): Option<Priced> {
      PriceWith(model, usage, NO_UNITS)
    }
  }

  // ----- one line of a price

  /** One line of a price: a count, held to what 63 bits can carry, times the price of `per`
      of them. */
  function Line(count: Option<U64>, price: I64, per: nat): I64
    requires per > 0
  {
    match count
    case None => 0
    case Some(n) => Truncated(SatMul(Min(n, I64_MAX), price), per)
  }

  function Truncated(a: I64, per: nat): (t: I64)
    requires per > 0
  {
    TruncateShrinks(a, per);
    Truncate(a, per)
  }

  lemma TruncateShrinks(a: int, per: nat)
    requires per > 0
    ensures a >= 0 ==> 0 <= Truncate(a, per) <= a
    ensures a <= 0 ==> a <= Truncate(a, per) <= 0
  {
    if a >= 0 {
      QuotientShrinks(a, per);
    } else {
      QuotientShrinks(-a, per);
    }
  }

  lemma ProductAtLeast(q: int, per: nat)
    requires per > 0
    ensures q >= 0 ==> per * q >= q
    ensures q < 0 ==> per * q < 0
  {
  }

  lemma QuotientShrinks(a: nat, per: nat)
    requires per > 0
    ensures 0 <= a / per <= a
  {
    var q := a / per;
    assert a == per * q + a % per;
    ProductAtLeast(q, per);
  }

  lemma NothingForFree(count: Option<U64>, per: nat)
    requires per > 0
    ensures Line(count, 0, per) == 0
  {
  }

  function TokenLine(count: Option<U64>, price: I64): I64 {
    Line(count, price, MILLION)
  }

  // ----- what a rate charges

  predicate TokensMeasured(rate: Rate, usage: Usage) {
    rate.ByToken() && usage.Coverage() != Absent
  }

  predicate Measured(rate: Rate, usage: Usage, units: Units) {
    || TokensMeasured(rate, usage)
    || (rate.image != 0 && units.images.Some?)
    || (rate.audioSecond != 0 && units.audioMillis.Some?)
    || (rate.character != 0 && units.characters.Some?)
  }

  /** Whether a part of the rate had nothing to measure it. */
  predicate Missing(rate: Rate, usage: Usage, units: Units) {
    || (rate.ByToken() && usage.Coverage() == Absent)
    || (rate.image != 0 && units.images.None?)
    || (rate.audioSecond != 0 && units.audioMillis.None?)
    || (rate.character != 0 && units.characters.None?)
  }

  function CoverageOf(rate: Rate, usage: Usage, units: Units): Coverage {
    if Missing(rate, usage, units) then Partial
    else if rate.ByToken() then usage.Coverage()
    else Exact
  }

  function TokenAmount(rate: Rate, usage: Usage): I64 {
    SatAdd(SatAdd(SatAdd(TokenLine(usage.input, rate.input),
                         TokenLine(usage.cacheRead, rate.cacheRead)),
                  TokenLine(usage.cacheWrite, rate.cacheWrite)),
           TokenLine(usage.output, rate.output))
  }

  function Amount(rate: Rate, usage: Usage, units: Units): I64 {
    var tokens := if TokensMeasured(rate, usage) then TokenAmount(rate, usage) else 0;
    SatAdd(SatAdd(SatAdd(tokens, Line(units.images, rate.image, 1)),
                  Line(units.audioMillis, rate.audioSecond, 1_000)),
           Line(units.characters, rate.character, MILLION))
  }

  // ----- the same, as it is computed

  /** A price being worked out: the amount so far, and whether anything was measured or was
      there to measure and was not. */
  class Tally {
    var amount: I64
    var measured: bool
    var missing: bool

    constructor ()
      ensures amount == 0 && !measured && !missing
    {
      amount, measured, missing := 0, false, false;
    }

    method Unit(price: I64, count: Option<U64>, per: nat)
      requires per > 0
      modifies this
      ensures amount == SatAdd(old(amount), Line(count, price, per))
      ensures measured == (old(measured) || (price != 0 && count.Some?))
      ensures missing == (old(missing) || (price != 0 && count.None?))
    {
      if price == 0 {
        NothingForFree(count, per);
        return;
      }
      match count {
        case Some(n) =>
          measured := true;
          amount := SatAdd(amount, Truncated(SatMul(Min(n, I64_MAX), price), per));
        case None =>
          missing := true;
      }
    }
  }

  method PriceWith(book: PriceBook, model: string, usage: Usage, units: Units)
    returns (priced: Option<Priced>)
    ensures priced == book.PriceWith(model, usage, units)
  {
    hide Line, TokenAmount;
    var found := book.RateOf(model);
    if found.None? {
      return None;
    }
    var rate := found.value;
    var tally := new Tally();
    var coverage := Exact;
    if rate.ByToken() {
      if usage.Coverage() == Absent {
        tally.missing := true;
      } else {
        tally.measured := true;
        coverage := usage.Coverage();
        tally.amount := TokenAmount(rate, usage);
      }
    }
    tally.Unit(rate.image, units.images, 1);
    tally.Unit(rate.audioSecond, units.audioMillis, 1_000);
    tally.Unit(rate.character, units.characters, MILLION);
    if !tally.measured {
      return None;
    }
    if tally.missing {
      coverage := Partial;
    }
    priced := Some(Priced(tally.amount, book.currency, book.id, coverage));
  }
}
