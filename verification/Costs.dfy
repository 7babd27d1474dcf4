/** What the integer prices are worth beside the exact cost: never above it, short by less than a
    micro a line, and never less for having counted more. */
module Costs {
  import opened Basics
  import opened Usages
  import opened Pricing

  // ----- the exact cost

  /** The exact cost of a count, in millionths of a micro, when a unit costs `worth` of them. */
  function Cost(count: Option<U64>, worth: nat): nat {
    Times(Count(count), worth)
  }

  /** The exact cost of a call, in millionths of a micro. */
  function ExactCost(rate: Rate, usage: Usage, units: Units): nat
    requires rate.NonNegative()
  {
    Cost(usage.input, rate.input) + Cost(usage.cacheRead, rate.cacheRead)
    + Cost(usage.cacheWrite, rate.cacheWrite) + Cost(usage.output, rate.output)
    + 1_000_000 * Cost(units.images, rate.image)
    + 1_000 * Cost(units.audioMillis, rate.audioSecond)
    + Cost(units.characters, rate.character)
  }

  /** A line that is charged: something was counted, and it has a price. */
  function Charged(count: Option<U64>, price: I64): (n: nat) {
    if count.Some? && price != 0 then 1 else 0
  }

  function LinesCharged(rate: Rate, usage: Usage, units: Units): nat {
    Charged(usage.input, rate.input) + Charged(usage.cacheRead, rate.cacheRead)
    + Charged(usage.cacheWrite, rate.cacheWrite) + Charged(usage.output, rate.output)
    + Charged(units.images, rate.image) + Charged(units.audioMillis, rate.audioSecond)
    + Charged(units.characters, rate.character)
  }

  /** No line, and no sum of them, runs into the largest amount there is. */
  predicate NothingSaturates(rate: Rate, usage: Usage, units: Units)
    requires rate.NonNegative()
  {
    && Cost(usage.input, rate.input) <= I64_MAX && Cost(usage.cacheRead, rate.cacheRead) <= I64_MAX
    && Cost(usage.cacheWrite, rate.cacheWrite) <= I64_MAX && Cost(usage.output, rate.output) <= I64_MAX
    && Cost(units.images, rate.image) <= I64_MAX && Cost(units.audioMillis, rate.audioSecond) <= I64_MAX
    && Cost(units.characters, rate.character) <= I64_MAX
    && ExactCost(rate, usage, units) <= 1_000_000 * I64_MAX
  }

  // ----- one line

  lemma ProductIsAtLeast(n: nat, price: nat)
    requires price >= 1
    ensures Times(n, price) >= n
  {
    TimesGrows(n, 1, price);
  }

  /** A line is its exact cost, held to the largest amount, in whole units of what it is priced by. */
  lemma LineIsCost(count: Option<U64>, price: nat, per: nat)
    requires price <= I64_MAX && per > 0
    ensures Line(count, price, per) == Min(Cost(count, price), I64_MAX) / per
  {
    var n := Count(count);
    if count.None? {
      assert Times(0, price) == 0;
      NothingDivided(per);
    } else if n <= I64_MAX {
      assert SatMul(n, price) == Min(Times(n, price), I64_MAX) by { TimesIsNonNegative(n, price); }
    } else if price == 0 {
      NothingDivided(per);
    } else {
      ProductIsAtLeast(n, price);
      ProductIsAtLeast(I64_MAX, price);
      assert SatMul(I64_MAX, price) == I64_MAX;
    }
  }

  lemma NothingDivided(per: nat)
    requires per > 0
    ensures 0 / per == 0
  {
  }

  /** A line is not above its exact cost, and short of it by less than one. */
  lemma LineBounds(count: Option<U64>, price: nat, per: nat)
    requires price <= I64_MAX && per > 0
    ensures 0 <= Line(count, price, per)
    ensures per * Line(count, price, per) <= Cost(count, price)
    ensures Cost(count, price) <= I64_MAX ==>
            Cost(count, price) <= per * Line(count, price, per) + (per - 1) * Charged(count, price)
  {
    LineIsCost(count, price, per);
    var a := Min(Cost(count, price), I64_MAX);
    QuotientShrinks(a, per);
    assert a == per * (a / per) + a % per;
  }

  lemma {:induction false} LineGrows(count: Option<U64>, more: Option<U64>, price: nat, per: nat)
    requires price <= I64_MAX && per > 0 && Count(count) <= Count(more)
    ensures Line(count, price, per) <= Line(more, price, per)
  {
    LineIsCost(count, price, per);
    LineIsCost(more, price, per);
    TimesGrows(price, Count(count), Count(more));
    QuotientGrows(Min(Cost(count, price), I64_MAX), Min(Cost(more, price), I64_MAX), per);
  }

  lemma QuotientGrows(a: nat, b: nat, per: nat)
    requires a <= b && per > 0
    ensures a / per <= b / per
  {
    var q, r := a / per, b / per;
    assert a == per * q + a % per && b == per * r + b % per;
    assert per * (r + 1) == per * r + per;
    if r < q {
      TimesGrows(per, r + 1, q);
    }
  }

  // ----- a whole price

  /** The lines of a price, added up without a limit. */
  function LineSum(rate: Rate, usage: Usage, units: Units): int {
    TokenLine(usage.input, rate.input) + TokenLine(usage.cacheRead, rate.cacheRead)
    + TokenLine(usage.cacheWrite, rate.cacheWrite) + TokenLine(usage.output, rate.output)
    + Line(units.images, rate.image, 1) + Line(units.audioMillis, rate.audioSecond, 1_000)
    + Line(units.characters, rate.character, MILLION)
  }

  lemma AmountIsLineSum(rate: Rate, usage: Usage, units: Units)
    requires rate.NonNegative()
    ensures Amount(rate, usage, units) == Min(LineSum(rate, usage, units), I64_MAX)
  {
    hide Line, Cost, Charged;
    AllLineBounds(rate, usage, units);
    if usage.Coverage() == Absent {
      NothingForNothing(rate.input, MILLION);
      NothingForNothing(rate.cacheRead, MILLION);
      NothingForNothing(rate.cacheWrite, MILLION);
      NothingForNothing(rate.output, MILLION);
    } else if !rate.ByToken() {
      NothingForFree(usage.input, MILLION);
      NothingForFree(usage.cacheRead, MILLION);
      NothingForFree(usage.cacheWrite, MILLION);
      NothingForFree(usage.output, MILLION);
    }
  }

  lemma NothingForNothing(price: I64, per: nat)
    requires per > 0
    ensures Line(None, price, per) == 0
  {
  }

  lemma AllLineBounds(rate: Rate, usage: Usage, units: Units)
    requires rate.NonNegative()
    ensures 0 <= TokenLine(usage.input, rate.input) && 0 <= TokenLine(usage.cacheRead, rate.cacheRead)
    ensures 0 <= TokenLine(usage.cacheWrite, rate.cacheWrite) && 0 <= TokenLine(usage.output, rate.output)
    ensures 0 <= Line(units.images, rate.image, 1) && 0 <= Line(units.audioMillis, rate.audioSecond, 1_000)
    ensures 0 <= Line(units.characters, rate.character, MILLION)
    ensures MILLION * LineSum(rate, usage, units) <= ExactCost(rate, usage, units)
    ensures NothingSaturates(rate, usage, units) ==>
            ExactCost(rate, usage, units) <= MILLION * LineSum(rate, usage, units) + 999_999 * LinesCharged(rate, usage, units)
  {
    hide Line, Cost, Charged;
    assert NothingSaturates(rate, usage, units) ==>
             Cost(usage.input, rate.input) <= I64_MAX && Cost(usage.cacheRead, rate.cacheRead) <= I64_MAX
             && Cost(usage.cacheWrite, rate.cacheWrite) <= I64_MAX && Cost(usage.output, rate.output) <= I64_MAX
             && Cost(units.images, rate.image) <= I64_MAX && Cost(units.audioMillis, rate.audioSecond) <= I64_MAX
             && Cost(units.characters, rate.character) <= I64_MAX;
    hide NothingSaturates;
    LineBounds(usage.input, rate.input, MILLION);
    LineBounds(usage.cacheRead, rate.cacheRead, MILLION);
    LineBounds(usage.cacheWrite, rate.cacheWrite, MILLION);
    LineBounds(usage.output, rate.output, MILLION);
    LineBounds(units.images, rate.image, 1);
    LineBounds(units.audioMillis, rate.audioSecond, 1_000);
    LineBounds(units.characters, rate.character, MILLION);
  }

  /** Rounding and saturation only ever charge less than the exact cost. */
  lemma NeverOvercharges(rate: Rate, usage: Usage, units: Units)
    requires rate.NonNegative()
    ensures 0 <= Amount(rate, usage, units)
    ensures MILLION * Amount(rate, usage, units) <= ExactCost(rate, usage, units)
  {
    hide Amount, LineSum, ExactCost;
    AmountIsLineSum(rate, usage, units);
    AllLineBounds(rate, usage, units);
    LineSumIsNonNegative(rate, usage, units);
  }

  lemma LineSumIsNonNegative(rate: Rate, usage: Usage, units: Units)
    requires rate.NonNegative()
    ensures 0 <= LineSum(rate, usage, units)
  {
    hide Line;
    AllLineBounds(rate, usage, units);
  }

  /** And, short of saturation, by less than a micro for every line charged. */
  lemma ShortByLessThanAMicroALine(rate: Rate, usage: Usage, units: Units)
    requires rate.NonNegative() && NothingSaturates(rate, usage, units)
    ensures ExactCost(rate, usage, units) <=
            MILLION * Amount(rate, usage, units) + 999_999 * LinesCharged(rate, usage, units)
  {
    hide Amount, LineSum, ExactCost, LinesCharged;
    AmountIsLineSum(rate, usage, units);
    AllLineBounds(rate, usage, units);
  }

  /** Counting more of anything never costs less, saturated or not. */
  lemma CountingMoreNeverCostsLess(rate: Rate, usage: Usage, units: Units, usage': Usage, units': Units)
    requires rate.NonNegative()
    requires Count(usage.input) <= Count(usage'.input) && Count(usage.cacheRead) <= Count(usage'.cacheRead)
    requires Count(usage.cacheWrite) <= Count(usage'.cacheWrite) && Count(usage.output) <= Count(usage'.output)
    requires Count(units.images) <= Count(units'.images) && Count(units.audioMillis) <= Count(units'.audioMillis)
    requires Count(units.characters) <= Count(units'.characters)
    ensures Amount(rate, usage, units) <= Amount(rate, usage', units')
  {
    hide Amount, Line, Count;
    AmountIsLineSum(rate, usage, units);
    AmountIsLineSum(rate, usage', units');
    LineGrows(usage.input, usage'.input, rate.input, MILLION);
    LineGrows(usage.cacheRead, usage'.cacheRead, rate.cacheRead, MILLION);
    LineGrows(usage.cacheWrite, usage'.cacheWrite, rate.cacheWrite, MILLION);
    LineGrows(usage.output, usage'.output, rate.output, MILLION);
    LineGrows(units.images, units'.images, rate.image, 1);
    LineGrows(units.audioMillis, units'.audioMillis, rate.audioSecond, 1_000);
    LineGrows(units.characters, units'.characters, rate.character, MILLION);
  }

  /** How a price was measured. It is exact when every part of the rate was, in full; an estimate when
      only estimated tokens stand in the way; and a floor as soon as a part had nothing to measure it,
      even beside an estimate. */
  lemma CoverageSaysWhatIsMissing(rate: Rate, usage: Usage, units: Units)
    requires Measured(rate, usage, units)
    ensures var coverage := CoverageOf(rate, usage, units);
            var unitsCounted := (rate.image != 0 ==> units.images.Some?)
                                && (rate.audioSecond != 0 ==> units.audioMillis.Some?)
                                && (rate.character != 0 ==> units.characters.Some?);
            var tokens := if rate.ByToken() then usage.Coverage() else Exact;
            && coverage != Absent
            && (coverage == Exact <==> unitsCounted && tokens == Exact)
            && (coverage == Estimated <==> unitsCounted && tokens == Estimated)
  {
  }

  // ----- pricing a merged usage

  /** The most one token line comes to, whatever was counted. */
  const LINE_MAX := I64_MAX / MILLION

  /** What the two lines of two counts come to over the most that one line can. */
  function Lost(a: Option<U64>, b: Option<U64>, price: I64): nat {
    Max(0, TokenLine(a, price) + TokenLine(b, price) - LINE_MAX)
  }

  /** The micro that what is cut off two lines makes together, when it does and the line has room for it. */
  function Gained(a: Option<U64>, b: Option<U64>, price: nat): nat {
    if Cost(a, price) % MILLION + Cost(b, price) % MILLION >= MILLION
       && Cost(a, price) / MILLION + Cost(b, price) / MILLION < LINE_MAX
    then 1 else 0
  }

  /** The line of two counts together, to the micro. */
  lemma LineOfMergeIs(a: Option<U64>, b: Option<U64>, price: nat)
    requires price <= I64_MAX
    ensures TokenLine(AddCounts(a, b), price) ==
            TokenLine(a, price) + TokenLine(b, price) + Gained(a, b, price) - Lost(a, b, price)
  {
    LineIsCost(a, price, MILLION);
    LineIsCost(b, price, MILLION);
    LineIsCost(AddCounts(a, b), price, MILLION);
    CostOfMerge(a, b, price);
    QuotientsHeld(Cost(a, price), Cost(b, price));
    hide Line, Cost, AddCounts;
  }

  /** Two costs in whole micros, held to the most a line comes to, apart and together. */
  lemma QuotientsHeld(x: nat, y: nat)
    ensures Min(x, I64_MAX) / MILLION == Min(x / MILLION, LINE_MAX)
    ensures Min(y, I64_MAX) / MILLION == Min(y / MILLION, LINE_MAX)
    ensures Min(x + y, I64_MAX) / MILLION ==
            Min(x / MILLION + y / MILLION + (if x % MILLION + y % MILLION >= MILLION then 1 else 0), LINE_MAX)
  {
    QuotientHeld(x);
    QuotientHeld(y);
    QuotientHeld(x + y);
  }

  lemma QuotientHeld(x: nat)
    ensures Min(x, I64_MAX) / MILLION == Min(x / MILLION, LINE_MAX)
  {
    if x <= I64_MAX {
      QuotientGrows(x, I64_MAX, MILLION);
    } else {
      QuotientGrows(I64_MAX, x, MILLION);
    }
  }

  /** So it is at most one micro above their own two lines, and not below them exactly when those two
      fit in one line. */
  lemma LineOfMerge(a: Option<U64>, b: Option<U64>, price: nat)
    requires price <= I64_MAX
    ensures TokenLine(AddCounts(a, b), price) <= TokenLine(a, price) + TokenLine(b, price) + 1
    ensures TokenLine(a, price) + TokenLine(b, price) <= TokenLine(AddCounts(a, b), price)
            <==> TokenLine(a, price) + TokenLine(b, price) <= LINE_MAX
  {
    LineIsCost(a, price, MILLION);
    LineIsCost(b, price, MILLION);
    QuotientsHeld(Cost(a, price), Cost(b, price));
    LineOfMergeIs(a, b, price);
    hide Line, Cost, AddCounts;
  }

  lemma CostOfMerge(a: Option<U64>, b: Option<U64>, price: nat)
    ensures Min(Cost(AddCounts(a, b), price), I64_MAX) == Min(Cost(a, price) + Cost(b, price), I64_MAX)
  {
    assert Times(Count(a), price) + Times(Count(b), price) == Times(Count(a) + Count(b), price);
    if price >= 1 && Count(a) + Count(b) > U64_MAX {
      ProductIsAtLeast(Count(a) + Count(b), price);
      ProductIsAtLeast(U64_MAX, price);
    }
  }

  /** Without units a price is its four token lines, which leave room to add them up. */
  lemma TokensAlone(rate: Rate, usage: Usage)
    requires rate.NonNegative()
    ensures Amount(rate, usage, NO_UNITS) ==
            TokenLine(usage.input, rate.input) + TokenLine(usage.cacheRead, rate.cacheRead)
            + TokenLine(usage.cacheWrite, rate.cacheWrite) + TokenLine(usage.output, rate.output)
  {
    hide Amount;
    AmountIsLineSum(rate, usage, NO_UNITS);
    NothingForNothing(rate.image, 1);
    NothingForNothing(rate.audioSecond, 1_000);
    NothingForNothing(rate.character, MILLION);
    hide Line;
    TokenLineIsSmall(usage.input, rate.input);
    TokenLineIsSmall(usage.cacheRead, rate.cacheRead);
    TokenLineIsSmall(usage.cacheWrite, rate.cacheWrite);
    TokenLineIsSmall(usage.output, rate.output);
  }

  lemma TokenLineIsSmall(count: Option<U64>, price: nat)
    requires price <= I64_MAX
    ensures 0 <= TokenLine(count, price) <= LINE_MAX
  {
    LineIsCost(count, price, MILLION);
  }

  /** What pricing two usages as one loses, and what it gains, over all four lines. */
  function AllLost(rate: Rate, a: Usage, b: Usage): nat {
    Lost(a.input, b.input, rate.input) + Lost(a.cacheRead, b.cacheRead, rate.cacheRead)
    + Lost(a.cacheWrite, b.cacheWrite, rate.cacheWrite) + Lost(a.output, b.output, rate.output)
  }

  function AllGained(rate: Rate, a: Usage, b: Usage): (gained: nat)
    requires rate.NonNegative()
    ensures gained <= 4
  {
    Gained(a.input, b.input, rate.input) + Gained(a.cacheRead, b.cacheRead, rate.cacheRead)
    + Gained(a.cacheWrite, b.cacheWrite, rate.cacheWrite) + Gained(a.output, b.output, rate.output)
  }

  /** The price of two usages as one, to the micro, for any rate. */
  lemma MergedPriceIs(rate: Rate, a: Usage, b: Usage)
    requires rate.NonNegative()
    ensures Amount(rate, a.Merge(b), NO_UNITS) ==
            Amount(rate, a, NO_UNITS) + Amount(rate, b, NO_UNITS) + AllGained(rate, a, b) - AllLost(rate, a, b)
  {
    hide Amount, Line, AddCounts, TokenLine, Lost, Gained;
    TokensAlone(rate, a);
    TokensAlone(rate, b);
    TokensAlone(rate, a.Merge(b));
    LineOfMergeIs(a.input, b.input, rate.input);
    LineOfMergeIs(a.cacheRead, b.cacheRead, rate.cacheRead);
    LineOfMergeIs(a.cacheWrite, b.cacheWrite, rate.cacheWrite);
    LineOfMergeIs(a.output, b.output, rate.output);
  }

  /** The theorem: two usages never cost less priced as one than priced apart if and only if the lines
      that run full lose no more than the others gain. */
  lemma MergingCostsNoLessExactlyWhen(rate: Rate, a: Usage, b: Usage)
    requires rate.NonNegative()
    ensures Amount(rate, a, NO_UNITS) + Amount(rate, b, NO_UNITS) <= Amount(rate, a.Merge(b), NO_UNITS)
            <==> AllLost(rate, a, b) <= AllGained(rate, a, b)
  {
    hide Amount, AllLost, AllGained;
    MergedPriceIs(rate, a, b);
  }

  /** So priced as one they are never more than four micros above, and never below unless a line is
      full. */
  lemma MergedPriceIsClose(rate: Rate, a: Usage, b: Usage)
    requires rate.NonNegative()
    ensures Amount(rate, a.Merge(b), NO_UNITS) <= Amount(rate, a, NO_UNITS) + Amount(rate, b, NO_UNITS) + 4
    ensures (&& TokenLine(a.input, rate.input) + TokenLine(b.input, rate.input) <= LINE_MAX
             && TokenLine(a.cacheRead, rate.cacheRead) + TokenLine(b.cacheRead, rate.cacheRead) <= LINE_MAX
             && TokenLine(a.cacheWrite, rate.cacheWrite) + TokenLine(b.cacheWrite, rate.cacheWrite) <= LINE_MAX
             && TokenLine(a.output, rate.output) + TokenLine(b.output, rate.output) <= LINE_MAX)
            ==> Amount(rate, a, NO_UNITS) + Amount(rate, b, NO_UNITS) <= Amount(rate, a.Merge(b), NO_UNITS)
  {
    hide Amount, Line, TokenLine, Gained, AllGained;
    MergedPriceIs(rate, a, b);
  }

  /** A full line: two tokens at the highest price there is cost half of what they do apart. */
  lemma FullLineCostsLessMerged()
    ensures var rate := Rate(I64_MAX, 0, 0, 0, 0, 0, 0);
            var token := Usage(Some(1), None, None, None, false);
            rate.NonNegative() && Amount(rate, token.Merge(token), NO_UNITS) < 2 * Amount(rate, token, NO_UNITS)
  {
    var rate := Rate(I64_MAX, 0, 0, 0, 0, 0, 0);
    var token := Usage(Some(1), None, None, None, false);
    TokensAlone(rate, token);
    TokensAlone(rate, token.Merge(token));
    LineIsCost(Some(1), I64_MAX, MILLION);
    LineIsCost(Some(2), I64_MAX, MILLION);
    NothingForFree(None, MILLION);
  }
}
