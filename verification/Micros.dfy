/** An amount of money in millionths, as a price list writes it and as it is written back. */
module Micros {
  import opened Basics
  import opened Decimals

  const PLACES := 6

  datatype ParseError = NotDecimal | TooManyPlaces | TooLarge

  /** The parts of a decimal: a sign, the digits before the point, and those after it. */
  datatype Parts = Parts(negative: bool, whole: string, fraction: string)

  function PartsOf(text: string): Parts {
    var trimmed := Trim(text);
    var negative := trimmed != "" && trimmed[0] == '-';
    var digits := if negative then trimmed[1..] else trimmed;
    match SplitOnce(digits, '.')
    case Some((whole, fraction)) => Parts(negative, whole, fraction)
    case None => Parts(negative, digits, "")
  }

  /** Reads an amount. A seventh place is refused, not rounded away. */
  function Parse(text: string): Result<I64, ParseError> {
    var p := PartsOf(text);
    if p.whole == "" || !AllDigits(p.whole) || !AllDigits(p.fraction) then Err(NotDecimal)
    else if |p.fraction| > PLACES then Err(TooManyPlaces)
    else if Value(p.whole) > I64_MAX then Err(TooLarge)
    else
      var total := Value(p.whole) * MILLION + Value(p.fraction + Zeros(PLACES - |p.fraction|));
      if total > I64_MAX then Err(TooLarge)
      else Ok(Signed(p.negative, total))
  }

  method ParseMicros(text: string) returns (r: Result<I64, ParseError>)
    ensures r == Parse(text)
  {
    hide Trim, SplitOnce, Value;
    var trimmed := Trim(text);
    var negative, digits := false, trimmed;
    if trimmed != "" && trimmed[0] == '-' {
      negative, digits := true, trimmed[1..];
    }
    var whole, fraction := digits, "";
    match SplitOnce(digits, '.') {
      case Some(parts) => whole, fraction := parts.0, parts.1;
      case None =>
    }
    assert PartsOf(text) == Parts(negative, whole, fraction);
    hide PartsOf;
    if whole == "" || !AllDigits(whole) || !AllDigits(fraction) {
      return Err(NotDecimal);
    }
    if |fraction| > PLACES {
      return Err(TooManyPlaces);
    }
    if Value(whole) > I64_MAX {
      return Err(TooLarge);
    }
    var padded := fraction;
    while |padded| < PLACES
      invariant |fraction| <= |padded| <= PLACES
      invariant padded == fraction + Zeros(|padded| - |fraction|)
    {
      padded := padded + "0";
    }
    var total := Value(whole) * MILLION;
    if total > I64_MAX {
      return Err(TooLarge);
    }
    total := total + Value(padded);
    if total > I64_MAX {
      return Err(TooLarge);
    }
    r := Ok(Signed(negative, total));
  }

  /** An amount as text, always with its six places. */
  function Exact(amount: I64): string {
    var n := Signed(amount < 0, amount);
    (if amount < 0 then "-" else "") + Digits(n / MILLION) + "." + Padded(n % MILLION, PLACES)
  }

  // ----- what can be read

  /** A decimal, written with or without a point. */
  datatype Decimal = Decimal(negative: bool, whole: string, point: bool, fraction: string)
  {
    ghost predicate Valid() {
      && whole != "" && AllDigits(whole) && AllDigits(fraction)
      && |fraction| <= PLACES
      && (!point ==> fraction == "")
    }

    function Text(): string {
      (if negative then "-" else "") + whole + (if point then "." + fraction else "")
    }

    /** The size of the amount in millionths: all its digits as one number, scaled by the places
        that are not there. */
    ghost function Size(): nat
      requires Valid()
    {
      Value(whole + fraction) * Pow10(PLACES - |fraction|)
    }
  }

  lemma SizeOfParts(whole: string, fraction: string)
    requires AllDigits(whole) && AllDigits(fraction) && |fraction| <= PLACES
    ensures AllDigits(whole + fraction)
    ensures Value(whole + fraction) * Pow10(PLACES - |fraction|) ==
            Value(whole) * MILLION + Value(fraction + Zeros(PLACES - |fraction|))
  {
    hide Value, Pow10, Zeros;
    var rest := PLACES - |fraction|;
    ValueOfZeros(whole + fraction, rest);
    ValueOfConcat(whole, fraction + Zeros(rest));
    assert whole + fraction + Zeros(rest) == whole + (fraction + Zeros(rest));
    MillionIsPow10();
  }

  lemma MillionIsPow10()
    ensures Pow10(6) == MILLION
  {
    assert Pow10(3) == 1_000;
  }

  /** The text of a decimal after its sign. */
  function Unsigned(whole: string, point: bool, fraction: string): string {
    whole + if point then "." + fraction else ""
  }

  lemma PartsOfDecimal(text: string, d: Decimal)
    requires d.Valid() && Trim(text) == d.Text()
    ensures PartsOf(text) == Parts(d.negative, d.whole, d.fraction)
  {
    hide Trim, SplitOnce, Value;
    var digits := Unsigned(d.whole, d.point, d.fraction);
    assert d.Text() == (if d.negative then "-" else "") + digits;
    assert digits[0] == d.whole[0] && IsDigit(d.whole[0]);
    assert (if d.negative then d.Text()[1..] else d.Text()) == digits;
    assert '.' !in d.whole;
    if d.point {
      SplitsAtFirst(d.whole, '.', d.fraction);
      assert digits == d.whole + ['.'] + d.fraction;
    } else {
      assert digits == d.whole;
      SplitOnceJoins(digits, '.');
    }
  }

  lemma PartsAreDigits(text: string)
    requires Parse(text).Ok?
    ensures var p := PartsOf(text);
            p.whole != "" && AllDigits(p.whole) && AllDigits(p.fraction) && |p.fraction| <= PLACES
  {
    hide PartsOf, Value, Zeros;
  }

  lemma DecimalOfParts(text: string) returns (d: Decimal)
    requires Parse(text).Ok?
    ensures d.Valid() && Trim(text) == d.Text()
    ensures PartsOf(text) == Parts(d.negative, d.whole, d.fraction)
  {
    hide Parse, PartsOf, AllDigits;
    PartsAreDigits(text);
    var point := PartsAreText(text);
    var p := PartsOf(text);
    d := Decimal(p.negative, p.whole, point, p.fraction);
    assert d.Text() == (if p.negative then "-" else "") + p.whole + (if point then "." + p.fraction else "");
  }

  /** A text is its parts put together again. */
  lemma PartsAreText(text: string) returns (point: bool)
    ensures var p := PartsOf(text);
            && (!point ==> p.fraction == "")
            && Trim(text) == (if p.negative then "-" else "") + p.whole + (if point then "." + p.fraction else "")
  {
    hide Trim, SplitOnce;
    var trimmed := Trim(text);
    var negative := trimmed != "" && trimmed[0] == '-';
    var sign := if negative then "-" else "";
    var digits := if negative then trimmed[1..] else trimmed;
    SplitOnceJoins(digits, '.');
    point := SplitOnce(digits, '.').Some?;
    assert trimmed == sign + digits;
    if point {
      var (whole, fraction) := SplitOnce(digits, '.').value;
      assert digits == whole + "." + fraction;
      assert sign + digits == sign + whole + ("." + fraction);
    } else {
      assert sign + digits == sign + digits + "";
    }
  }

  lemma ReadingOfDecimal(text: string, d: Decimal)
    requires d.Valid() && PartsOf(text) == Parts(d.negative, d.whole, d.fraction)
    ensures Parse(text) == if d.Size() <= I64_MAX then Ok(Signed(d.negative, d.Size())) else Err(TooLarge)
  {
    hide PartsOf, Value, Pow10, Zeros;
    SizeOfParts(d.whole, d.fraction);
  }

  /** The theorem: what is read is exactly the decimals with at most six places whose size fits,
      each as its own value in millionths, and nothing else. */
  lemma ParsesExactly(text: string, amount: I64)
    ensures Parse(text) == Ok(amount) <==>
            exists d: Decimal :: d.Valid() && Trim(text) == d.Text() && d.Size() <= I64_MAX &&
                                 amount == Signed(d.negative, d.Size())
  {
    hide Trim, PartsOf, Decimal.Text, Decimal.Size, Decimal.Valid;
    if Parse(text) == Ok(amount) {
      var d := DecimalOfParts(text);
      ReadingOfDecimal(text, d);
    }
    if d: Decimal :| d.Valid() && Trim(text) == d.Text() && d.Size() <= I64_MAX &&
                     amount == Signed(d.negative, d.Size()) {
      PartsOfDecimal(text, d);
      ReadingOfDecimal(text, d);
    }
  }

  // ----- written and read back

  lemma ExactIsTrimmed(amount: I64)
    ensures Trim(Exact(amount)) == Exact(amount)
  {
    var n := Signed(amount < 0, amount);
    var text, padded := Exact(amount), Padded(n % MILLION, PLACES);
    assert text[|text| - 1] == padded[|padded| - 1];
    assert text[0] == if amount < 0 then '-' else Digits(n / MILLION)[0];
  }

  /** An amount written out reads back as itself, and the one that does not read back at all is
      the smallest there is: its size does not fit. */
  lemma ExactReadsBack(amount: I64)
    ensures Parse(Exact(amount)) == if amount == I64_MIN then Err(TooLarge) else Ok(amount)
  {
    var n := Signed(amount < 0, amount);
    var d := DecimalOfExact(amount);
    PartsOfDecimal(Exact(amount), d);
    ReadingOfDecimal(Exact(amount), d);
  }

  lemma DecimalOfExact(amount: I64) returns (d: Decimal)
    ensures d.Valid() && Trim(Exact(amount)) == d.Text()
    ensures d.negative == (amount < 0) && d.Size() == Signed(amount < 0, amount)
  {
    hide Value, Pow10, Zeros, Digits, Padded, Trim;
    var n := Signed(amount < 0, amount);
    SixPlaces(n % MILLION);
    ExactIsTrimmed(amount);
    d := Decimal(amount < 0, Digits(n / MILLION), true, Padded(n % MILLION, PLACES));
    assert d.Text() == Exact(amount);
    SizeOfDigits(n);
  }

  lemma SixPlaces(micros: nat)
    requires micros < MILLION
    ensures |Padded(micros, PLACES)| == PLACES
  {
    MillionIsPow10();
    hide Digits, Pow10;
    DigitsAreFew(micros, PLACES);
  }

  /** The digits before the point and the six after it, together, are the amount's own. */
  lemma SizeOfDigits(n: nat)
    ensures Value(Digits(n / MILLION) + Padded(n % MILLION, PLACES)) * Pow10(0) == n
  {
    assert Pow10(0) == 1;
    MillionIsPow10();
    hide Value, Pow10, Digits, Padded;
    SixPlaces(n % MILLION);
    ValueOfConcat(Digits(n / MILLION), Padded(n % MILLION, PLACES));
    ValueOfDigits(n / MILLION);
    ValueOfPadded(n % MILLION, PLACES);
  }

  /** Any text that reads at all has a written form that reads as the same amount. */
  lemma EveryReadingIsWritable(text: string)
    requires Parse(text).Ok?
    ensures Parse(Exact(Parse(text).value)) == Parse(text)
  {
    ExactReadsBack(Parse(text).value);
  }
}
