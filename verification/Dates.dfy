/** Two civil calendar algorithms, one from a date to a day number and one back, and the
    calendar they are both about. */
module Dates {
  import opened Basics
  import opened Decimals

  const SECONDS_A_DAY := 86_400

  // ----- the calendar itself: month lengths and the leap rule

  datatype Date = Date(year: int, month: int, day: int)

  predicate IsLeap(year: int) {
    year % 4 == 0 && (year % 100 != 0 || year % 400 == 0)
  }

  function DaysIn(year: int, month: int): int {
    match month
    case 2 => if IsLeap(year) then 29 else 28
    case 4 => 30
    case 6 => 30
    case 9 => 30
    case 11 => 30
    case _ => 31
  }

  predicate IsDate(d: Date) {
    1 <= d.month <= 12 && 1 <= d.day <= DaysIn(d.year, d.month)
  }

  function DayAfter(d: Date): Date {
    if d.day < DaysIn(d.year, d.month) then d.(day := d.day + 1)
    else if d.month < 12 then Date(d.year, d.month + 1, 1)
    else Date(d.year + 1, 1, 1)
  }

  // ----- from a date to a day number

  /** The first day of a month, counted from the first of March. */
  function MonthStart(shifted: int): int
    requires shifted >= 0
  {
    (153 * shifted + 2) / 5
  }

  /** Days before a year that begins in March, counted in a cycle of four hundred. */
  function YearStart(yearOfEra: int): int
    requires yearOfEra >= 0
  {
    yearOfEra * 365 + yearOfEra / 4 - yearOfEra / 100
  }

  /** Days since 1970-01-01. The years begin in March, so that a leap day ends one. */
  function NumberOf(d: Date): int
    requires 1 <= d.month <= 12
  {
    var year := if d.month <= 2 then d.year - 1 else d.year;
    var era := Truncate(if year >= 0 then year else year - 399, 400);
    var yearOfEra := year - era * 400;
    EraIsFloor(year);
    var shifted := (d.month + 9) % 12;
    var dayOfYear := MonthStart(shifted) + d.day - 1;
    var dayOfEra := YearStart(yearOfEra) + dayOfYear;
    era * 146_097 + dayOfEra - 719_468
  }

  lemma EraIsFloor(year: int)
    ensures Truncate(if year >= 0 then year else year - 399, 400) == year / 400
    ensures 0 <= year - year / 400 * 400 < 400
  {
  }

  // ----- from a day number to a date

  function YearOfEra(dayOfEra: int): int
    requires 0 <= dayOfEra < 146_097
  {
    (dayOfEra - dayOfEra / 1_460 + dayOfEra / 36_524 - dayOfEra / 146_096) / 365
  }

  function DateOf(days: int): Date {
    var z := days + 719_468;
    var era := z / 146_097;
    var dayOfEra := z - era * 146_097;
    var yearOfEra := YearOfEra(dayOfEra);
    YearOfEraIsRight(dayOfEra);
    var dayOfYear := dayOfEra - YearStart(yearOfEra);
    var shifted := (5 * dayOfYear + 2) / 153;
    var day := dayOfYear - MonthStart(shifted) + 1;
    var month := if shifted < 10 then shifted + 3 else shifted - 9;
    Date(yearOfEra + era * 400 + (if month <= 2 then 1 else 0), month, day)
  }

  // ----- within one cycle of four hundred years

  /** The length of a year that begins in March: a day more when the calendar year it ends in is
      a leap year. */
  function YearLength(yearOfEra: int): int {
    if IsLeap(yearOfEra + 1) then 366 else 365
  }

  /** A day of a cycle, told apart into centuries, fours of years, years and days. */
  lemma SplitDay(dayOfEra: int) returns (c: int, q: int, s: int, dayOfYear: int)
    requires 0 <= dayOfEra < 146_097
    ensures 0 <= c < 4 && 0 <= q < 25 && 0 <= s < 4
    ensures dayOfEra == 36_524 * c + 1_461 * q + 365 * s + dayOfYear
    ensures 0 <= dayOfYear < YearLength(100 * c + 4 * q + s)
  {
    c := if dayOfEra == 146_096 then 3 else dayOfEra / 36_524;
    var inCentury := dayOfEra - 36_524 * c;
    q := inCentury / 1_461;
    var inFour := inCentury - 1_461 * q;
    s := if inFour == 1_460 then 3 else inFour / 365;
    dayOfYear := inFour - 365 * s;
  }

  lemma YearStartOf(c: int, q: int, s: int)
    requires 0 <= c < 4 && 0 <= q < 25 && 0 <= s < 4
    ensures YearStart(100 * c + 4 * q + s) == 36_524 * c + 1_461 * q + 365 * s
  {
    assert (100 * c + 4 * q + s) / 4 == 25 * c + q;
    assert (100 * c + 4 * q + s) / 100 == c;
  }

  lemma YearOfEraOf(c: int, q: int, s: int, dayOfYear: int)
    requires 0 <= c < 4 && 0 <= q < 25 && 0 <= s < 4
    requires 0 <= dayOfYear < YearLength(100 * c + 4 * q + s)
    requires 0 <= 36_524 * c + 1_461 * q + 365 * s + dayOfYear < 146_097
    ensures YearOfEra(36_524 * c + 1_461 * q + 365 * s + dayOfYear) == 100 * c + 4 * q + s
  {
    var n := 36_524 * c + 1_461 * q + 365 * s + dayOfYear;
    var spare := if 24 * c + q + 365 * s + dayOfYear >= 1_460 then 1 else 0;
    assert n / 1_460 == 25 * c + q + spare by {
      assert n == 1_460 * (25 * c + q) + (24 * c + q + 365 * s + dayOfYear);
    }
    Centuries(c, q, s, dayOfYear);
    assert 0 <= dayOfYear - spare < 365 by {
      LastDayIsSpare(c, q, s, dayOfYear);
    }
    assert n - n / 1_460 + c == 365 * (100 * c + 4 * q + s) + (dayOfYear - spare);
  }

  lemma LastDayIsSpare(c: int, q: int, s: int, dayOfYear: int)
    requires 0 <= c < 4 && 0 <= q < 25 && 0 <= s < 4
    requires 0 <= dayOfYear < YearLength(100 * c + 4 * q + s)
    ensures dayOfYear == 365 ==> s == 3
  {
    assert (100 * c + 4 * q + s + 1) % 4 == (s + 1) % 4;
  }

  lemma Centuries(c: int, q: int, s: int, dayOfYear: int)
    requires 0 <= c < 4 && 0 <= q < 25 && 0 <= s < 4
    requires 0 <= dayOfYear < YearLength(100 * c + 4 * q + s)
    requires 0 <= 36_524 * c + 1_461 * q + 365 * s + dayOfYear < 146_097
    ensures var n := 36_524 * c + 1_461 * q + 365 * s + dayOfYear;
            n / 36_524 - n / 146_096 == c
  {
    hide YearLength;
    CenturyFits(c, q, s, dayOfYear);
  }

  lemma CenturyFits(c: int, q: int, s: int, dayOfYear: int)
    requires 0 <= c < 4 && 0 <= q < 25 && 0 <= s < 4
    requires 0 <= dayOfYear < YearLength(100 * c + 4 * q + s)
    ensures 0 <= 1_461 * q + 365 * s + dayOfYear <= 36_524
    ensures c < 3 ==> 1_461 * q + 365 * s + dayOfYear < 36_524
  {
    LastDayIsSpare(c, q, s, dayOfYear);
    if q == 24 && s == 3 && c < 3 {
      assert (100 * c + 100) % 100 == 0 && (100 * c + 100) % 400 != 0;
    }
  }

  /** The year a day of the cycle is in, and that the day is within that year. */
  lemma YearOfEraIsRight(dayOfEra: int)
    requires 0 <= dayOfEra < 146_097
    ensures 0 <= YearOfEra(dayOfEra) < 400
    ensures 0 <= dayOfEra - YearStart(YearOfEra(dayOfEra)) < YearLength(YearOfEra(dayOfEra))
  {
    var c, q, s, dayOfYear := SplitDay(dayOfEra);
    YearOfEraOf(c, q, s, dayOfYear);
    YearStartOf(c, q, s);
  }

  /** And that no other year has it. */
  lemma YearOfEraIsOnly(yearOfEra: int, dayOfYear: int)
    requires 0 <= yearOfEra < 400 && 0 <= dayOfYear < YearLength(yearOfEra)
    ensures 0 <= YearStart(yearOfEra) + dayOfYear < 146_097
    ensures YearOfEra(YearStart(yearOfEra) + dayOfYear) == yearOfEra
  {
    var c, q, s := yearOfEra / 100, yearOfEra % 100 / 4, yearOfEra % 4;
    assert yearOfEra == 100 * c + 4 * q + s;
    YearStartOf(c, q, s);
    YearOfEraOf(c, q, s, dayOfYear);
  }

  // ----- within one year

  /** The month of the calendar that a month counted from March is. */
  function MonthOf(shifted: int): int {
    if shifted < 10 then shifted + 3 else shifted - 9
  }

  /** A month counted from March ends where the next begins, and the last one, February, where
      its year does. */
  lemma MonthLengths(yearOfEra: int, shifted: int)
    requires 0 <= shifted < 12
    ensures var year := yearOfEra + if MonthOf(shifted) <= 2 then 1 else 0;
            DaysIn(year, MonthOf(shifted)) ==
            (if shifted == 11 then YearLength(yearOfEra) else MonthStart(shifted + 1)) - MonthStart(shifted)
  {
  }

  lemma ShiftedIsRight(yearOfEra: int, dayOfYear: int)
    requires 0 <= dayOfYear < YearLength(yearOfEra)
    ensures var shifted := (5 * dayOfYear + 2) / 153;
            && 0 <= shifted < 12
            && MonthStart(shifted) <= dayOfYear
            && (shifted < 11 ==> dayOfYear < MonthStart(shifted + 1))
  {
  }

  lemma ShiftedIsOnly(dayOfYear: int, shifted: int)
    requires 0 <= shifted < 12 && MonthStart(shifted) <= dayOfYear
    requires if shifted == 11 then dayOfYear < 366 else dayOfYear < MonthStart(shifted + 1)
    ensures (5 * dayOfYear + 2) / 153 == shifted
  {
  }

  lemma LeapYearsRepeat(year: int, era: int)
    ensures IsLeap(year + era * 400) == IsLeap(year)
  {
    FourHundredsRepeat(year, era);
    HundredsRepeat(year, 4 * era);
    FoursRepeat(year, 100 * era);
  }

  lemma FourHundredsRepeat(a: int, k: int)
    ensures (a + 400 * k) % 400 == a % 400
  {
  }

  lemma HundredsRepeat(a: int, k: int)
    ensures (a + 100 * k) % 100 == a % 100
  {
  }

  lemma FoursRepeat(a: int, k: int)
    ensures (a + 4 * k) % 4 == a % 4
  {
  }

  // ----- the two are inverses

  /** Every day number is the number of a date of the calendar. */
  lemma EveryDayHasItsDate(days: int)
    ensures IsDate(DateOf(days)) && NumberOf(DateOf(days)) == days
  {
    hide YearOfEra, YearStart, MonthStart, YearLength, IsLeap, DaysIn, NumberOf;
    var z := days + 719_468;
    var era := z / 146_097;
    var dayOfEra := z - era * 146_097;
    YearOfEraIsRight(dayOfEra);
    var yearOfEra := YearOfEra(dayOfEra);
    var dayOfYear := dayOfEra - YearStart(yearOfEra);
    ShiftedIsRight(yearOfEra, dayOfYear);
    var shifted := (5 * dayOfYear + 2) / 153;
    MonthLengths(yearOfEra, shifted);
    var bump := if MonthOf(shifted) <= 2 then 1 else 0;
    DaysRepeat(yearOfEra + bump, era, MonthOf(shifted));
    assert DateOf(days) == Date(yearOfEra + bump + era * 400, MonthOf(shifted), dayOfYear - MonthStart(shifted) + 1);
    NumberFromParts(yearOfEra, era, shifted, dayOfYear - MonthStart(shifted) + 1);
  }

  lemma DaysRepeat(year: int, era: int, month: int)
    ensures DaysIn(year + era * 400, month) == DaysIn(year, month)
  {
    LeapYearsRepeat(year, era);
  }

  lemma NumberFromParts(yearOfEra: int, era: int, shifted: int, day: int)
    requires 0 <= yearOfEra < 400 && 0 <= shifted < 12
    ensures var month := MonthOf(shifted);
            NumberOf(Date(yearOfEra + era * 400 + (if month <= 2 then 1 else 0), month, day)) ==
            era * 146_097 + YearStart(yearOfEra) + MonthStart(shifted) + day - 1 - 719_468
  {
    var year := yearOfEra + era * 400;
    EraIsFloor(year);
    assert year / 400 == era;
    assert (MonthOf(shifted) + 9) % 12 == shifted;
  }

  /** A date of the calendar as the parts the algorithms work in. */
  lemma PartsOfDate(d: Date) returns (yearOfEra: int, era: int, shifted: int)
    requires IsDate(d)
    ensures 0 <= yearOfEra < 400 && 0 <= shifted < 12 && MonthOf(shifted) == d.month
    ensures d.year == yearOfEra + era * 400 + if d.month <= 2 then 1 else 0
    ensures NumberOf(d) == era * 146_097 + YearStart(yearOfEra) + MonthStart(shifted) + d.day - 1 - 719_468
    ensures DaysIn(d.year, d.month) ==
            (if shifted == 11 then YearLength(yearOfEra) else MonthStart(shifted + 1)) - MonthStart(shifted)
  {
    hide YearOfEra, YearStart, MonthStart, YearLength, IsLeap, NumberOf;
    var year := if d.month <= 2 then d.year - 1 else d.year;
    era := year / 400;
    yearOfEra := year - era * 400;
    shifted := (d.month + 9) % 12;
    NumberFromParts(yearOfEra, era, shifted, d.day);
    MonthLengths(yearOfEra, shifted);
    LeapYearsRepeat(yearOfEra + 1, era);
  }

  lemma MonthsAreInYears(yearOfEra: int, shifted: int)
    requires 0 <= shifted < 12
    ensures 0 <= MonthStart(shifted) && YearLength(yearOfEra) <= 366
    ensures shifted < 11 ==> MonthStart(shifted + 1) <= 337 < YearLength(yearOfEra)
  {
  }

  /** Every date of the calendar is the date of its own number. */
  lemma EveryDateHasItsDay(d: Date)
    requires IsDate(d)
    ensures DateOf(NumberOf(d)) == d
  {
    var yearOfEra, era, shifted := PartsOfDate(d);
    var dayOfYear := MonthStart(shifted) + d.day - 1;
    hide NumberOf, DateOf, YearOfEra, YearStart, YearLength, MonthStart, IsLeap, DaysIn;
    MonthsAreInYears(yearOfEra, shifted);
    DateFromParts(yearOfEra, era, shifted, dayOfYear);
  }

  lemma DateFromParts(yearOfEra: int, era: int, shifted: int, dayOfYear: int)
    requires 0 <= yearOfEra < 400 && 0 <= shifted < 12 && MonthStart(shifted) <= dayOfYear < YearLength(yearOfEra)
    requires shifted < 11 ==> dayOfYear < MonthStart(shifted + 1)
    requires 0 <= dayOfYear < 366
    ensures var month := MonthOf(shifted);
            DateOf(era * 146_097 + YearStart(yearOfEra) + dayOfYear - 719_468) ==
            Date(yearOfEra + era * 400 + (if month <= 2 then 1 else 0), month, dayOfYear - MonthStart(shifted) + 1)
  {
    hide YearOfEra, YearStart, MonthStart, YearLength;
    YearOfEraIsOnly(yearOfEra, dayOfYear);
    ShiftedIsOnly(dayOfYear, shifted);
    EraOf(era, YearStart(yearOfEra) + dayOfYear);
  }

  lemma EraOf(era: int, dayOfEra: int)
    requires 0 <= dayOfEra < 146_097
    ensures (era * 146_097 + dayOfEra) / 146_097 == era
  {
  }

  lemma DayAfterIsDate(d: Date)
    requires IsDate(d)
    ensures IsDate(DayAfter(d))
  {
  }

  /** Which parts a date that has a day after it, or a month, or a year, passes on. */
  lemma PartsAreOnly(yearOfEra: int, era: int, shifted: int, yearOfEra': int, era': int, shifted': int)
    requires 0 <= yearOfEra < 400 && 0 <= shifted < 12 && 0 <= yearOfEra' < 400 && 0 <= shifted' < 12
    requires MonthOf(shifted) == MonthOf(shifted') && yearOfEra + era * 400 == yearOfEra' + era' * 400
    ensures yearOfEra == yearOfEra' && era == era' && shifted == shifted'
  {
  }

  /** The day after any date has the next number. With the number of one day, which is zero, this
      says what every number is. */
  lemma NumbersFollowTheCalendar(d: Date)
    requires IsDate(d)
    ensures IsDate(DayAfter(d)) && NumberOf(DayAfter(d)) == NumberOf(d) + 1
    ensures NumberOf(Date(1970, 1, 1)) == 0
  {
    hide YearOfEra, YearStart, MonthStart, YearLength, IsLeap, NumberOf, DaysIn;
    DayAfterIsDate(d);
    EpochIsZero();
    var next := DayAfter(d);
    var yearOfEra, era, shifted := PartsOfDate(d);
    var yearOfEra', era', shifted' := PartsOfDate(next);
    if d.day < DaysIn(d.year, d.month) {
      PartsAreOnly(yearOfEra, era, shifted, yearOfEra', era', shifted');
    } else if shifted < 11 {
      assert MonthOf(shifted + 1) == next.month;
      PartsAreOnly(yearOfEra, era, shifted + 1, yearOfEra', era', shifted');
    } else {
      NextYearStart(yearOfEra);
      assert MonthOf(0) == next.month;
      if yearOfEra == 399 {
        PartsAreOnly(0, era + 1, 0, yearOfEra', era', shifted');
      } else {
        PartsAreOnly(yearOfEra + 1, era, 0, yearOfEra', era', shifted');
      }
      FirstMonthAndYear();
    }
  }

  lemma EpochIsZero()
    ensures NumberOf(Date(1970, 1, 1)) == 0
  {
    assert Truncate(1_969, 400) == 4 && YearStart(369) == 134_774 && MonthStart(10) == 306;
    hide Truncate, YearStart, MonthStart;
  }

  lemma FirstMonthAndYear()
    ensures MonthStart(0) == 0 && YearStart(0) == 0
  {
  }

  lemma NextYearStart(yearOfEra: int)
    requires 0 <= yearOfEra < 400
    ensures YearStart(yearOfEra) + YearLength(yearOfEra) == if yearOfEra == 399 then 146_097 else YearStart(yearOfEra + 1)
  {
    var next := yearOfEra + 1;
    assert next / 4 == yearOfEra / 4 + if next % 4 == 0 then 1 else 0;
    assert next / 100 == yearOfEra / 100 + if next % 100 == 0 then 1 else 0;
  }

  // ----- dates as text

  /** A year in at least four characters, its sign one of them. */
  function YearText(year: int): string {
    if year >= 0 then Padded(year, 4) else "-" + Padded(0 - year, 3)
  }

  /** A date as `YYYY-MM-DD`. */
  function TextOf(d: Date): string
    requires IsDate(d)
  {
    YearText(d.year) + "-" + (Padded(d.month, 2) + "-" + Padded(d.day, 2))
  }

  /** The date, in UTC, of a moment in seconds since the epoch. */
  function Day(secs: I64): string {
    EveryDayHasItsDate(secs / SECONDS_A_DAY);
    TextOf(DateOf(secs / SECONDS_A_DAY))
  }

  /** The day number of a date given as text: three numbers with a dash between them. */
  function DayNumber(text: string): Option<int> {
    match SplitOnce(Trim(text), '-')
    case None => None
    case Some((first, rest)) =>
      match SplitOnce(rest, '-')
      case None => None
      case Some((second, third)) =>
        match (ParseI64(first), ParseI64(second), ParseI64(third))
        case (Some(year), Some(month), Some(day)) =>
          if 1 <= month <= 12 && 1 <= day <= 31 then Some(NumberOf(Date(year, month, day))) else None
        case _ => None
  }

  lemma PaddedReadsBack(n: nat, width: nat)
    requires n <= I64_MAX
    ensures ParseI64(Padded(n, width)) == Some(n)
  {
    ValueOfPadded(n, width);
    assert IsDigit(Padded(n, width)[0]);
  }

  lemma TrimLeavesDigits(s: string, tail: string)
    requires s != "" && !IsSpace(s[0]) && tail != "" && AllDigits(tail)
    ensures Trim(s + tail) == s + tail
  {
    assert (s + tail)[0] == s[0];
    assert (s + tail)[|s + tail| - 1] == tail[|tail| - 1] && IsDigit(tail[|tail| - 1]);
  }

  /** A printed date reads as its own day number, unless the year prints with a sign. */
  lemma TextReadsBack(d: Date)
    requires IsDate(d) && d.year <= I64_MAX
    ensures DayNumber(TextOf(d)) == if d.year >= 0 then Some(NumberOf(d)) else None
  {
    hide NumberOf, Padded, Trim, ParseI64, IsSpace, IsLeap;
    var year, month, day := YearText(d.year), Padded(d.month, 2), Padded(d.day, 2);
    var text := year + "-" + (month + "-" + day);
    assert !IsSpace(year[0]) by { FirstIsNoSpace(d.year); }
    assert text == (year + "-" + month + "-") + day;
    TrimLeavesDigits(year + "-" + month + "-", day);
    if d.year >= 0 {
      assert '-' !in year && '-' !in month;
      SplitsAtFirst(year, '-', month + "-" + day);
      SplitsAtFirst(month, '-', day);
      PaddedReadsBack(d.year, 4);
      PaddedReadsBack(d.month, 2);
      PaddedReadsBack(d.day, 2);
    } else {
      assert text[0] == '-';
      EmptyIsNoNumber();
    }
  }

  lemma FirstIsNoSpace(year: int)
    ensures YearText(year) != "" && !IsSpace(YearText(year)[0])
  {
    if year >= 0 {
      assert IsDigit(Padded(year, 4)[0]);
    }
  }

  lemma EmptyIsNoNumber()
    ensures ParseI64("") == None
  {
  }

  /** The day the calendar's year nought begins. */
  const YEAR_NOUGHT := -719_528

  lemma YearsFromNought(days: int)
    ensures DateOf(days).year >= 0 <==> days >= YEAR_NOUGHT
  {
    hide YearOfEra, MonthStart, YearLength;
    var z := days + 719_468;
    var era := z / 146_097;
    var dayOfEra := z - era * 146_097;
    YearOfEraIsRight(dayOfEra);
    var yearOfEra := YearOfEra(dayOfEra);
    ShiftedIsRight(yearOfEra, dayOfEra - YearStart(yearOfEra));
    LastYearStarts();
    if era == -1 && yearOfEra < 399 && dayOfEra >= 146_037 {
      YearsFit(yearOfEra);
    }
  }

  lemma LastYearStarts()
    ensures YearStart(399) == 145_731
  {
  }

  lemma YearsFit(yearOfEra: int)
    requires 0 <= yearOfEra < 399
    ensures YearStart(yearOfEra) + YearLength(yearOfEra) <= 145_731
  {
  }

  /** The two algorithms undo each other on every moment from the start of year nought on; the
      date of an earlier one does not read at all. */
  lemma DayReadsBack(secs: I64)
    ensures DayNumber(Day(secs)) == if secs >= YEAR_NOUGHT * SECONDS_A_DAY then Some(secs / SECONDS_A_DAY) else None
  {
    hide DayNumber, TextOf, DateOf, NumberOf;
    var days := secs / SECONDS_A_DAY;
    EveryDayHasItsDate(days);
    YearsAreSmall(days);
    TextReadsBack(DateOf(days));
    YearsFromNought(days);
  }

  lemma YearsAreSmall(days: int)
    requires days <= I64_MAX / SECONDS_A_DAY
    ensures DateOf(days).year <= I64_MAX
  {
    hide YearOfEra, YearStart, MonthStart;
    var z := days + 719_468;
    YearOfEraIsRight(z - z / 146_097 * 146_097);
  }

  /** Any second of a calendar date prints that date. */
  lemma DayPrintsTheDate(d: Date, second: nat)
    requires IsDate(d) && second < SECONDS_A_DAY
    requires I64_MIN <= NumberOf(d) * SECONDS_A_DAY + second <= I64_MAX
    ensures Day(NumberOf(d) * SECONDS_A_DAY + second) == TextOf(d)
  {
    hide NumberOf, DateOf, TextOf;
    EveryDateHasItsDay(d);
    assert (NumberOf(d) * SECONDS_A_DAY + second) / SECONDS_A_DAY == NumberOf(d);
  }

  /** Whether a text is three numbers with a dash between them, the last two a month and a day of one. */
  ghost predicate IsDated(text: string, d: Date) {
    && 1 <= d.month <= 12 && 1 <= d.day <= 31
    && exists a: string, b: string, c: string :: IsDashed(Trim(text), a, b, c) && AreNumbers(a, b, c, d)
  }

  predicate IsDashed(text: string, a: string, b: string, c: string) {
    text == a + "-" + (b + "-" + c) && '-' !in a && '-' !in b
  }

  predicate AreNumbers(a: string, b: string, c: string, d: Date) {
    ParseI64(a) == Some(d.year) && ParseI64(b) == Some(d.month) && ParseI64(c) == Some(d.day)
  }

  /** A text has a day number exactly when it is dated, and then it is that of its date, whether or not the
      month has that day. */
  lemma DatedExactlyWhen(text: string, n: int)
    ensures DayNumber(text) == Some(n) <==> exists d: Date :: IsDated(text, d) && NumberOf(d) == n
  {
    hide NumberOf, Trim, ParseI64;
    if DayNumber(text) == Some(n) {
      var d := DatedAt(text);
      assert IsDated(text, d) && NumberOf(d) == n;
    }
    if d: Date :| IsDated(text, d) && NumberOf(d) == n {
      DatedReads(text, d);
    }
  }

  lemma DatedAt(text: string) returns (d: Date)
    requires DayNumber(text).Some?
    ensures IsDated(text, d) && DayNumber(text) == Some(NumberOf(d))
  {
    hide NumberOf, Trim, ParseI64, SplitOnce;
    SplitOnceJoins(Trim(text), '-');
    var (a, rest) := SplitOnce(Trim(text), '-').value;
    SplitOnceJoins(rest, '-');
    var (b, c) := SplitOnce(rest, '-').value;
    d := Date(ParseI64(a).value, ParseI64(b).value, ParseI64(c).value);
    assert IsDashed(Trim(text), a, b, c) && AreNumbers(a, b, c, d);
  }

  lemma DatedReads(text: string, d: Date)
    requires IsDated(text, d)
    ensures DayNumber(text) == Some(NumberOf(d))
  {
    hide NumberOf, Trim, ParseI64, SplitOnce;
    var a, b, c :| IsDashed(Trim(text), a, b, c) && AreNumbers(a, b, c, d);
    SplitsAtFirst(a, '-', b + "-" + c);
    SplitsAtFirst(b, '-', c);
    assert a + ['-'] + (b + "-" + c) == Trim(text);
    assert b + ['-'] + c == b + "-" + c;
  }

  // ----- when a price table should be checked again

  const RECHECK_AFTER_DAYS := 90

  datatype Recheck = Expired(on: string, daysAgo: int) | Aged(days: int) | Undatable(field: string)

  function NeedsRechecking(verifiedAt: string, expiresOn: Option<string>, today: string): Option<Recheck> {
    match DayNumber(today)
    case None => Some(Undatable("today"))
    case Some(now) =>
      if expiresOn.Some? && DayNumber(expiresOn.value).None? then Some(Undatable("expires_on"))
      else if expiresOn.Some? && now > DayNumber(expiresOn.value).value then
        Some(Expired(expiresOn.value, now - DayNumber(expiresOn.value).value))
      else
        match DayNumber(verifiedAt)
        case None => Some(Undatable("verified_at"))
        case Some(checked) => if now - checked >= RECHECK_AFTER_DAYS then Some(Aged(now - checked)) else None
  }

  /** Nothing that cannot be dated is taken for good, and it is named: today before the expiry, and the expiry
      before the day of the last check. A book that has expired says so whatever day that was. */
  lemma WhatCannotBeDated(verifiedAt: string, expiresOn: Option<string>, today: string)
    ensures var said := NeedsRechecking(verifiedAt, expiresOn, today);
            && (said == Some(Undatable("today")) <==> DayNumber(today).None?)
            && (said == Some(Undatable("expires_on")) <==>
                  DayNumber(today).Some? && expiresOn.Some? && DayNumber(expiresOn.value).None?)
            && (said == Some(Undatable("verified_at")) <==>
                  && DayNumber(today).Some? && DayNumber(verifiedAt).None?
                  && (expiresOn.Some? ==> DayNumber(expiresOn.value).Some?
                                          && DayNumber(today).value <= DayNumber(expiresOn.value).value))
            && (said.None? ==> DayNumber(today).Some? && DayNumber(verifiedAt).Some?
                               && (expiresOn.Some? ==> DayNumber(expiresOn.value).Some?))
  {
    hide DayNumber;
  }

  /** On real dates, a book dated on a date of the calendar is good for the ninety days that begin
      on it, and its expiry cuts that short. */
  lemma GoodForNinetyDays(verified: Date, expires: Option<Date>, today: Date)
    requires IsDate(verified) && IsDate(today) && 0 <= verified.year <= I64_MAX && 0 <= today.year <= I64_MAX
    requires expires.Some? ==> IsDate(expires.value) && 0 <= expires.value.year <= I64_MAX
    ensures NeedsRechecking(TextOf(verified), if expires.Some? then Some(TextOf(expires.value)) else None, TextOf(today)) == None
            <==> NumberOf(today) < NumberOf(verified) + 90 && (expires.Some? ==> NumberOf(today) <= NumberOf(expires.value))
    ensures var said := NeedsRechecking(TextOf(verified), if expires.Some? then Some(TextOf(expires.value)) else None, TextOf(today));
            said.Some? ==>
              if expires.Some? && NumberOf(today) > NumberOf(expires.value)
              then said.value == Expired(TextOf(expires.value), NumberOf(today) - NumberOf(expires.value))
              else said.value == Aged(NumberOf(today) - NumberOf(verified))
  {
    hide TextOf, DayNumber, NumberOf;
    TextReadsBack(verified);
    TextReadsBack(today);
    if expires.Some? {
      TextReadsBack(expires.value);
    }
  }
}
