/** Whole numbers as decimal text. */
module Decimals {
  import opened Basics

  predicate IsDigit(c: char) {
    '0' <= c <= '9'
  }

  predicate AllDigits(s: string) {
    forall i :: 0 <= i < |s| ==> IsDigit(s[i])
  }

  function DigitOf(c: char): (d: nat)
    requires IsDigit(c)
    ensures d < 10
  {
    c as int - '0' as int
  }

  function CharOf(d: nat): (c: char)
    requires d < 10
    ensures IsDigit(c) && DigitOf(c) == d
  {
    ('0' as int + d) as char
  }

  /** The number these digits write. */
  function Value(s: string): nat
    requires AllDigits(s)
    decreases |s|
  {
    if s == "" then 0 else 10 * Value(s[..|s| - 1]) + DigitOf(s[|s| - 1])
  }

  /** A number as the digits that write it, with none to spare. */
  function Digits(n: nat): (s: string)
    ensures s != "" && AllDigits(s)
  {
    if n < 10 then [CharOf(n)] else Digits(n / 10) + [CharOf(n % 10)]
  }

  function Zeros(n: nat): (s: string)
    ensures |s| == n && AllDigits(s)
  {
    if n == 0 then "" else Zeros(n - 1) + "0"
  }

  /** A number in at least this many digits, zeros in front. */
  function Padded(n: nat, width: nat): (s: string)
    ensures |s| >= width && s != "" && AllDigits(s)
  {
    Zeros(Max(width - |Digits(n)|, 0)) + Digits(n)
  }

  function Pow10(n: nat): (p: nat)
    ensures p >= 1
  {
    if n == 0 then 1 else 10 * Pow10(n - 1)
  }

  lemma ValueOneMore(s: string, c: char)
    requires AllDigits(s) && IsDigit(c)
    ensures AllDigits(s + [c]) && Value(s + [c]) == 10 * Value(s) + DigitOf(c)
  {
    assert (s + [c])[..|s|] == s;
  }

  lemma {:induction false} ValueOfDigits(n: nat)
    ensures Value(Digits(n)) == n
  {
    if n >= 10 {
      ValueOfDigits(n / 10);
      ValueOneMore(Digits(n / 10), CharOf(n % 10));
    } else {
      ValueOneMore("", CharOf(n));
      assert "" + [CharOf(n)] == Digits(n);
    }
  }

  lemma {:induction false} ValueOfZerosThen(k: nat, s: string)
    requires AllDigits(s)
    ensures Value(Zeros(k) + s) == Value(s)
    decreases |s|, k
  {
    if s != "" {
      ValueOfZerosThen(k, s[..|s| - 1]);
      ValueOneMore(Zeros(k) + s[..|s| - 1], s[|s| - 1]);
      assert Zeros(k) + s == Zeros(k) + s[..|s| - 1] + [s[|s| - 1]];
    } else if k > 0 {
      ValueOfZerosThen(k - 1, "");
      assert Zeros(k - 1) + "" == Zeros(k - 1) && Zeros(k) + "" == Zeros(k);
      ValueOneMore(Zeros(k - 1), '0');
    }
  }

  lemma ValueOfPadded(n: nat, width: nat)
    ensures Value(Padded(n, width)) == n
  {
    ValueOfDigits(n);
    ValueOfZerosThen(Max(width - |Digits(n)|, 0), Digits(n));
  }

  /** Digits written on after others count for as many powers of ten less. */
  lemma {:induction false} ValueOfConcat(a: string, b: string)
    requires AllDigits(a) && AllDigits(b)
    ensures AllDigits(a + b) && Value(a + b) == Value(a) * Pow10(|b|) + Value(b)
    decreases |b|
  {
    if b == "" {
      assert a + b == a;
    } else {
      var front, c := b[..|b| - 1], b[|b| - 1];
      ValueOfConcat(a, front);
      ValueOneMore(a + front, c);
      assert a + b == a + front + [c];
      TimesTen(Value(a), Pow10(|front|));
    }
  }

  lemma TimesTen(a: nat, p: nat)
    ensures a * (10 * p) == 10 * (a * p)
  {
  }

  lemma {:induction false} ValueIsBelow(s: string)
    requires AllDigits(s)
    ensures Value(s) < Pow10(|s|)
    decreases |s|
  {
    if s != "" {
      ValueIsBelow(s[..|s| - 1]);
    }
  }

  lemma {:induction false} DigitsAreFew(n: nat, k: nat)
    requires n < Pow10(k) && k > 0
    ensures |Digits(n)| <= k
  {
    if n >= 10 {
      DigitsAreFew(n / 10, k - 1);
    }
  }

  lemma ValueOfZeros(a: string, k: nat)
    requires AllDigits(a)
    ensures Value(a + Zeros(k)) == Value(a) * Pow10(k)
  {
    ValueOfConcat(a, Zeros(k));
    ValueOfZerosThen(k, "");
    assert Zeros(k) + "" == Zeros(k);
  }

  // ----- text around a number

  /** White space, as Unicode's property of that name has it. */
  predicate IsSpace(c: char) {
    var n := c as int;
    || 0x09 <= n <= 0x0D || n == 0x20 || n == 0x85 || n == 0xA0 || n == 0x1680 || 0x2000 <= n <= 0x200A
    || n == 0x2028 || n == 0x2029 || n == 0x202F || n == 0x205F || n == 0x3000
  }

  function Trim(s: string): string
    decreases |s|
  {
    if s == "" then ""
    else if IsSpace(s[0]) then Trim(s[1..])
    else if IsSpace(s[|s| - 1]) then Trim(s[..|s| - 1])
    else s
  }

  /** The text before and after the first of these characters, when there is one. */
  function SplitOnce(s: string, c: char): Option<(string, string)>
    decreases |s|
  {
    if s == "" then None
    else if s[0] == c then Some(("", s[1..]))
    else
      match SplitOnce(s[1..], c)
      case None => None
      case Some((before, after)) => Some(([s[0]] + before, after))
  }

  lemma {:induction false} SplitsAtFirst(a: string, c: char, b: string)
    requires c !in a
    ensures SplitOnce(a + [c] + b, c) == Some((a, b))
    decreases |a|
  {
    if a == "" {
      assert a + [c] + b == [c] + b;
    } else {
      SplitsAtFirst(a[1..], c, b);
      assert (a + [c] + b)[0] == a[0] && a[0] in a;
      assert (a + [c] + b)[1..] == a[1..] + [c] + b;
      assert [a[0]] + a[1..] == a;
    }
  }

  lemma {:induction false} SplitOnceJoins(s: string, c: char)
    ensures match SplitOnce(s, c)
            case None => c !in s
            case Some((before, after)) => s == before + [c] + after && c !in before
    decreases |s|
  {
    if s != "" && s[0] != c {
      SplitOnceJoins(s[1..], c);
    }
  }

  /** A signed 64-bit number as the source language reads one: a sign if there is one, and then
      digits, at least one and as many as there are. */
  function ParseI64(s: string): Option<I64> {
    var signed := s != "" && (s[0] == '-' || s[0] == '+');
    var digits := if signed then s[1..] else s;
    if digits == "" || !AllDigits(digits) then None
    else
      var n := Signed(signed && s[0] == '-', Value(digits));
      if I64_MIN <= n <= I64_MAX then Some(n) else None
  }
}
