/** Values shared by every module: the option and result shapes of the source language, and
    its fixed-width integer arithmetic written out over unbounded integers. */
module Basics {

  datatype Option<+T> = None | Some(value: T)

  datatype Result<+T, +E> = Ok(value: T) | Err(error: E)

  const MILLION := 1_000_000

  const U32_MAX := 0xFFFF_FFFF
  const U64_MAX := 0xFFFF_FFFF_FFFF_FFFF
  const I64_MAX := 0x7FFF_FFFF_FFFF_FFFF
  const I64_MIN := -0x8000_0000_0000_0000

  type U32 = n: int | 0 <= n <= U32_MAX
  type U64 = n: int | 0 <= n <= U64_MAX
  type I64 = n: int | I64_MIN <= n <= I64_MAX

  function Min(a: int, b: int): int {
    if a <= b then a else b
  }

  function Max(a: int, b: int): int {
    if a <= b then b else a
  }

  /** The value of `n` brought into the range of a signed 64-bit integer, as the saturating
      operators do it. */
  function Clamp(n: int): I64 {
    if n < I64_MIN then I64_MIN else if n > I64_MAX then I64_MAX else n
  }

  function SatAdd(a: I64, b: I64): I64 {
    Clamp(a + b)
  }

  function SatMul(a: I64, b: I64): I64 {
    Clamp(a * b)
  }

  /** A signed 64-bit sum as an atomic `fetch_add` leaves it: modulo 2^64. */
  function Wrap(n: int): I64 {
    (n - I64_MIN) % 0x1_0000_0000_0000_0000 + I64_MIN
  }

  /** A product of two numbers that are not negative. */
  function Times(a: nat, b: nat): nat {
    TimesIsNonNegative(a, b);
    a * b
  }

  lemma TimesIsNonNegative(a: nat, b: nat)
    ensures a * b >= 0
  {
  }

  lemma TimesGrows(a: nat, b: nat, c: nat)
    requires b <= c
    ensures a * b <= a * c
    ensures b * a <= c * a
  {
  }

  lemma WrapFits(n: int)
    requires I64_MIN <= n <= I64_MAX
    ensures Wrap(n) == n
  {
  }

  /** A number from its sign and its size. */
  function Signed(negative: bool, size: int): int {
    if negative then 0 - size else size
  }

  /** Integer division as the source language does it, toward zero. */
  function Truncate(a: int, b: int): int
    requires b > 0
  {
    if a >= 0 then a / b else -((-a) / b)
  }
}
