/**
 * Fixed-width C integer arithmetic as the firmware's compiler performs it:
 * unsigned wrap-around, two's-complement reinterpretation of unsigned
 * results stored into signed variables, and division that truncates
 * toward zero.  Dafny's own integers are unbounded and its `/` is
 * Euclidean, so every C operation whose width or sign matters goes
 * through one of these helpers.
 */
module CInt {
  const U8_LIMIT: int := 0x100
  const U16_LIMIT: int := 0x1_0000
  const U32_LIMIT: int := 0x1_0000_0000
  const I32_MIN: int := -0x8000_0000
  const I32_MAX: int := 0x7FFF_FFFF

  type u8 = x: int | 0 <= x < 0x100
  type u16 = x: int | 0 <= x < 0x1_0000
  type u32 = x: int | 0 <= x < 0x1_0000_0000
  type i32 = x: int | -0x8000_0000 <= x < 0x8000_0000

  /** Conversion of any integer value to `uint8_t`. */
  function U8(x: int): (r: u8)
    ensures 0 <= x < U8_LIMIT ==> r == x
  {
    x % U8_LIMIT
  }

  /** Conversion of any integer value to `uint16_t`. */
  function U16(x: int): (r: u16)
    ensures 0 <= x < U16_LIMIT ==> r == x
  {
    x % U16_LIMIT
  }

  /** Conversion of any integer value to `uint32_t`. */
  function U32(x: int): (r: u32)
    ensures 0 <= x < U32_LIMIT ==> r == x
  {
    x % U32_LIMIT
  }

  /**
   * Conversion of any integer value to `int32_t` (the compiler keeps the
   * low 32 bits and reads them as two's complement).
   */
  function I32(x: int): (r: i32)
    ensures I32_MIN <= x <= I32_MAX ==> r == x
  {
    var u := x % U32_LIMIT;
    if u <= I32_MAX then u else u - U32_LIMIT
  }

  /**
   * The conversions keep the value modulo 2^32.  They are lemmas rather
   * than postconditions so that only the proofs that need modular
   * reasoning pay for it.
   */
  lemma U32Congruent(x: int)
    ensures (x - U32(x)) % U32_LIMIT == 0
  {
    var q := x / U32_LIMIT;
    assert x == q * U32_LIMIT + U32(x);
  }

  lemma I32Congruent(x: int)
    ensures (x - I32(x)) % U32_LIMIT == 0
  {
    var q := x / U32_LIMIT;
    assert x == q * U32_LIMIT + x % U32_LIMIT;
    if x % U32_LIMIT > I32_MAX {
      assert x - I32(x) == (q + 1) * U32_LIMIT;
    }
  }

  /** Conversion of any integer value to `int8_t`. */
  function I8(x: int): (r: int)
    ensures -0x80 <= r < 0x80
    ensures (x - r) % U8_LIMIT == 0
    ensures -0x80 <= x < 0x80 ==> r == x
  {
    var u := x % U8_LIMIT;
    if u < 0x80 then u else u - U8_LIMIT
  }

  /** C division `a / b` for a positive divisor: the quotient is truncated toward zero. */
  function CDiv(a: int, b: int): (q: int)
    requires b > 0
    ensures a >= 0 ==> 0 <= a - q * b < b
    ensures a < 0 ==> -b < a - q * b <= 0
    ensures (a >= 0 ==> q >= 0) && (a <= 0 ==> q <= 0)
  {
    if a >= 0 then a / b else -((-a) / b)
  }

  /** C remainder `a % b` for a positive divisor: it takes the sign of `a`. */
  function CMod(a: int, b: int): (m: int)
    requires b > 0
    ensures a == CDiv(a, b) * b + m
    ensures -b < m < b
  {
    a - CDiv(a, b) * b
  }

  /** Absolute value, used to state thresholds of the form `-t < x < t`. */
  function Abs(x: int): (r: nat)
    ensures r == x || r == -x
  {
    if x < 0 then -x else x
  }
}
