/** The C++ integer types and conversions the generator relies on, for a
    platform with a 32-bit two's-complement `int`. Signed overflow, which the
    language leaves undefined, is modelled as two's-complement wrap-around. */
module Cpp {
  const INT_MAX: int := 0x7FFF_FFFF
  const INT_MIN: int := -0x8000_0000
  const TWO_32: int := 0x1_0000_0000
  const TWO_64: int := 0x1_0000_0000_0000_0000

  type Int32 = x: int | -0x8000_0000 <= x <= 0x7FFF_FFFF
  type UInt32 = x: int | 0 <= x < 0x1_0000_0000
  type UInt64 = x: int | 0 <= x < 0x1_0000_0000_0000_0000

  /** The `int` that an exact integer result wraps to. */
  function Wrap32(x: int): (r: Int32)
    ensures (r - x) % TWO_32 == 0
    ensures INT_MIN <= x <= INT_MAX ==> r == x
  {
    (x - INT_MIN) % TWO_32 + INT_MIN
  }

  /** Conversion of a signed value to `uint64_t` (reduction modulo 2^64). */
  function ToUint64(x: int): (r: UInt64)
    ensures (r - x) % TWO_64 == 0
    ensures 0 <= x ==> x < TWO_64 ==> r == x
  {
    x % TWO_64
  }

  /** The character of one decimal digit. */
  function Digit(d: nat): (c: char)
    requires d < 10
    ensures '0' <= c <= '9'
  {
    (48 + d) as char
  }

  /** `std::to_string` of a non-negative integer: its decimal digits. */
  function ToDecimal(n: nat): (s: string)
    ensures |s| >= 1
    ensures forall i :: 0 <= i < |s| ==> '0' <= s[i] <= '9'
    ensures n < 10 ==> s == [Digit(n)]
  {
    if n < 10 then [Digit(n)] else ToDecimal(n / 10) + [Digit(n % 10)]
  }

  /** The number a string of decimal digits denotes (the inverse of ToDecimal). */
  function DecimalValue(s: string): nat
    requires forall i :: 0 <= i < |s| ==> '0' <= s[i] <= '9'
  {
    if s == [] then 0
    else DecimalValue(s[..|s| - 1]) * 10 + (s[|s| - 1] as int - '0' as int)
  }

  lemma {:induction false} DecimalRoundTrip(n: nat)
    ensures DecimalValue(ToDecimal(n)) == n
    decreases n
  {
    if n >= 10 {
      var s := ToDecimal(n);
      assert s == ToDecimal(n / 10) + [Digit(n % 10)];
      assert s[..|s| - 1] == ToDecimal(n / 10);
      DecimalRoundTrip(n / 10);
    }
  }
}
