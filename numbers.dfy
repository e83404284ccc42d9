/** Fixed-width integers and the numeric conversions Rust performs implicitly:
    saturating float-to-int `as` casts, `u32::from_str` and `clamp`. */
module Numbers {
  import opened Wrappers

  type u8 = x: int | 0 <= x < 0x100
  type u32 = x: int | 0 <= x < 0x1_0000_0000
  type i32 = x: int | -0x8000_0000 <= x < 0x8000_0000

  const U32_MAX: u32 := 0xFFFF_FFFF
  const I32_MAX: i32 := 0x7FFF_FFFF
  const I32_MIN: i32 := -0x8000_0000

  /** `x as u32` on a float: truncation toward zero, saturating at both ends
      (so every negative product becomes 0). Its properties are stated
      apart, in `TruncToU32Spec`, so that they are brought in only where a
      proof needs them. */
  function TruncToU32(x: real): u32 {
    if x <= 0.0 then 0
    else if x >= U32_MAX as real then U32_MAX
    else x.Floor
  }

  /** `x as u32`: 0 at or below zero, the floor in range, `u32::MAX` above. */
  lemma TruncToU32Spec(x: real)
    ensures x <= 0.0 ==> TruncToU32(x) == 0
    ensures 0.0 <= x < 0x1_0000_0000 as real ==> TruncToU32(x) as real <= x < TruncToU32(x) as real + 1.0
    ensures x >= U32_MAX as real ==> TruncToU32(x) == U32_MAX
  {
  }

  /** `x as i32` on a float: truncation toward zero, saturating at both ends;
      negative values are kept. Its properties are stated in
      `TruncToI32Spec`. */
  function TruncToI32(x: real): i32 {
    if x >= 0.0 then
      if x >= I32_MAX as real then I32_MAX else x.Floor
    else
      if x <= I32_MIN as real then I32_MIN else -((-x).Floor)
  }

  /** `x as i32`: truncation toward zero in range, saturating at both ends. */
  lemma TruncToI32Spec(x: real)
    ensures 0.0 <= x < 0x8000_0000 as real ==> TruncToI32(x) as real <= x < TruncToI32(x) as real + 1.0
    ensures -0x8000_0000 as real < x <= 0.0 ==> TruncToI32(x) as real - 1.0 < x <= TruncToI32(x) as real
    ensures x >= I32_MAX as real ==> TruncToI32(x) == I32_MAX
    ensures x <= I32_MIN as real ==> TruncToI32(x) == I32_MIN
  {
  }

  /** `u32::clamp(0, hi)` for a bound that fits. */
  function ClampU32(x: u32, hi: u32): (r: u32)
    ensures r <= hi && r <= x
    ensures r == x || r == hi
  {
    if x > hi then hi else x
  }

  /** `f32::clamp(0.0, 1.0)`. */
  function ClampUnit(x: real): (r: real)
    ensures 0.0 <= r <= 1.0
    ensures 0.0 <= x <= 1.0 ==> r == x
    ensures x < 0.0 ==> r == 0.0
    ensures x > 1.0 ==> r == 1.0
  {
    if x < 0.0 then 0.0 else if x > 1.0 then 1.0 else x
  }

  predicate IsDigit(c: char) { '0' <= c <= '9' }

  function DigitValue(c: char): (d: nat)
    requires IsDigit(c)
    ensures d < 10
  {
    c as int - '0' as int
  }

  function DigitChar(d: nat): (c: char)
    requires d < 10
    ensures IsDigit(c) && DigitValue(c) == d
  {
    ('0' as int + d) as char
  }

  /** The value of a string of decimal digits, most significant first. */
  function DecimalValue(s: string): nat
    requires forall i :: 0 <= i < |s| ==> IsDigit(s[i])
  {
    if s == [] then 0 else DecimalValue(s[..|s| - 1]) * 10 + DigitValue(s[|s| - 1])
  }

  /** The shortest decimal rendering of `n`, as Rust's `Display` writes a `u32`. */
  function Decimal(n: nat): (s: string)
    ensures s != [] && forall i :: 0 <= i < |s| ==> IsDigit(s[i])
  {
    if n < 10 then [DigitChar(n)] else Decimal(n / 10) + [DigitChar(n % 10)]
  }

  /** `u32::from_str`: an optional leading '+', then one or more decimal digits
      whose value fits in 32 bits; anything else is an error (`None`). */
  function ParseU32(s: string): (r: Option<u32>)
    ensures r.Some? ==> s != [] && s != "+"
  {
    var digits := if s != [] && s[0] == '+' then s[1..] else s;
    if digits == [] then None
    else if !(forall i :: 0 <= i < |digits| ==> IsDigit(digits[i])) then None
    else if DecimalValue(digits) > U32_MAX then None
    else Some(DecimalValue(digits))
  }

  lemma {:induction false} DecimalValueOfDecimal(n: nat)
    ensures DecimalValue(Decimal(n)) == n
  {
    if n >= 10 {
      var s := Decimal(n);
      assert s[..|s| - 1] == Decimal(n / 10);
      DecimalValueOfDecimal(n / 10);
    }
  }

  /** Rendering a `u32` in decimal and parsing it back gives the same number. */
  lemma ParseU32OfDecimal(n: u32)
    ensures ParseU32(Decimal(n)) == Some(n)
  {
    DecimalValueOfDecimal(n);
    var s := Decimal(n);
    assert s[0] != '+' by { assert IsDigit(s[0]); }
  }
}
