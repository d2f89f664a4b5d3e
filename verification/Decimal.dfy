/** Decimal text of integers: strconv.FormatInt (or %d), strconv.ParseInt and strconv.Atoi,
    with base 10 and 64 bits; and the range strconv.ParseFloat checks. */
module Decimal {

  datatype Parsed = Exact(n: int) | SyntaxError | RangeError

  const MAX_INT64: int := 0x7FFF_FFFF_FFFF_FFFF
  const MIN_INT64: int := -0x8000_0000_0000_0000

  predicate IsInt64(n: int) { MIN_INT64 <= n <= MAX_INT64 }

  predicate IsDecimalDigit(c: char) { '0' <= c <= '9' }

  predicate IsDecimal(s: string) { s != "" && forall i | 0 <= i < |s| :: IsDecimalDigit(s[i]) }

  function DigitChar(d: nat): char
    requires d < 10
  { ('0' as int + d) as char }

  function FormatNat(n: nat): string {
    if n < 10 then [DigitChar(n)] else FormatNat(n / 10) + [DigitChar(n % 10)]
  }

  function FormatInt(n: int): string {
    if n < 0 then "-" + FormatNat(-n) else FormatNat(n)
  }

  function DigitsValue(s: string): int
    requires forall i | 0 <= i < |s| :: IsDecimalDigit(s[i])
  {
    if s == "" then 0
    else 10 * DigitsValue(s[..|s| - 1]) + (s[|s| - 1] as int - '0' as int)
  }

  function InRange(n: int): Parsed { if IsInt64(n) then Exact(n) else RangeError }

  function ParseInt(s: string): Parsed {
    if s != "" && (s[0] == '-' || s[0] == '+') then
      if !IsDecimal(s[1..]) then SyntaxError
      else InRange(if s[0] == '-' then -DigitsValue(s[1..]) else DigitsValue(s[1..]))
    else if !IsDecimal(s) then SyntaxError
    else InRange(DigitsValue(s))
  }

  lemma {:induction false} FormatNatValue(n: nat)
    ensures IsDecimal(FormatNat(n)) && DigitsValue(FormatNat(n)) == n
  {
    if n < 10 {
      assert FormatNat(n)[..0] == "";
    } else {
      FormatNatValue(n / 10);
      var s := FormatNat(n);
      assert s[..|s| - 1] == FormatNat(n / 10);
    }
  }

  /** Parsing inverts formatting on all 64-bit integers; outside them it says so. */
  lemma FormatParse(n: int)
    ensures ParseInt(FormatInt(n)) == (if IsInt64(n) then Exact(n) else RangeError)
  {
    FormatNatValue(if n < 0 then -n else n);
    if n < 0 {
      assert FormatInt(n)[1..] == FormatNat(-n);
    }
  }

  /** Zeros in front do not count. */
  lemma {:induction false} ZerosInFront(s: string)
    requires IsDecimal(s)
    ensures IsDecimal("0" + s) && DigitsValue("0" + s) == DigitsValue(s)
    decreases |s|
  {
    var z := "0" + s;
    assert z[..|z| - 1] == "0" + s[..|s| - 1];
    if |s| > 1 {
      ZerosInFront(s[..|s| - 1]);
    } else {
      assert s[..0] == "" && "0"[..0] == "" && "0" + "" == "0";
      assert DigitsValue("0") == 0;
    }
  }

  /** A sign in front of digits, and digits without one. */
  lemma SignedParse(s: string)
    requires IsDecimal(s)
    ensures ParseInt(s) == InRange(DigitsValue(s)) == ParseInt("+" + s) && ParseInt("-" + s) == InRange(-DigitsValue(s))
  {
    assert ("+" + s)[1..] == s && ("-" + s)[1..] == s;
  }

  // ----- floats -----

  function LeadingDigits(s: string): (r: string)
    ensures forall i | 0 <= i < |r| :: IsDecimalDigit(r[i])
  {
    if s == "" || !IsDecimalDigit(s[0]) then "" else [s[0]] + LeadingDigits(s[1..])
  }

  function PowerOfTwo(k: nat): nat { if k == 0 then 1 else 2 * PowerOfTwo(k - 1) }

  const MAX_EXPONENT: nat := 1024
  const HALF_UNIT_EXPONENT: nat := 970

  /** Text with an optional minus sign, digits, a point and digits rounds to a finite 64-bit float.
      The largest one is 2^1024 - 2^971; from half a unit above it, text rounds to infinity.  That
      bound is an integer, so the digits behind the point do not matter. */
  predicate IsFloat64(t: string) {
    DigitsValue(LeadingDigits(if t != "" && t[0] == '-' then t[1..] else t))
      < PowerOfTwo(MAX_EXPONENT) - PowerOfTwo(HALF_UNIT_EXPONENT)
  }
}
