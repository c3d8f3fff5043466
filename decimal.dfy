/**
 * Decimal text of integers: what string interpolation writes for an `int`
 * or a `long` (`$"{id}"`), and what `long.TryParse` accepts back.
 */
module Decimal {
  import opened Wrappers

  const MinLong: int := -0x8000_0000_0000_0000
  const MaxLong: int := 0x7FFF_FFFF_FFFF_FFFF

  /** A value of the C# `long` type. */
  predicate InLong(n: int) {
    MinLong <= n <= MaxLong
  }

  /** The C# `long` type. */
  type Long = n: int | MinLong <= n <= MaxLong

  /** The C# `int` type. */
  type Int = n: int | -0x8000_0000 <= n <= 0x7FFF_FFFF

  predicate IsDigit(c: char) {
    '0' <= c <= '9'
  }

  predicate AllDigits(s: string) {
    forall i :: 0 <= i < |s| ==> IsDigit(s[i])
  }

  function DigitChar(d: nat): (c: char)
    requires d < 10
    ensures IsDigit(c)
  {
    ('0' as int + d) as char
  }

  function DigitValue(c: char): (d: nat)
    requires IsDigit(c)
    ensures d < 10
  {
    c as int - '0' as int
  }

  /** Decimal digits of a natural number, most significant first, no leading zero. */
  function NatToString(n: nat): (s: string)
    ensures |s| > 0 && AllDigits(s)
    decreases n
  {
    if n < 10 then [DigitChar(n)] else NatToString(n / 10) + [DigitChar(n % 10)]
  }

  /** `n.ToString()` with the invariant culture: a minus sign, then the digits. */
  function IntToString(n: int): (s: string)
    ensures |s| > 0
    ensures n >= 0 ==> AllDigits(s)
    ensures n < 0 ==> s[0] == '-' && AllDigits(s[1..])
  {
    if n < 0 then "-" + NatToString(-n) else NatToString(n)
  }

  /** The number a digit string denotes (leading zeros allowed). */
  function DigitsValue(s: string): nat
    requires AllDigits(s)
    decreases |s|
  {
    if |s| == 0 then 0 else DigitsValue(s[..|s| - 1]) * 10 + DigitValue(s[|s| - 1])
  }

  lemma {:induction false} DigitsOfNat(n: nat)
    ensures DigitsValue(NatToString(n)) == n
    decreases n
  {
    if n >= 10 {
      DigitsOfNat(n / 10);
      var s := NatToString(n);
      assert s[..|s| - 1] == NatToString(n / 10);
    }
  }

  /** White space that `NumberStyles.Integer` lets surround a number. */
  predicate IsNumberWhite(c: char) {
    c == ' ' || '\U{0009}' <= c <= '\U{000D}'
  }

  function TrimStart(s: string): (r: string)
    ensures |r| <= |s|
    decreases |s|
  {
    if |s| > 0 && IsNumberWhite(s[0]) then TrimStart(s[1..]) else s
  }

  function TrimEnd(s: string): (r: string)
    ensures |r| <= |s| && r == s[..|r|]
    decreases |s|
  {
    if |s| > 0 && IsNumberWhite(s[|s| - 1]) then TrimEnd(s[..|s| - 1]) else s
  }

  /** The value of an optional sign followed by at least one digit. */
  function SignedDigits(t: string): Option<int> {
    if |t| > 1 && (t[0] == '-' || t[0] == '+') && AllDigits(t[1..]) then
      var magnitude: int := DigitsValue(t[1..]);
      Some(if t[0] == '-' then -magnitude else magnitude)
    else if |t| > 0 && AllDigits(t) then Some(DigitsValue(t))
    else None
  }

  /**
   * `long.TryParse(s, out v)`: surrounding white space, an optional sign and
   * decimal digits, within the range of `long`; `None` when it returns false.
   */
  function ParseLong(s: string): (r: Option<int>)
    ensures r.Some? ==> InLong(r.value)
  {
    var v := SignedDigits(TrimEnd(TrimStart(s)));
    if v.Some? && InLong(v.value) then v else None
  }

  /** `long.TryParse` reads back every `long` that `ToString` wrote. */
  lemma ParseLongOfIntToString(n: int)
    requires InLong(n)
    ensures ParseLong(IntToString(n)) == Some(n)
  {
    var s := IntToString(n);
    assert !IsNumberWhite(s[0]);
    assert TrimStart(s) == s;
    assert !IsNumberWhite(s[|s| - 1]) by {
      if n < 0 { assert s[|s| - 1] == s[1..][|s| - 2]; }
    }
    assert TrimEnd(s) == s;
    if n < 0 {
      assert s[1..] == NatToString(-n);
      DigitsOfNat(-n);
    } else {
      DigitsOfNat(n);
    }
  }

  /** Different numbers are written differently. */
  lemma IntToStringInjective(a: int, b: int)
    requires InLong(a) && InLong(b)
    requires IntToString(a) == IntToString(b)
    ensures a == b
  {
    ParseLongOfIntToString(a);
    ParseLongOfIntToString(b);
  }
}
