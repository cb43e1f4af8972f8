/**
 * Decimal rendering of Kotlin `Long` values, as `Long.toString()` produces it:
 * an optional '-' followed by the digits of the magnitude, without leading
 * zeros, grouping or decimal places. `ParseLong` is its inverse and is used to
 * state what the rendering preserves.
 */
module Decimal {
  import opened Wrappers

  /** Kotlin's `Long`: 64-bit two's-complement whole numbers. */
  const MinLong: int := -0x8000_0000_0000_0000
  const MaxLong: int := 0x7FFF_FFFF_FFFF_FFFF
  type Long = x: int | MinLong <= x <= MaxLong

  predicate IsDigit(c: char) {
    '0' <= c <= '9'
  }

  function DigitChar(d: int): (c: char)
    requires 0 <= d < 10
    ensures IsDigit(c)
  {
    ('0' as int + d) as char
  }

  function DigitValue(c: char): (r: Option<nat>)
    ensures r.Some? <==> IsDigit(c)
    ensures r.Some? ==> r.value < 10 && DigitChar(r.value) == c
  {
    if IsDigit(c) then Some(c as int - '0' as int) else None
  }

  /** The digits of `n`, most significant first. */
  function NatToDecimal(n: nat): (s: string)
    ensures |s| >= 1 && IsDigit(s[0])
    ensures |s| > 1 ==> s[0] != '0'
    decreases n
  {
    if n < 10 then [DigitChar(n)] else NatToDecimal(n / 10) + [DigitChar(n % 10)]
  }

  /** `Long.toString()`. */
  function LongToString(n: int): string {
    if n < 0 then "-" + NatToDecimal(-n) else NatToDecimal(n)
  }

  /** The value of a non-empty string of decimal digits; None for anything else. */
  function ParseDigits(s: string): Option<nat>
    decreases |s|
  {
    if |s| == 0 then None
    else
      var d := DigitValue(s[|s| - 1]);
      if d.None? then None
      else if |s| == 1 then Some(d.value)
      else match ParseDigits(s[..|s| - 1])
        case None => None
        case Some(m) => Some(m * 10 + d.value)
  }

  /** Reads back a rendered whole number: an optional '-' and then digits. */
  function ParseLong(s: string): Option<int> {
    if |s| > 0 && s[0] == '-' then
      match ParseDigits(s[1..])
      case None => None
      case Some(m) => Some(-(m as int))
    else
      match ParseDigits(s)
      case None => None
      case Some(m) => Some(m as int)
  }

  /** The rendering is digits only: no separators, no decimal point. */
  lemma {:induction false} NatToDecimalDigits(n: nat)
    ensures forall i :: 0 <= i < |NatToDecimal(n)| ==> IsDigit(NatToDecimal(n)[i])
    decreases n
  {
    if n >= 10 {
      NatToDecimalDigits(n / 10);
      var s := NatToDecimal(n);
      assert forall i :: 0 <= i < |s| - 1 ==> s[i] == NatToDecimal(n / 10)[i];
    }
  }

  /** A rendered `Long` is a '-' exactly for negative numbers, then digits. */
  lemma LongToStringShape(n: int)
    ensures |LongToString(n)| >= 1
    ensures LongToString(n)[0] == '-' <==> n < 0
    ensures forall i :: 0 < i < |LongToString(n)| ==> IsDigit(LongToString(n)[i])
  {
    if n < 0 {
      NatToDecimalDigits(-n);
      assert forall i :: 0 < i < |LongToString(n)| ==> LongToString(n)[i] == NatToDecimal(-n)[i - 1];
    } else {
      NatToDecimalDigits(n);
    }
  }

  lemma {:induction false} NatRoundTrip(n: nat)
    ensures ParseDigits(NatToDecimal(n)) == Some(n)
    decreases n
  {
    if n >= 10 {
      var s := NatToDecimal(n);
      assert s[..|s| - 1] == NatToDecimal(n / 10);
      NatRoundTrip(n / 10);
    }
  }

  lemma NegativeRoundTrip(m: nat)
    requires m > 0
    ensures ParseLong("-" + NatToDecimal(m)) == Some(-(m as int))
  {
    var s := "-" + NatToDecimal(m);
    assert s[0] == '-' && s[1..] == NatToDecimal(m);
    NatRoundTrip(m);
  }

  lemma NonNegativeRoundTrip(m: nat)
    ensures ParseLong(NatToDecimal(m)) == Some(m)
  {
    NatRoundTrip(m);
  }

  /** Rendering loses nothing: the number can be read back from its string. */
  lemma LongRoundTrip(n: int)
    ensures ParseLong(LongToString(n)) == Some(n)
  {
    if n < 0 {
      NegativeRoundTrip(-n);
    } else {
      NonNegativeRoundTrip(n);
    }
  }

  /** Distinct numbers render to distinct strings, so comparing rendered ids
      compares the numbers. */
  lemma LongToStringInjective(a: int, b: int)
    ensures LongToString(a) == LongToString(b) <==> a == b
  {
    if LongToString(a) == LongToString(b) {
      LongRoundTrip(a);
      LongRoundTrip(b);
    }
  }
}
