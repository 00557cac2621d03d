/** Decimal text as the server writes it with str() and reads it back with int().
    Only ASCII digits are considered: every string of the protocol is ASCII. */
module Numerals {

  predicate IsDigit(c: char) {
    '0' <= c <= '9'
  }

  /** Every character is an ASCII digit (the empty string qualifies). */
  predicate IsDigits(t: string) {
    forall i :: 0 <= i < |t| ==> IsDigit(t[i])
  }

  function DigitValue(c: char): nat
    requires IsDigit(c)
  {
    (c as int) - ('0' as int)
  }

  function DigitChar(d: nat): (c: char)
    requires d < 10
    ensures IsDigit(c) && DigitValue(c) == d
  {
    (('0' as int) + d) as char
  }

  /** int(t) for a string of digits; leading zeros are allowed, as in Python. */
  function DigitsValue(t: string): nat
    requires IsDigits(t)
  {
    if t == [] then 0 else DigitsValue(t[..|t| - 1]) * 10 + DigitValue(t[|t| - 1])
  }

  function Pow10(k: nat): (p: nat)
    ensures p >= 1
  {
    if k == 0 then 1 else 10 * Pow10(k - 1)
  }

  /** str(n) for a non-negative integer: at least one digit, and no leading
      zero unless the number itself is zero. */
  function Decimal(n: nat): (t: string)
    ensures 1 <= |t| && IsDigits(t)
    ensures t[0] == '0' <==> n == 0
  {
    if n < 10 then [DigitChar(n)] else Decimal(n / 10) + [DigitChar(n % 10)]
  }

  /** int(str(n)) == n. */
  lemma {:induction false} DecimalRoundTrip(n: nat)
    ensures DigitsValue(Decimal(n)) == n
  {
    if n >= 10 {
      var t := Decimal(n);
      assert t[..|t| - 1] == Decimal(n / 10);
      DecimalRoundTrip(n / 10);
    }
  }

  /** A value below 10^k is written with at most k digits. */
  lemma {:induction false} DecimalWidth(n: nat, k: nat)
    requires 1 <= k && n < Pow10(k)
    ensures |Decimal(n)| <= k
  {
    if n >= 10 {
      assert k >= 2 by { assert Pow10(1) == 10; }
      DecimalWidth(n / 10, k - 1);
    }
  }

  /** The text `-?\d+` of one signed integer. */
  predicate IsSignedInt(t: string) {
    if |t| > 0 && t[0] == '-' then |t| >= 2 && IsDigits(t[1..]) else |t| >= 1 && IsDigits(t)
  }

  /** int(t) for a text matching `-?\d+`. */
  function SignedValue(t: string): int
    requires IsSignedInt(t)
  {
    if t[0] == '-' then -(DigitsValue(t[1..]) as int) else DigitsValue(t)
  }

  /** str(z) for any integer. */
  function SignedDecimal(z: int): (t: string)
    ensures IsSignedInt(t)
    ensures ' ' !in t && '\n' !in t
  {
    if z < 0 then "-" + Decimal(-z) else Decimal(z)
  }

  /** int(str(z)) == z. */
  lemma SignedRoundTrip(z: int)
    ensures SignedValue(SignedDecimal(z)) == z
  {
    var t := SignedDecimal(z);
    if z < 0 {
      assert t[1..] == Decimal(-z);
      DecimalRoundTrip(-z);
    } else {
      DecimalRoundTrip(z);
    }
  }

  /** No character of a signed integer is a blank or a newline. */
  lemma SignedIntHasNoBlank(t: string)
    requires IsSignedInt(t)
    ensures ' ' !in t && '\n' !in t
  {
    if t[0] == '-' {
      forall i | 1 <= i < |t| ensures t[i] != ' ' && t[i] != '\n' {
        assert IsDigit(t[1..][i - 1]);
      }
    } else {
      forall i | 0 <= i < |t| ensures t[i] != ' ' && t[i] != '\n' {
        assert IsDigit(t[i]);
      }
    }
  }
}
