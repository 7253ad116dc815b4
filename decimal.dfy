/**
 * Decimal text of integers, as BigInteger.ToString() and Int32.ToString() produce it under
 * the invariant culture: an optional '-' followed by base-10 digits with no leading zero.
 * Integers here are unbounded, so the same renderer serves the 32-bit topCount and the
 * arbitrary-precision score. Parse is the reader on the receiving side; the two are inverse.
 */
module Decimal {
  import opened Wrappers

  predicate IsDigit(ch: char) {
    '0' <= ch <= '9'
  }

  function DigitValue(ch: char): nat
    requires IsDigit(ch)
  {
    ch as int - '0' as int
  }

  function DigitChar(d: nat): (ch: char)
    requires d < 10
    ensures IsDigit(ch) && DigitValue(ch) == d
  {
    "0123456789"[d]
  }

  predicate AllDigits(s: string) {
    forall k :: 0 <= k < |s| ==> IsDigit(s[k])
  }

  /** Digits of n, most significant first */
  function ShowNat(n: nat): string
    decreases n
  {
    if n < 10 then [DigitChar(n)] else ShowNat(n / 10) + [DigitChar(n % 10)]
  }

  /** The decimal text of i */
  function Show(i: int): string {
    if i < 0 then "-" + ShowNat(-i) else ShowNat(i)
  }

  /** The value of a digit string, read most significant digit first */
  function DigitsValue(s: string): nat
    requires AllDigits(s)
    decreases |s|
  {
    if |s| == 0 then 0 else DigitsValue(s[..|s| - 1]) * 10 + DigitValue(s[|s| - 1])
  }

  /** An optional '-' followed by at least one digit; anything else does not parse */
  function Parse(s: string): Option<int> {
    if |s| >= 2 && s[0] == '-' && AllDigits(s[1..]) then Some(-(DigitsValue(s[1..]) as int))
    else if |s| >= 1 && AllDigits(s) then Some(DigitsValue(s))
    else None
  }

  /** Digits with no leading zero, except for the single digit "0" */
  predicate CanonicalDigits(s: string) {
    |s| >= 1 && AllDigits(s) && (s[0] == '0' ==> |s| == 1)
  }

  /** The texts Show produces: canonical digits, or '-' and canonical digits of a non-zero value */
  predicate Canonical(s: string) {
    CanonicalDigits(s) || (|s| >= 2 && s[0] == '-' && CanonicalDigits(s[1..]) && s[1] != '0')
  }

  /** The digits of n are digits only, at least one, with no leading zero unless n is 0 */
  lemma {:induction false} ShowNatShape(n: nat)
    ensures CanonicalDigits(ShowNat(n))
    ensures ShowNat(n)[0] == '0' <==> n == 0
    decreases n
  {
    if n >= 10 {
      ShowNatShape(n / 10);
      assert ShowNat(n)[0] == ShowNat(n / 10)[0];
    }
  }

  lemma {:induction false} ShowNatValue(n: nat)
    ensures AllDigits(ShowNat(n)) && DigitsValue(ShowNat(n)) == n
    decreases n
  {
    ShowNatShape(n);
    if n >= 10 {
      var s := ShowNat(n);
      ShowNatShape(n / 10);
      ShowNatValue(n / 10);
      assert s[..|s| - 1] == ShowNat(n / 10);
    }
  }

  /**
   * The text of every integer reads back as that same integer: nothing is truncated or
   * rounded, whatever the magnitude (beyond 64 bits included).
   */
  lemma ParseShow(i: int)
    ensures Parse(Show(i)) == Some(i)
  {
    if i < 0 {
      ShowNatValue(-i);
      ParseSigned(ShowNat(-i));
    } else {
      ShowNatValue(i);
      ShowNatShape(i);
    }
  }

  /** '-' followed by digits reads as the negated value of the digits */
  lemma ParseSigned(t: string)
    requires |t| >= 1 && AllDigits(t)
    ensures Parse("-" + t) == Some(-(DigitsValue(t) as int))
  {
    assert ("-" + t)[1..] == t;
  }

  /** A non-negative value is rendered as digits only: no sign, no exponent, no leading zero */
  lemma ShowNonNegative(i: int)
    requires i >= 0
    ensures CanonicalDigits(Show(i))
    ensures Show(i)[0] == '0' ==> Show(i) == "0"
  {
    ShowNatShape(i);
  }

  /** A negative value is rendered as '-' followed by the digits of its magnitude */
  lemma ShowNegative(i: int)
    requires i < 0
    ensures Canonical(Show(i)) && Show(i)[0] == '-'
  {
    ShowNatShape(-i);
    assert Show(i)[1..] == ShowNat(-i);
  }

  /** Two different integers never share a text */
  lemma ShowInjective(i: int, j: int)
    requires Show(i) == Show(j)
    ensures i == j
  {
    ParseShow(i);
    ParseShow(j);
  }

  lemma {:induction false} ZeroValueAllZeros(s: string)
    requires AllDigits(s) && |s| >= 1 && s[0] != '0'
    ensures DigitsValue(s) >= 1
    decreases |s|
  {
    if |s| > 1 {
      ZeroValueAllZeros(s[..|s| - 1]);
    }
  }

  lemma {:induction false} ShowNatDigitsValue(s: string)
    requires CanonicalDigits(s)
    ensures ShowNat(DigitsValue(s)) == s
    decreases |s|
  {
    if |s| > 1 {
      var t := s[..|s| - 1];
      var d := DigitValue(s[|s| - 1]);
      ZeroValueAllZeros(t);
      ShowNatDigitsValue(t);
      var n := DigitsValue(s);
      assert n == DigitsValue(t) * 10 + d;
      assert n / 10 == DigitsValue(t) && n % 10 == d;
      assert s == t + [s[|s| - 1]];
    }
  }

  /** A text is what Show gives for some integer exactly when it is canonical and parses to it */
  lemma ShowParse(s: string, i: int)
    ensures s == Show(i) <==> Canonical(s) && Parse(s) == Some(i)
  {
    if s == Show(i) {
      ParseShow(i);
      if i < 0 { ShowNegative(i); } else { ShowNonNegative(i); }
    }
    if Canonical(s) && Parse(s) == Some(i) {
      if CanonicalDigits(s) {
        ShowNatDigitsValue(s);
      } else {
        ZeroValueAllZeros(s[1..]);
        ShowNatDigitsValue(s[1..]);
        assert s == "-" + s[1..];
      }
    }
  }
}
