/**
 * Python's `str(k)` and `int(s)` on integers: the snapshot writes every guild key with `str` and
 * reads it back with `int`, and the configuration reads its numeric settings with `int`. Only the
 * canonical form `str` produces is accepted by `ParseInt` (an optional minus sign followed by
 * ASCII digits).
 */
module Decimal {
  import opened Wrappers

  predicate IsDigit(c: char) { '0' <= c <= '9' }

  /** A non-empty run of ASCII digits. */
  predicate IsDigits(s: string) {
    |s| > 0 && forall i :: 0 <= i < |s| ==> IsDigit(s[i])
  }

  function DigitChar(d: nat): (c: char)
    requires d < 10
    ensures IsDigit(c)
  {
    "0123456789"[d]
  }

  function DigitValue(c: char): (d: nat)
    requires IsDigit(c)
    ensures d < 10
  {
    (c as int - '0' as int) as nat
  }

  lemma DigitValueOfChar(d: nat)
    requires d < 10
    ensures DigitValue(DigitChar(d)) == d
  {
  }

  /** Decimal digits of `n`, most significant first, without leading zeros. */
  function NatToString(n: nat): (s: string)
    ensures IsDigits(s)
    decreases n
  {
    if n < 10 then [DigitChar(n)] else NatToString(n / 10) + [DigitChar(n % 10)]
  }

  /** The number a run of digits denotes. */
  function DigitsValue(s: string): nat
    requires forall i :: 0 <= i < |s| ==> IsDigit(s[i])
  {
    if |s| == 0 then 0 else DigitsValue(s[..|s| - 1]) * 10 + DigitValue(s[|s| - 1])
  }

  /** Python's `str(k)` on an integer. */
  function IntToString(k: int): (s: string)
    ensures |s| > 0
    ensures k < 0 <==> s[0] == '-'
  {
    if k < 0 then "-" + NatToString(-k) else NatToString(k)
  }

  /** Python's `int(s)` on the canonical forms; `None` where Python raises `ValueError`. */
  function ParseInt(s: string): (r: Option<int>)
    ensures r.Some? <==> IsDigits(s) || (|s| > 0 && s[0] == '-' && IsDigits(s[1..]))
    ensures r.Some? && r.value < 0 ==> s[0] == '-'
  {
    if |s| > 0 && s[0] == '-' then
      (if IsDigits(s[1..]) then Some(-(DigitsValue(s[1..]) as int)) else None)
    else if IsDigits(s) then Some(DigitsValue(s) as int)
    else None
  }

  /** Reading back the digits of `n` gives `n`. */
  lemma {:induction false} NatRoundTrip(n: nat)
    ensures DigitsValue(NatToString(n)) == n
    decreases n
  {
    if n < 10 {
      DigitValueOfChar(n);
    } else {
      var s := NatToString(n);
      var prefix := NatToString(n / 10);
      assert s == prefix + [DigitChar(n % 10)];
      assert s[..|s| - 1] == prefix;
      NatRoundTrip(n / 10);
      DigitValueOfChar(n % 10);
    }
  }

  /** Every guild key survives `int(str(k))`. */
  lemma IntRoundTrip(k: int)
    ensures ParseInt(IntToString(k)) == Some(k)
  {
    if k < 0 {
      NegativeRoundTrip(k);
    } else {
      NonNegativeRoundTrip(k);
    }
  }

  lemma NegativeRoundTrip(k: int)
    requires k < 0
    ensures ParseInt(IntToString(k)) == Some(k)
  {
    NegatedRoundTrip(-k);
    assert ParseInt(IntToString(k)) == ParseInt("-" + NatToString(-k));
  }

  /** A minus sign before the digits of `n` reads as `-n`. */
  lemma NegatedRoundTrip(n: nat)
    ensures ParseInt("-" + NatToString(n)) == Some(-(n as int))
  {
    ParseNegative(NatToString(n));
    NatRoundTrip(n);
  }

  /** A minus sign before a run of digits reads as the negated digits. */
  lemma ParseNegative(digits: string)
    requires IsDigits(digits)
    ensures ParseInt("-" + digits) == Some(-(DigitsValue(digits) as int))
  {
    var s := "-" + digits;
    assert s[0] == '-' && s[1..] == digits;
  }

  lemma NonNegativeRoundTrip(k: int)
    requires k >= 0
    ensures ParseInt(IntToString(k)) == Some(k)
  {
    var s := IntToString(k);
    assert s == NatToString(k);
    assert IsDigit(s[0]);
    NatRoundTrip(k);
    assert ParseInt(s) == Some(DigitsValue(s) as int);
  }

  /** Distinct guilds are written under distinct keys. */
  lemma IntToStringInjective(a: int, b: int)
    requires IntToString(a) == IntToString(b)
    ensures a == b
  {
    IntRoundTrip(a);
    IntRoundTrip(b);
  }
}
