/** The part of JavaScript's `parseFloat` that the orbit-element tables need:
    an optional minus sign, decimal digits and at most one decimal point,
    read as an exact rational number. Anything else reads as `None` (NaN). */
module Decimal {
  import opened Common

  predicate IsDigit(c: char) {
    '0' <= c <= '9'
  }

  function DigitValue(c: char): nat
    requires IsDigit(c)
  {
    (c as int) - ('0' as int)
  }

  function Pow10(n: nat): (r: nat)
    ensures r >= 1
  {
    if n == 0 then 1 else 10 * Pow10(n - 1)
  }

  /** Scans s from index i. `mantissa` holds the digits read so far as an
      integer, `fraction` the number of digits after the point (None while no
      point has been read), and `seenDigit` whether any digit was read. */
  function Scan(s: string, i: nat, mantissa: nat, fraction: Option<nat>, seenDigit: bool): (r: Option<real>)
    requires i <= |s|
    ensures r.Some? ==> seenDigit || exists j | i <= j < |s| :: IsDigit(s[j])
    decreases |s| - i
  {
    if i == |s| then
      if !seenDigit then None
      else Some(mantissa as real / Pow10(fraction.GetOr(0)) as real)
    else if s[i] == '.' && fraction.None? then
      Scan(s, i + 1, mantissa, Some(0), seenDigit)
    else if IsDigit(s[i]) then
      var f := if fraction.Some? then Some(fraction.value + 1) else None;
      Scan(s, i + 1, mantissa * 10 + DigitValue(s[i]), f, true)
    else None
  }

  /** `parseFloat` on the decimal subset: a number only where some digit
      was read, and NaN (None) for anything else. */
  function Parse(s: string): (r: Option<real>)
    ensures r.Some? ==> exists j | 0 <= j < |s| :: IsDigit(s[j])
  {
    if |s| > 0 && s[0] == '-' then
      match Scan(s, 1, 0, None, false)
      case Some(v) => Some(-v)
      case None => None
    else Scan(s, 0, 0, None, false)
  }

  lemma QuotientBelowOne(x: real, p: real)
    requires 0.0 <= x < p
    ensures 0.0 <= x / p < 1.0
  {
  }

  /** Once past the point with fewer digits read than the fraction's scale,
      a tail of digits only reads as a value in [0, 1). */
  lemma {:induction false} ScanFractionBelowOne(s: string, i: nat, mantissa: nat, fraction: nat)
    requires i <= |s|
    requires forall j | i <= j < |s| :: IsDigit(s[j])
    requires mantissa < Pow10(fraction)
    ensures var r := Scan(s, i, mantissa, Some(fraction), true); r.Some? && 0.0 <= r.value < 1.0
    decreases |s| - i
  {
    if i < |s| {
      var d := DigitValue(s[i]);
      assert mantissa * 10 + d < Pow10(fraction + 1);
      ScanFractionBelowOne(s, i + 1, mantissa * 10 + d, fraction + 1);
    } else {
      var p := Pow10(fraction) as real;
      assert mantissa as real < p;
      QuotientBelowOne(mantissa as real, p);
    }
  }

  /** A string "0." followed by digits reads as a value in [0, 1). */
  lemma ZeroPointBelowOne(s: string)
    requires |s| >= 2 && s[0] == '0' && s[1] == '.'
    requires forall j | 2 <= j < |s| :: IsDigit(s[j])
    ensures Parse(s).Some? && 0.0 <= Parse(s).value < 1.0
  {
    assert Parse(s) == Scan(s, 0, 0, None, false);
    assert DigitValue(s[0]) == 0;
    assert Scan(s, 0, 0, None, false) == Scan(s, 1, 0, None, true);
    assert Scan(s, 1, 0, None, true) == Scan(s, 2, 0, Some(0), true);
    ScanFractionBelowOne(s, 2, 0, 0);
  }

  /** The digit character of a value below ten. */
  function DigitChar(d: nat): (c: char)
    requires d < 10
    ensures IsDigit(c) && DigitValue(c) == d
  {
    ((('0' as int) + d) as char)
  }

  /** The decimal digits of a whole number, most significant first, as
      `String(n)` writes them. */
  function NatDigits(n: nat): (s: string)
    ensures |s| >= 1 && forall j | 0 <= j < |s| :: IsDigit(s[j])
  {
    if n < 10 then [DigitChar(n)] else NatDigits(n / 10) + [DigitChar(n % 10)]
  }

  /** The integer the digits s[i..] make after `mantissa`. */
  function Accumulate(s: string, i: nat, mantissa: nat): nat
    requires i <= |s|
    requires forall j | i <= j < |s| :: IsDigit(s[j])
    decreases |s| - i
  {
    if i == |s| then mantissa else Accumulate(s, i + 1, mantissa * 10 + DigitValue(s[i]))
  }

  /** Without a point, the scan reads the integer the digits make. */
  lemma {:induction false} ScanDigits(s: string, i: nat, mantissa: nat)
    requires i <= |s|
    requires forall j | i <= j < |s| :: IsDigit(s[j])
    ensures Scan(s, i, mantissa, None, true) == Some(Accumulate(s, i, mantissa) as real)
    decreases |s| - i
  {
    if i < |s| {
      ScanDigits(s, i + 1, mantissa * 10 + DigitValue(s[i]));
    }
  }

  /** One more digit at the end multiplies the integer by ten and adds it. */
  lemma {:induction false} AccumulateSnoc(s: string, c: char, i: nat, mantissa: nat)
    requires i <= |s| && IsDigit(c)
    requires forall j | i <= j < |s| :: IsDigit(s[j])
    ensures Accumulate(s + [c], i, mantissa) == Accumulate(s, i, mantissa) * 10 + DigitValue(c)
    decreases |s| - i
  {
    if i < |s| {
      AccumulateSnoc(s, c, i + 1, mantissa * 10 + DigitValue(s[i]));
      assert (s + [c])[i] == s[i];
    }
  }

  /** The digits of n, after any prefix, make n. */
  lemma {:induction false} AccumulateNatDigits(prefix: string, n: nat)
    ensures Accumulate(prefix + NatDigits(n), |prefix|, 0) == n
  {
    if n < 10 {
      assert Accumulate(prefix + NatDigits(n), |prefix| + 1, DigitValue(DigitChar(n))) == n;
    } else {
      AccumulateNatDigits(prefix, n / 10);
      assert prefix + NatDigits(n) == (prefix + NatDigits(n / 10)) + [DigitChar(n % 10)];
      AccumulateSnoc(prefix + NatDigits(n / 10), DigitChar(n % 10), |prefix|, 0);
    }
  }

  /** The digits of a whole number read back as that number, and with a
      minus sign in front as its negation. */
  lemma ParseNatDigits(n: nat)
    ensures Parse(NatDigits(n)) == Some(n as real)
    ensures Parse("-" + NatDigits(n)) == Some(-(n as real))
  {
    var d := NatDigits(n);
    AccumulateNatDigits("", n);
    assert "" + d == d;
    ScanDigits(d, 1, DigitValue(d[0]));
    AccumulateNatDigits("-", n);
    var m := "-" + d;
    ScanDigits(m, 2, DigitValue(m[1]));
  }
}
