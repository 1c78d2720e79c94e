/**
 * Two-decimal amount strings. The JavaScript layer formats every monetary
 * amount with `Number.prototype.toFixed(2)` before it crosses to native code;
 * amounts are modelled here as whole numbers of cents, for which `toFixed(2)`
 * is exact.
 */
module Money {
  import opened Wrappers

  predicate IsDigit(c: char) {
    '0' <= c <= '9'
  }

  predicate AllDigits(s: string) {
    forall i :: 0 <= i < |s| ==> IsDigit(s[i])
  }

  function DigitChar(d: nat): (c: char)
    requires d < 10
    ensures IsDigit(c) && DigitValue(c) == d
  {
    (('0' as int) + d) as char
  }

  function DigitValue(c: char): nat
    requires IsDigit(c)
  {
    (c as int) - ('0' as int)
  }

  /** The decimal numeral of `n`, without leading zeros. */
  function NatToDecimal(n: nat): (s: string)
    ensures |s| >= 1 && AllDigits(s)
    ensures s[0] == '0' <==> n == 0
    ensures s[0] == '0' ==> |s| == 1
    decreases n
  {
    if n < 10 then [DigitChar(n)] else NatToDecimal(n / 10) + [DigitChar(n % 10)]
  }

  /** The value of a numeral. */
  function DecimalToNat(s: string): nat
    requires AllDigits(s)
    decreases |s|
  {
    if s == [] then 0 else DecimalToNat(s[..|s| - 1]) * 10 + DigitValue(s[|s| - 1])
  }

  lemma {:induction false} DecimalRoundTrip(n: nat)
    ensures DecimalToNat(NatToDecimal(n)) == n
    decreases n
  {
    var s := NatToDecimal(n);
    if n >= 10 {
      DecimalRoundTrip(n / 10);
      assert s[..|s| - 1] == NatToDecimal(n / 10);
    }
  }

  function Magnitude(cents: int): nat {
    if cents < 0 then -cents else cents
  }

  /**
   * `(cents / 100).toFixed(2)`: an optional minus sign, the whole units
   * without leading zeros, a point and exactly two digits of cents.
   */
  function ToFixed2(cents: int): (s: string)
    ensures |s| >= 4 && s[|s| - 3] == '.' && IsDigit(s[|s| - 2]) && IsDigit(s[|s| - 1])
    ensures (|s| > 0 && s[0] == '-') <==> cents < 0
    ensures var k := if cents < 0 then 1 else 0;
      && k < |s| - 3 && AllDigits(s[k..|s| - 3])
      && (s[k] == '0' <==> -100 < cents < 100)
      && (s[k] == '0' ==> |s| - 3 == k + 1)
  {
    var sign := if cents < 0 then "-" else "";
    var u := UnsignedFixed2(Magnitude(cents));
    assert (sign + u)[|sign|..] == u;
    sign + u
  }

  /** The unsigned part of `toFixed(2)`: whole units, a point and two digits of cents. */
  function UnsignedFixed2(m: nat): (u: string)
    ensures |u| >= 4 && u[|u| - 3] == '.' && IsDigit(u[|u| - 2]) && IsDigit(u[|u| - 1])
    ensures AllDigits(u[..|u| - 3]) && u[0] != '-'
    ensures u[0] == '0' <==> m < 100
    ensures u[0] == '0' ==> |u| == 4
  {
    var whole := NatToDecimal(m / 100);
    var u := whole + "." + [DigitChar(m / 10 % 10), DigitChar(m % 10)];
    assert u[..|u| - 3] == whole;
    u
  }

  /** Reads an unsigned two-decimal numeral `d+.dd` as a number of cents. */
  function ParseUnsignedFixed2(s: string): Option<nat> {
    if |s| >= 4 && s[|s| - 3] == '.' then ParseWholeAndCents(s[..|s| - 3], s[|s| - 2], s[|s| - 1]) else None
  }

  /** The whole-units numeral and the two cent digits around the point, read as cents. */
  function ParseWholeAndCents(whole: string, d1: char, d0: char): Option<nat> {
    if AllDigits(whole) && IsDigit(d1) && IsDigit(d0)
    then Some(DecimalToNat(whole) * 100 + DigitValue(d1) * 10 + DigitValue(d0))
    else None
  }

  /** Reads a two-decimal numeral `-?d+.dd`, the strings `ToFixed2` produces, as a number of cents. */
  function ParseFixed2(s: string): Option<int> {
    if |s| > 0 && s[0] == '-' then
      match ParseUnsignedFixed2(s[1..])
      case Some(m) => Some(-(m as int))
      case None => None
    else
      match ParseUnsignedFixed2(s)
      case Some(m) => Some(m)
      case None => None
  }

  lemma UnsignedRoundTrip(m: nat)
    ensures ParseUnsignedFixed2(UnsignedFixed2(m)) == Some(m)
  {
    ParseUnsignedParts(NatToDecimal(m / 100), DigitChar(m / 10 % 10), DigitChar(m % 10));
    DecimalRoundTrip(m / 100);
    CentsSplit(m);
  }

  /** A numeral with a point three places from its end is read around that point. */
  lemma ParseUnsignedParts(w: string, d1: char, d0: char)
    requires |w| >= 1
    ensures ParseUnsignedFixed2(w + "." + [d1, d0]) == ParseWholeAndCents(w, d1, d0)
  {
    var s := w + "." + [d1, d0];
    assert s[..|s| - 3] == w;
    assert s[|s| - 3] == '.' && s[|s| - 2] == d1 && s[|s| - 1] == d0;
  }

  lemma CentsSplit(m: nat)
    ensures (m / 100) * 100 + (m / 10 % 10) * 10 + m % 10 == m
  {
    assert m == (m / 10) * 10 + m % 10;
    assert m / 10 == (m / 100) * 10 + m / 10 % 10;
  }

  /** Formatting an amount and reading it back gives the amount: `toFixed(2)` loses nothing on whole cents. */
  lemma ToFixed2RoundTrip(cents: int)
    ensures ParseFixed2(ToFixed2(cents)) == Some(cents)
  {
    var u := UnsignedFixed2(Magnitude(cents));
    UnsignedRoundTrip(Magnitude(cents));
    if cents < 0 {
      assert ToFixed2(cents) == "-" + u;
      assert ("-" + u)[1..] == u;
    } else {
      assert ToFixed2(cents) == u;
    }
  }

  /** Different amounts are formatted differently. */
  lemma ToFixed2Injective(a: int, b: int)
    ensures ToFixed2(a) == ToFixed2(b) ==> a == b
  {
    ToFixed2RoundTrip(a);
    ToFixed2RoundTrip(b);
  }
}
