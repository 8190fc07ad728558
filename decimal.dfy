/**
 * Decimal text of numbers, as JavaScript's template literals render them.
 * The UTC offset sent to the controller is `utcOffset() / 60`, a number of
 * HOURS that may carry a fraction (India: 5.5, Nepal: 5.75).
 */
module Decimal {
  import opened Wrappers

  predicate IsDigit(c: char) { '0' <= c <= '9' }

  predicate AllDigits(s: string) { forall i :: 0 <= i < |s| ==> IsDigit(s[i]) }

  function DigitChar(d: nat): (c: char)
    requires d < 10
    ensures IsDigit(c) && c as int - '0' as int == d
  {
    ('0' as int + d) as char
  }

  /** Decimal text of a natural number, without leading zeros. */
  function NatText(n: nat): (s: string)
    ensures |s| >= 1 && AllDigits(s)
    ensures s[0] == '0' ==> n == 0
    decreases n
  {
    if n < 10 then [DigitChar(n)] else NatText(n / 10) + [DigitChar(n % 10)]
  }

  /** Value of a string of digits. */
  function ParseNat(s: string): nat
    requires AllDigits(s)
  {
    if s == [] then 0
    else 10 * ParseNat(s[..|s| - 1]) + (s[|s| - 1] as int - '0' as int)
  }

  lemma {:induction false} ParseNatText(n: nat)
    ensures ParseNat(NatText(n)) == n
    decreases n
  {
    if n >= 10 {
      var s := NatText(n);
      assert s[..|s| - 1] == NatText(n / 10);
      ParseNatText(n / 10);
    }
  }

  /** Length of the longest prefix of `s` made of digits. */
  function DigitPrefix(s: string): (k: nat)
    ensures k <= |s| && AllDigits(s[..k])
    ensures k < |s| ==> !IsDigit(s[k])
  {
    if s == [] || !IsDigit(s[0]) then 0
    else
      var k := 1 + DigitPrefix(s[1..]);
      assert s[..k] == [s[0]] + s[1..][..k - 1];
      k
  }

  lemma {:induction false} DigitPrefixOf(d: string, rest: string)
    requires AllDigits(d)
    requires rest == [] || !IsDigit(rest[0])
    ensures DigitPrefix(d + rest) == |d|
  {
    if d != [] {
      assert (d + rest)[1..] == d[1..] + rest;
      DigitPrefixOf(d[1..], rest);
    }
  }

  /** Text of the fraction of an hour left by `m` minutes, m a multiple of 15 below 60. */
  function QuarterText(m: nat): string
  {
    if m == 15 then ".25" else if m == 30 then ".5" else if m == 45 then ".75" else ""
  }

  /**
   * `minutes / 60` as JavaScript renders it: sign, whole hours, and the
   * fraction .25, .5 or .75. Time-zone offsets are whole quarter hours.
   */
  function HoursText(minutes: int): (s: string)
    requires minutes % 15 == 0
    ensures |s| >= 1 && (s[0] == '-' <==> minutes < 0)
  {
    var a := if minutes < 0 then -minutes else minutes;
    (if minutes < 0 then "-" else "") + NatText(a / 60) + QuarterText(a % 60)
  }

  /** Reads back the minutes from the text of a non-negative number of hours. */
  function ParseUnsignedHours(s: string): Option<nat>
  {
    var k := DigitPrefix(s);
    if k == 0 then None
    else
      var whole := 60 * ParseNat(s[..k]);
      var frac := s[k..];
      if frac == "" then Some(whole)
      else if frac == ".25" then Some(whole + 15)
      else if frac == ".5" then Some(whole + 30)
      else if frac == ".75" then Some(whole + 45)
      else None
  }

  /** Reads back the minutes from the text of a signed number of hours. */
  function ParseHours(s: string): Option<int>
  {
    if |s| > 0 && s[0] == '-' then
      match ParseUnsignedHours(s[1..])
      case Some(m) => if m == 0 then None else Some(-(m as int))
      case None => None
    else
      match ParseUnsignedHours(s)
      case Some(m) => Some(m as int)
      case None => None
  }

  /** Reading back whole hours `q` followed by the text of `r` leftover minutes. */
  lemma UnsignedOf(q: nat, r: nat)
    requires r == 0 || r == 15 || r == 30 || r == 45
    ensures ParseUnsignedHours(NatText(q) + QuarterText(r)) == Some(60 * q + r)
  {
    var d, f := NatText(q), QuarterText(r);
    DigitPrefixOf(d, f);
    assert (d + f)[..|d|] == d;
    assert (d + f)[|d|..] == f;
    ParseNatText(q);
  }

  lemma QuarterRemainder(a: nat)
    requires a % 15 == 0
    ensures a % 60 == 0 || a % 60 == 15 || a % 60 == 30 || a % 60 == 45
    ensures a == 60 * (a / 60) + a % 60
  {
  }

  lemma UnsignedRoundTrip(a: nat)
    requires a % 15 == 0
    ensures ParseUnsignedHours(NatText(a / 60) + QuarterText(a % 60)) == Some(a)
  {
    QuarterRemainder(a);
    UnsignedOf(a / 60, a % 60);
  }

  lemma ParseNegativeHours(u: string, a: nat)
    requires a > 0 && ParseUnsignedHours(u) == Some(a)
    ensures ParseHours("-" + u) == Some(-(a as int))
  {
    assert ("-" + u)[0] == '-' && ("-" + u)[1..] == u;
  }

  lemma ParseNonNegativeHours(u: string, a: nat)
    requires |u| > 0 && IsDigit(u[0]) && ParseUnsignedHours(u) == Some(a)
    ensures ParseHours(u) == Some(a)
  {
  }

  lemma NegatedQuarter(m: int)
    requires m % 15 == 0
    ensures (-m) % 15 == 0
  {
    var k := m / 15;
    assert m == 15 * k;
    assert -m == 15 * (-k);
  }

  lemma NegativeHoursRoundTrip(minutes: int)
    requires minutes < 0 && minutes % 15 == 0
    ensures ParseHours(HoursText(minutes)) == Some(minutes)
  {
    var a: nat := -minutes;
    NegatedQuarter(minutes);
    var u := NatText(a / 60) + QuarterText(a % 60);
    UnsignedRoundTrip(a);
    assert HoursText(minutes) == "-" + u;
    ParseNegativeHours(u, a);
  }

  lemma NonNegativeHoursRoundTrip(minutes: nat)
    requires minutes % 15 == 0
    ensures ParseHours(HoursText(minutes)) == Some(minutes as int)
  {
    var d := NatText(minutes / 60);
    var u := d + QuarterText(minutes % 60);
    UnsignedRoundTrip(minutes);
    assert HoursText(minutes) == u && u[0] == d[0];
    ParseNonNegativeHours(u, minutes);
  }

  /** The offset text names the hours exactly: reading it back gives the minutes. */
  lemma HoursRoundTrip(minutes: int)
    requires minutes % 15 == 0
    ensures ParseHours(HoursText(minutes)) == Some(minutes)
  {
    if minutes < 0 {
      NegativeHoursRoundTrip(minutes);
    } else {
      NonNegativeHoursRoundTrip(minutes);
    }
  }

  /** A whole number of hours is rendered as that number: -300 minutes gives "-5". */
  lemma WholeHoursText(hours: int)
    ensures HoursText(60 * hours) == (if hours < 0 then "-" else "") + NatText(if hours < 0 then -hours else hours)
  {
  }
}
