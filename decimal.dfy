/** Decimal rendering of integers, as Java's "%d" conversion writes them, with a
    parser that reads the rendering back. */
module Decimal {
  import opened Wrappers

  predicate IsDigit(c: char) {
    '0' <= c <= '9'
  }

  predicate AllDigits(s: string) {
    forall i :: 0 <= i < |s| ==> IsDigit(s[i])
  }

  function DigitChar(d: nat): (c: char)
    requires d < 10
    ensures IsDigit(c)
  {
    ('0' as int + d) as char
  }

  function DigitValue(c: char): (d: nat)
    requires IsDigit(c)
    ensures d < 10
  {
    c as int - '0' as int
  }

  /** The digits of n, most significant first, with no leading zero. */
  function NatDigits(n: nat): (s: string)
    ensures |s| > 0 && AllDigits(s)
    ensures s[0] == '0' ==> n == 0
    decreases n
  {
    if n < 10 then [DigitChar(n)] else NatDigits(n / 10) + [DigitChar(n % 10)]
  }

  /** "%d": an optional minus sign followed by the digits of the magnitude. */
  function FormatInt(n: int): (s: string)
    ensures |s| > 0
    ensures s[0] == '-' <==> n < 0
    ensures AllDigits(if n < 0 then s[1..] else s)
  {
    if n < 0 then "-" + NatDigits(-n) else NatDigits(n)
  }

  /** The value of a string of digits. */
  function ParseNat(s: string): nat
    requires AllDigits(s)
  {
    if s == [] then 0 else 10 * ParseNat(s[..|s| - 1]) + DigitValue(s[|s| - 1])
  }

  /** Reads back an optional minus sign followed by at least one digit. */
  function ParseInt(s: string): Option<int> {
    if |s| > 1 && s[0] == '-' && AllDigits(s[1..]) then Some(0 - ParseNat(s[1..]) as int)
    else if |s| > 0 && AllDigits(s) then Some(ParseNat(s))
    else None
  }

  lemma {:induction false} NatDigitsRoundTrip(n: nat)
    ensures ParseNat(NatDigits(n)) == n
    decreases n
  {
    if n >= 10 {
      var s := NatDigits(n);
      assert s[..|s| - 1] == NatDigits(n / 10);
      NatDigitsRoundTrip(n / 10);
    }
  }

  /** Reading back the decimal rendering of any integer gives that integer. */
  lemma FormatIntRoundTrip(n: int)
    ensures ParseInt(FormatInt(n)) == Some(n)
  {
    if n < 0 {
      NatDigitsRoundTrip(-n);
      assert FormatInt(n)[1..] == NatDigits(-n);
    } else {
      NatDigitsRoundTrip(n);
    }
  }

  /** Distinct integers have distinct renderings. */
  lemma FormatIntInjective(m: int, n: int)
    requires FormatInt(m) == FormatInt(n)
    ensures m == n
  {
    FormatIntRoundTrip(m);
    FormatIntRoundTrip(n);
  }

  /** The character before a number in a text: neither a digit nor a minus sign. */
  predicate EndsInSeparator(p: string) {
    |p| > 0 && !IsDigit(p[|p| - 1]) && p[|p| - 1] != '-'
  }

  /** The length of the run of digits at the end of x. */
  function TrailingDigits(x: string): nat {
    if |x| > 0 && IsDigit(x[|x| - 1]) then 1 + TrailingDigits(x[..|x| - 1]) else 0
  }

  /** Digits written after a non-digit are exactly the trailing run. */
  lemma {:induction false} TrailingDigitsAfter(p: string, d: string)
    requires AllDigits(d)
    requires |p| > 0 && !IsDigit(p[|p| - 1])
    ensures TrailingDigits(p + d) == |d|
    decreases |d|
  {
    var x := p + d;
    if d == [] {
      assert x == p;
    } else {
      assert x[..|x| - 1] == p + d[..|d| - 1];
      TrailingDigitsAfter(p, d[..|d| - 1]);
    }
  }

  /** A run of digits after a non-digit splits off one way only. */
  lemma SplitDigits(p1: string, d1: string, p2: string, d2: string)
    requires AllDigits(d1) && AllDigits(d2)
    requires |p1| > 0 && !IsDigit(p1[|p1| - 1])
    requires |p2| > 0 && !IsDigit(p2[|p2| - 1])
    requires p1 + d1 == p2 + d2
    ensures p1 == p2 && d1 == d2
  {
    var x := p1 + d1;
    TrailingDigitsAfter(p1, d1);
    TrailingDigitsAfter(p2, d2);
    assert p1 == x[..|p1|] == p2;
    assert d1 == x[|p1|..] == d2;
  }

  /** A rendered integer after a separator splits off one way only, and determines
      the integer. */
  lemma SplitInt(p1: string, n1: int, p2: string, n2: int)
    requires EndsInSeparator(p1) && EndsInSeparator(p2)
    requires p1 + FormatInt(n1) == p2 + FormatInt(n2)
    ensures p1 == p2 && n1 == n2
  {
    var q1 := if n1 < 0 then p1 + "-" else p1;
    var q2 := if n2 < 0 then p2 + "-" else p2;
    var d1 := NatDigits(if n1 < 0 then -n1 else n1);
    var d2 := NatDigits(if n2 < 0 then -n2 else n2);
    SignAndDigits(p1, n1);
    SignAndDigits(p2, n2);
    SplitDigits(q1, d1, q2, d2);
    if n1 < 0 {
      SplitSuffix(p1, p2, "-");
    }
    FormatIntInjective(n1, n2);
  }

  /** A rendered integer after a separator: the separator, the sign if any, the digits. */
  lemma SignAndDigits(p: string, n: int)
    requires EndsInSeparator(p)
    ensures var q := if n < 0 then p + "-" else p;
            p + FormatInt(n) == q + NatDigits(if n < 0 then -n else n)
            && |q| > 0 && !IsDigit(q[|q| - 1]) && (q[|q| - 1] == '-' <==> n < 0)
  {
    if n < 0 {
      assert p + FormatInt(n) == (p + "-") + NatDigits(-n);
    }
  }

  lemma SplitSuffix(a: string, b: string, c: string)
    requires a + c == b + c
    ensures a == b
  {
    assert a == (a + c)[..|a|];
    assert b == (b + c)[..|b|];
  }
}
