/**
 * The two library string operations the matchers rely on: `strings.Contains`
 * and the decimal rendering `fmt.Sprintf("%d", n)`, with a parser that inverts it.
 */
module Text {

  predicate IsPrefix(p: string, s: string)
  {
    |p| <= |s| && s[..|p|] == p
  }

  /** strings.Contains(s, sub): `sub` occurs as a contiguous run of `s`. */
  predicate Contains(s: string, sub: string)
    decreases |s|
  {
    IsPrefix(sub, s) || (|s| > 0 && Contains(s[1..], sub))
  }

  /** Every string contains itself, so a criterion equal to the whole value matches. */
  lemma ContainsSelf(s: string)
    ensures Contains(s, s)
  {
    assert s[..|s|] == s;
  }

  /** A string never contains one longer than itself. */
  lemma {:induction false} ContainsNoLonger(s: string, sub: string)
    requires Contains(s, sub)
    ensures |sub| <= |s|
    decreases |s|
  {
    if !IsPrefix(sub, s) {
      ContainsNoLonger(s[1..], sub);
    }
  }

  /** An occurrence of `sub` at position `i` of `s` witnesses Contains(s, sub). */
  lemma {:induction false} ContainsAt(s: string, sub: string, i: nat)
    requires i + |sub| <= |s| && s[i..i + |sub|] == sub
    ensures Contains(s, sub)
    decreases i
  {
    if i > 0 {
      assert s[1..][i - 1..i - 1 + |sub|] == s[i..i + |sub|];
      ContainsAt(s[1..], sub, i - 1);
    }
  }

  predicate IsDigit(c: char)
  {
    '0' <= c <= '9'
  }

  function DigitChar(d: nat): (c: char)
    requires d < 10
    ensures IsDigit(c)
  {
    ('0' as int + d) as char
  }

  function DigitValue(c: char): nat
    requires IsDigit(c)
  {
    (c as int) - ('0' as int)
  }

  predicate AllDigits(s: string)
  {
    forall i :: 0 <= i < |s| ==> IsDigit(s[i])
  }

  /**
   * The decimal numerals `%d` can print for a value that is not negative:
   * "0", or a run of digits without a leading zero.
   */
  predicate CanonicalNatural(s: string)
  {
    |s| >= 1 && AllDigits(s) && (s[0] == '0' ==> s == "0")
  }

  /** The numerals `%d` can print for any integer: a canonical natural, possibly after '-'. */
  predicate CanonicalDecimal(s: string)
  {
    CanonicalNatural(s) || (|s| >= 2 && s[0] == '-' && CanonicalNatural(s[1..]) && s[1..] != "0")
  }

  /** Decimal digits of `n`, most significant first. */
  function NaturalString(n: nat): (s: string)
    ensures CanonicalNatural(s)
    ensures s == "0" <==> n == 0
    decreases n
  {
    if n < 10 then [DigitChar(n)] else NaturalString(n / 10) + [DigitChar(n % 10)]
  }

  /** fmt.Sprintf("%d", i). */
  function FormatInt(i: int): (s: string)
    ensures CanonicalDecimal(s)
  {
    if i < 0 then "-" + NaturalString(-i) else NaturalString(i)
  }

  function ParseNatural(s: string): nat
    requires AllDigits(s)
    decreases |s|
  {
    if s == [] then 0 else ParseNatural(s[..|s| - 1]) * 10 + DigitValue(s[|s| - 1])
  }

  function ParseInt(s: string): int
    requires CanonicalDecimal(s)
  {
    if s[0] == '-' then 0 - ParseNatural(s[1..]) as int else ParseNatural(s) as int
  }

  lemma {:induction false} NaturalRoundTrip(n: nat)
    ensures ParseNatural(NaturalString(n)) == n
    decreases n
  {
    var s := NaturalString(n);
    if n >= 10 {
      assert s[..|s| - 1] == NaturalString(n / 10);
      NaturalRoundTrip(n / 10);
    }
  }

  /** Printing an integer and reading it back gives the integer. */
  lemma FormatRoundTrip(i: int)
    ensures ParseInt(FormatInt(i)) == i
  {
    if i < 0 {
      assert FormatInt(i)[1..] == NaturalString(-i);
      NaturalRoundTrip(-i);
    } else {
      NaturalRoundTrip(i);
    }
  }

  /** Distinct integers print differently, so equality of renderings is equality of values. */
  lemma FormatInjective(i: int, j: int)
    ensures FormatInt(i) == FormatInt(j) <==> i == j
  {
    if FormatInt(i) == FormatInt(j) {
      FormatRoundTrip(i);
      FormatRoundTrip(j);
    }
  }

  /** A canonical natural numeral is the rendering of its own value. */
  lemma {:induction false} NaturalParseRoundTrip(s: string)
    requires CanonicalNatural(s)
    ensures NaturalString(ParseNatural(s)) == s
    decreases |s|
  {
    if |s| >= 2 {
      var p := s[..|s| - 1];
      assert p[0] == s[0];
      assert CanonicalNatural(p);
      NaturalParseRoundTrip(p);
      var n := ParseNatural(s);
      assert n / 10 == ParseNatural(p) && n % 10 == DigitValue(s[|s| - 1]);
      assert s == p + [s[|s| - 1]];
    }
  }

  /** Every numeral `%d` can print is the rendering of the value it denotes. */
  lemma ParseRoundTrip(s: string)
    requires CanonicalDecimal(s)
    ensures FormatInt(ParseInt(s)) == s
  {
    if s[0] == '-' {
      NaturalParseRoundTrip(s[1..]);
      assert s == "-" + s[1..];
    } else {
      NaturalParseRoundTrip(s);
    }
  }
}
