/**
 * Textual encodings used on the wire: decimal rendering of integers and of
 * fixed-point decimals, and comma-joined lists. Each rendering has a parser
 * beside it, and a round-trip lemma ties the two together.
 */
module Text {
  import opened Wrappers

  /** The character for decimal digit `d`. */
  function Digit(d: nat): (c: char)
    requires d < 10
    ensures IsDigit(c) && DigitValue(c) == d
  {
    ('0' as int + d) as char
  }

  predicate IsDigit(c: char) {
    '0' <= c <= '9'
  }

  function DigitValue(c: char): (d: nat)
    requires IsDigit(c)
    ensures d < 10
  {
    c as int - '0' as int
  }

  predicate IsDigits(s: string) {
    forall i :: 0 <= i < |s| ==> IsDigit(s[i])
  }

  /** Decimal rendering of a natural number: digits only, no leading zero. */
  function NatToString(n: nat): (s: string)
    ensures |s| >= 1 && IsDigits(s)
    ensures s[0] == '0' ==> n == 0
    decreases n
  {
    if n < 10 then [Digit(n)] else NatToString(n / 10) + [Digit(n % 10)]
  }

  /** The value of a string of decimal digits (the empty string is 0). */
  function DigitsValue(s: string): nat
    requires IsDigits(s)
  {
    if s == [] then 0 else DigitsValue(s[..|s| - 1]) * 10 + DigitValue(s[|s| - 1])
  }

  lemma {:induction false} NatRoundTrip(n: nat)
    ensures DigitsValue(NatToString(n)) == n
    decreases n
  {
    if n >= 10 {
      var s := NatToString(n / 10);
      assert NatToString(n) == s + [Digit(n % 10)];
      assert (s + [Digit(n % 10)])[..|s|] == s;
      NatRoundTrip(n / 10);
    }
  }

  /** Decimal rendering of an integer, as `Int32.ToString()` with the invariant culture. */
  function IntToString(i: int): (s: string)
  {
    if i < 0 then "-" + NatToString(-i) else NatToString(i)
  }

  /** Parses an optionally signed, non-empty string of decimal digits. */
  function ParseInt(s: string): (r: Option<int>)
    ensures r.Some? ==> |s| >= 1
  {
    if |s| >= 2 && s[0] == '-' && IsDigits(s[1..]) then Some(-(DigitsValue(s[1..]) as int))
    else if |s| >= 1 && IsDigits(s) then Some(DigitsValue(s))
    else None
  }

  lemma IntRoundTrip(i: int)
    ensures ParseInt(IntToString(i)) == Some(i)
  {
    if i < 0 {
      NatRoundTrip(-i);
      NegatedDigitsParse(NatToString(-i));
    } else {
      NatRoundTrip(i);
      DigitsParse(NatToString(i));
    }
  }

  lemma DigitsParse(d: string)
    requires |d| >= 1 && IsDigits(d)
    ensures ParseInt(d) == Some(DigitsValue(d) as int)
  {
  }

  lemma NegatedDigitsParse(d: string)
    requires |d| >= 1 && IsDigits(d)
    ensures ParseInt("-" + d) == Some(-(DigitsValue(d) as int))
  {
    assert ("-" + d)[1..] == d;
  }

  /**
   * Shortest decimal rendering of `h` hundredths, as a double prints under
   * the general format: 412 is "4.12", 410 is "4.1", 400 is "4", -50 is "-0.5".
   */
  function HundredthsToString(h: int): (s: string)
  {
    if h < 0 then "-" + UnsignedHundredthsToString(-h) else UnsignedHundredthsToString(h)
  }

  function UnsignedHundredthsToString(a: nat): (s: string)
    ensures |s| >= 1 && IsDigit(s[0])
  {
    var f := a % 100;
    NatToString(a / 100) + (if f == 0 then "" else "." + FractionDigits(f))
  }

  /** The one or two digits of a non-zero number of hundredths, without a trailing zero. */
  function FractionDigits(f: nat): (d: string)
    requires 0 < f < 100
    ensures 1 <= |d| <= 2 && IsDigits(d) && d[|d| - 1] != '0'
    ensures FractionValue(d) == f
  {
    if f % 10 == 0 then [Digit(f / 10)] else [Digit(f / 10), Digit(f % 10)]
  }

  /** Hundredths denoted by one or two fractional digits. */
  function FractionValue(d: string): nat
    requires 1 <= |d| <= 2 && IsDigits(d)
  {
    DigitValue(d[0]) * 10 + (if |d| == 2 then DigitValue(d[1]) else 0)
  }

  /** Index of the first occurrence of `c` in `s`, if any. */
  function IndexOf(s: string, c: char): (r: Option<nat>)
    ensures r.None? <==> c !in s
    ensures r.Some? ==> r.value < |s| && s[r.value] == c && c !in s[..r.value]
  {
    if s == [] then None
    else if s[0] == c then Some(0)
    else match IndexOf(s[1..], c)
      case None => None
      case Some(k) => assert s[..k + 1] == [s[0]] + s[1..][..k]; Some(k + 1)
  }

  lemma {:induction false} IndexOfAfter(x: string, c: char, rest: string)
    requires c !in x
    ensures IndexOf(x + [c] + rest, c) == Some(|x|)
    decreases |x|
  {
    if x != [] {
      var s := x + [c] + rest;
      assert s[0] == x[0] && s[1..] == x[1..] + [c] + rest;
      IndexOfAfter(x[1..], c, rest);
    }
  }

  /** Parses an optionally signed decimal with at most two fractional digits into hundredths. */
  function ParseDecimal(s: string): (r: Option<int>)
  {
    if |s| >= 1 && s[0] == '-' then
      match ParseUnsignedDecimal(s[1..])
      case Some(v) => if v == 0 then None else Some(-(v as int))
      case None => None
    else ParseUnsignedDecimal(s)
  }

  function ParseUnsignedDecimal(s: string): (r: Option<nat>)
  {
    match IndexOf(s, '.')
    case None => if |s| >= 1 && IsDigits(s) then Some(DigitsValue(s) * 100) else None
    case Some(k) => ParsePointed(s[..k], s[k + 1..])
  }

  /** Hundredths denoted by the digits either side of a decimal point. */
  function ParsePointed(whole: string, frac: string): (r: Option<nat>)
  {
    if |whole| >= 1 && IsDigits(whole) && 1 <= |frac| <= 2 && IsDigits(frac) then
      Some(DigitsValue(whole) * 100 + FractionValue(frac))
    else None
  }

  lemma UnsignedDecimalRoundTrip(a: nat)
    ensures ParseUnsignedDecimal(UnsignedHundredthsToString(a)) == Some(a)
  {
    var q, f := a / 100, a % 100;
    var w := NatToString(q);
    NatRoundTrip(q);
    if f != 0 {
      var d := FractionDigits(f);
      assert UnsignedHundredthsToString(a) == w + ['.'] + d;
      PointedRoundTrip(w, d);
      assert DigitsValue(w) * 100 + FractionValue(d) == a;
    } else {
      assert UnsignedHundredthsToString(a) == w;
      WholeRoundTrip(w);
      assert DigitsValue(w) * 100 == a;
    }
  }

  /** Digits without a point read back as whole hundreds. */
  lemma WholeRoundTrip(w: string)
    requires |w| >= 1 && IsDigits(w)
    ensures ParseUnsignedDecimal(w) == Some(DigitsValue(w) * 100)
  {
    NoPointInDigits(w);
  }

  /** Whole digits, a point and one or two fractional digits read back as hundredths. */
  lemma PointedRoundTrip(w: string, d: string)
    requires |w| >= 1 && IsDigits(w) && 1 <= |d| <= 2 && IsDigits(d)
    ensures ParseUnsignedDecimal(w + ['.'] + d) == Some(DigitsValue(w) * 100 + FractionValue(d))
  {
    PointedValue(w, d);
    NoPointInDigits(w);
    PointedParse(w, d);
  }

  lemma PointedValue(w: string, d: string)
    requires |w| >= 1 && IsDigits(w) && 1 <= |d| <= 2 && IsDigits(d)
    ensures ParsePointed(w, d) == Some(DigitsValue(w) * 100 + FractionValue(d))
  {
  }

  /** The first point splits a decimal into its whole and fractional digits. */
  lemma PointedParse(w: string, d: string)
    requires '.' !in w
    ensures ParseUnsignedDecimal(w + ['.'] + d) == ParsePointed(w, d)
  {
    var s := w + ['.'] + d;
    IndexOfAfter(w, '.', d);
    assert s[..|w|] == w && s[|w| + 1..] == d;
  }

  lemma NoPointInDigits(w: string)
    requires IsDigits(w)
    ensures '.' !in w
  {
    assert forall i | 0 <= i < |w| :: w[i] != '.';
  }

  lemma DecimalRoundTrip(h: int)
    ensures ParseDecimal(HundredthsToString(h)) == Some(h)
  {
    if h < 0 {
      var u := UnsignedHundredthsToString(-h);
      assert HundredthsToString(h) == "-" + u;
      UnsignedDecimalRoundTrip(-h);
      NegatedParse(u, -h);
    } else {
      var u := UnsignedHundredthsToString(h);
      assert HundredthsToString(h) == u;
      UnsignedDecimalRoundTrip(h);
      UnsignedParse(u, h);
    }
  }

  lemma NegatedParse(u: string, v: nat)
    requires ParseUnsignedDecimal(u) == Some(v) && v != 0
    ensures ParseDecimal("-" + u) == Some(-(v as int))
  {
    assert ("-" + u)[1..] == u;
  }

  lemma UnsignedParse(u: string, v: nat)
    requires |u| >= 1 && IsDigit(u[0]) && ParseUnsignedDecimal(u) == Some(v)
    ensures ParseDecimal(u) == Some(v)
  {
  }

  /** `xs` joined with `sep` between consecutive elements, as `String.Join`. */
  function Join(sep: char, xs: seq<string>): (s: string)
    decreases |xs|
  {
    if |xs| == 0 then ""
    else if |xs| == 1 then xs[0]
    else xs[0] + [sep] + Join(sep, xs[1..])
  }

  /** `s` cut at every occurrence of `sep`; always at least one piece. */
  function Split(sep: char, s: string): (r: seq<string>)
    ensures |r| >= 1
    decreases |s|
  {
    match IndexOf(s, sep)
    case None => [s]
    case Some(k) => [s[..k]] + Split(sep, s[k + 1..])
  }

  /** True when no element of `xs` contains `sep`. */
  predicate FreeOf(sep: char, xs: seq<string>) {
    forall i :: 0 <= i < |xs| ==> sep !in xs[i]
  }

  lemma {:induction false} SplitJoin(sep: char, xs: seq<string>)
    requires |xs| >= 1 && FreeOf(sep, xs)
    ensures Split(sep, Join(sep, xs)) == xs
    decreases |xs|
  {
    if |xs| == 1 {
      SplitFree(sep, xs[0]);
    } else {
      var x, tail := xs[0], xs[1..];
      var rest := Join(sep, tail);
      assert Join(sep, xs) == x + [sep] + rest;
      SplitStep(sep, x, rest);
      assert FreeOf(sep, tail) by {
        forall i | 0 <= i < |tail| ensures sep !in tail[i] {
          assert tail[i] == xs[i + 1];
        }
      }
      SplitJoin(sep, tail);
      assert xs == [x] + tail;
    }
  }

  /** A string without the separator is a single piece. */
  lemma SplitFree(sep: char, s: string)
    requires sep !in s
    ensures Split(sep, s) == [s]
  {
  }

  /** The first separator ends the first piece. */
  lemma SplitStep(sep: char, x: string, rest: string)
    requires sep !in x
    ensures Split(sep, x + [sep] + rest) == [x] + Split(sep, rest)
  {
    var s := x + [sep] + rest;
    IndexOfAfter(x, sep, rest);
    assert s[..|x|] == x && s[|x| + 1..] == rest;
  }
}
