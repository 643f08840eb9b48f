/**
 * Character and string helpers that the schedule engine relies on: decimal
 * digits, two-digit zero padding (`padStart(2, '0')`), the decimal rendering
 * of numbers inside template strings, and the JavaScript `trim` that decides
 * whether a to-do's text is empty.
 */
module Strings {

  predicate IsDigit(c: char) {
    '0' <= c <= '9'
  }

  function DigitValue(c: char): (d: nat)
    requires IsDigit(c)
    ensures d < 10
  {
    (c as int) - ('0' as int)
  }

  function DigitChar(d: nat): (c: char)
    requires d < 10
    ensures IsDigit(c) && DigitValue(c) == d
  {
    (('0' as int) + d) as char
  }

  lemma DigitCharOfValue(c: char)
    requires IsDigit(c)
    ensures DigitChar(DigitValue(c)) == c
  {
  }

  /** `n.toString().padStart(2, '0')` for a number below 100. */
  function Pad2(n: nat): (r: string)
    requires n < 100
    ensures |r| == 2 && IsDigit(r[0]) && IsDigit(r[1])
    ensures DigitValue(r[0]) * 10 + DigitValue(r[1]) == n
  {
    [DigitChar(n / 10), DigitChar(n % 10)]
  }

  /** Two digits read back as a number: the inverse of Pad2. */
  function TwoDigits(c0: char, c1: char): (n: nat)
    requires IsDigit(c0) && IsDigit(c1)
    ensures n < 100
  {
    DigitValue(c0) * 10 + DigitValue(c1)
  }

  lemma {:induction false} Pad2OfTwoDigits(c0: char, c1: char)
    requires IsDigit(c0) && IsDigit(c1)
    ensures Pad2(TwoDigits(c0, c1)) == [c0, c1]
  {
    var n := TwoDigits(c0, c1);
    assert n / 10 == DigitValue(c0) && n % 10 == DigitValue(c1);
    DigitCharOfValue(c0);
    DigitCharOfValue(c1);
  }

  predicate AllDigits(s: string) {
    forall i :: 0 <= i < |s| ==> IsDigit(s[i])
  }

  /** Two digits read as a decimal string have the value TwoDigits gives them. */
  lemma ParseNatTwoDigits(c0: char, c1: char)
    requires IsDigit(c0) && IsDigit(c1)
    ensures AllDigits([c0, c1]) && ParseNat([c0, c1]) == TwoDigits(c0, c1)
  {
    var s := [c0, c1];
    assert s[..1] == [c0] && [c0][..0] == [];
    assert ParseNat([c0]) == DigitValue(c0);
    assert ParseNat(s) == ParseNat(s[..1]) * 10 + DigitValue(c1);
  }

  /** The decimal rendering of a non-negative integer, as `${n}` produces it. */
  function NatToString(n: nat): (r: string)
    ensures |r| >= 1 && AllDigits(r)
    ensures r[0] == '0' ==> n == 0
  {
    if n < 10 then [DigitChar(n)] else NatToString(n / 10) + [DigitChar(n % 10)]
  }

  /** Reads a string of decimal digits back as a number. */
  function ParseNat(s: string): nat
    requires AllDigits(s)
  {
    if s == [] then 0 else ParseNat(s[..|s| - 1]) * 10 + DigitValue(s[|s| - 1])
  }

  lemma {:induction false} ParseNatToString(n: nat)
    ensures ParseNat(NatToString(n)) == n
  {
    var s := NatToString(n);
    if n >= 10 {
      assert s[..|s| - 1] == NatToString(n / 10);
      ParseNatToString(n / 10);
    } else {
      assert s[..|s| - 1] == [];
    }
  }

  /** Distinct numbers have distinct decimal renderings. */
  lemma NatToStringInjective(m: nat, n: nat)
    requires NatToString(m) == NatToString(n)
    ensures m == n
  {
    ParseNatToString(m);
    ParseNatToString(n);
  }

  /** The rendering of an integer, with a leading minus sign when negative. */
  function IntToString(i: int): (r: string)
    ensures r != [] && (r[0] == '-' <==> i < 0)
  {
    if i < 0 then "-" + NatToString(-i) else NatToString(i)
  }

  /**
   * The characters that `String.prototype.trim` removes: the ECMAScript
   * WhiteSpace and LineTerminator code points.
   */
  predicate IsWhitespace(c: char) {
    c == '\t' || c == '\n' || c == '\U{000B}' || c == '\U{000C}' || c == '\r' ||
    c == ' ' || c == '\U{00A0}' || c == '\U{1680}' || ('\U{2000}' <= c <= '\U{200A}') ||
    c == '\U{2028}' || c == '\U{2029}' || c == '\U{202F}' || c == '\U{205F}' ||
    c == '\U{3000}' || c == '\U{FEFF}'
  }

  predicate AllWhitespace(s: string) {
    forall i :: 0 <= i < |s| ==> IsWhitespace(s[i])
  }

  function TrimStart(s: string): (r: string)
    ensures |r| <= |s| && r == s[|s| - |r|..]
    ensures AllWhitespace(s[..|s| - |r|])
    ensures r != [] ==> !IsWhitespace(r[0])
  {
    if s == [] then []
    else if IsWhitespace(s[0]) then
      var r := TrimStart(s[1..]);
      assert s[..|s| - |r|] == [s[0]] + s[1..][..|s[1..]| - |r|];
      r
    else s
  }

  function TrimEnd(s: string): (r: string)
    ensures |r| <= |s| && r == s[..|r|]
    ensures AllWhitespace(s[|r|..])
    ensures r != [] ==> !IsWhitespace(r[|r| - 1])
  {
    if s == [] then []
    else if IsWhitespace(s[|s| - 1]) then
      var r := TrimEnd(s[..|s| - 1]);
      assert s[|r|..] == s[..|s| - 1][|r|..] + [s[|s| - 1]];
      r
    else s
  }

  /**
   * `s.trim()`: what is left once leading and trailing whitespace are
   * removed; it is empty exactly when `s` is all whitespace.
   */
  function Trim(s: string): (r: string)
    ensures |r| <= |s|
    ensures r != [] ==> !IsWhitespace(r[0]) && !IsWhitespace(r[|r| - 1])
    ensures r == [] <==> AllWhitespace(s)
  {
    TrimEmptyIffBlank(s);
    TrimEnd(TrimStart(s))
  }

  lemma TrimEmptyIffBlank(s: string)
    ensures TrimEnd(TrimStart(s)) == [] <==> AllWhitespace(s)
  {
    var a := TrimStart(s);
    var i := |s| - |a|;
    if TrimEnd(a) == [] {
      forall k | 0 <= k < |s| ensures IsWhitespace(s[k]) {
        assert s[k] == s[..i][k];
      }
    }
  }

  /** The longest prefix of `s` made of characters satisfying `p`. */
  function Prefix(s: string, p: char -> bool): (r: string)
    ensures |r| <= |s| && r == s[..|r|]
    ensures forall i :: 0 <= i < |r| ==> p(r[i])
    ensures |r| < |s| ==> !p(s[|r|])
  {
    if s == [] || !p(s[0]) then [] else [s[0]] + Prefix(s[1..], p)
  }

  lemma {:induction false} PrefixAll(s: string, p: char -> bool)
    requires forall i :: 0 <= i < |s| ==> p(s[i])
    ensures Prefix(s, p) == s
  {
    if s != [] {
      PrefixAll(s[1..], p);
    }
  }


  /** A prefix of `a`, all of whose characters satisfy `p`, followed by one that does not, is the whole run. */
  lemma {:induction false} PrefixAppend(a: string, b: string, p: char -> bool)
    requires forall i :: 0 <= i < |a| ==> p(a[i])
    requires b != [] && !p(b[0])
    ensures Prefix(a + b, p) == a
  {
    if a != [] {
      assert (a + b)[1..] == a[1..] + b;
      PrefixAppend(a[1..], b, p);
    }
  }

  /** JavaScript truthiness of a string: non-empty. */
  predicate Truthy(s: string) {
    s != ""
  }
}
