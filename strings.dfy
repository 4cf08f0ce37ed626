/**
 * The string operations of the JavaScript library that the components rely on:
 * `String.prototype.trim`, `Number.prototype.toString` for non-negative integers,
 * and `String.prototype.padStart`.
 */
module Strings {

  /** The characters `trim` strips: a fixed set of space and line-terminator characters. */
  const Whitespace: string := " \t\n\r\U{000B}\U{000C}\U{00A0}\U{2028}\U{2029}\U{FEFF}"

  predicate IsWhitespace(c: char) {
    c in Whitespace
  }

  /** Every character of `s` is whitespace (the empty string included). */
  predicate Blank(s: string) {
    forall i :: 0 <= i < |s| ==> IsWhitespace(s[i])
  }

  /** Neither end of `s` is whitespace. */
  predicate IsTrimmed(s: string) {
    s == [] || (!IsWhitespace(s[0]) && !IsWhitespace(s[|s| - 1]))
  }

  /** The characters of `s` at positions `lo` up to (not including) `hi` are all whitespace. */
  predicate BlankBetween(s: string, lo: nat, hi: nat)
    requires lo <= hi <= |s|
  {
    forall i :: lo <= i < hi ==> IsWhitespace(s[i])
  }

  /** Drops the whitespace at the front of `s`: what is left is a suffix of `s`. */
  function TrimStart(s: string): (r: string)
    ensures |r| <= |s| && r == s[|s| - |r|..]
    ensures BlankBetween(s, 0, |s| - |r|)
    ensures r == [] || !IsWhitespace(r[0])
  {
    if s != [] && IsWhitespace(s[0]) then
      TrimStart(s[1..])
    else
      s
  }

  /** Drops the whitespace at the back of `s`: what is left is a prefix of `s`. */
  function TrimEnd(s: string): (r: string)
    ensures |r| <= |s| && r == s[..|r|]
    ensures BlankBetween(s, |r|, |s|)
    ensures r == [] || !IsWhitespace(r[|r| - 1])
  {
    if s != [] && IsWhitespace(s[|s| - 1]) then
      TrimEnd(s[..|s| - 1])
    else
      s
  }

  /**
   * `s.trim()`: the text left once the whitespace at both ends is gone. It has
   * no whitespace at either end, and it is empty exactly when `s` is blank.
   */
  function Trim(s: string): (r: string)
    ensures IsTrimmed(r)
    ensures r == [] <==> Blank(s)
  {
    var t := TrimStart(s);
    var r := TrimEnd(t);
    TrimInfix(s, t, r);
    r
  }

  /** What the two passes of Trim leave: the infix of `s` between its blank ends. */
  lemma TrimInfix(s: string, t: string, r: string)
    requires |t| <= |s| && t == s[|s| - |t|..] && BlankBetween(s, 0, |s| - |t|)
    requires t == [] || !IsWhitespace(t[0])
    requires |r| <= |t| && r == t[..|r|] && BlankBetween(t, |r|, |t|)
    requires r == [] || !IsWhitespace(r[|r| - 1])
    ensures IsTrimmed(r)
    ensures r == [] <==> Blank(s)
  {
  }

  /** Surrounding whitespace never shows through the first character that is not whitespace. */
  lemma {:induction false} TrimStartPastBlank(a: string, u: string)
    requires Blank(a)
    requires u == [] || !IsWhitespace(u[0])
    ensures TrimStart(a + u) == u
  {
    if a == [] {
      assert a + u == u;
    } else {
      assert (a + u)[1..] == a[1..] + u;
      TrimStartPastBlank(a[1..], u);
    }
  }

  lemma {:induction false} TrimEndPastBlank(u: string, b: string)
    requires Blank(b)
    requires u == [] || !IsWhitespace(u[|u| - 1])
    ensures TrimEnd(u + b) == u
  {
    if b == [] {
      assert u + b == u;
    } else {
      assert (u + b)[..|u + b| - 1] == u + b[..|b| - 1];
      TrimEndPastBlank(u, b[..|b| - 1]);
    }
  }

  /**
   * Trim is determined by its meaning: whatever blank text surrounds a trimmed
   * string, trimming gives back exactly that string.
   */
  lemma TrimSurrounded(a: string, t: string, b: string)
    requires Blank(a) && Blank(b) && IsTrimmed(t)
    ensures Trim(a + t + b) == t
  {
    if t == [] {
      assert Blank(a + t + b);
    } else {
      assert a + t + b == a + (t + b);
      TrimStartPastBlank(a, t + b);
      TrimEndPastBlank(t, b);
    }
  }

  /** Trimming twice is trimming once. */
  lemma TrimIdempotent(s: string)
    ensures Trim(Trim(s)) == Trim(s)
  {
    var t := Trim(s);
    assert [] + t + [] == t;
    TrimSurrounded([], t, []);
  }

  /** The decimal digit characters. */
  predicate IsDigit(c: char) {
    '0' <= c <= '9'
  }

  function DigitChar(d: nat): (c: char)
    requires d < 10
    ensures IsDigit(c) && c as int - '0' as int == d
  {
    ('0' as int + d) as char
  }

  /** The number a string of decimal digits denotes (most significant digit first). */
  function DecimalValue(s: string): int {
    if s == [] then 0 else 10 * DecimalValue(s[..|s| - 1]) + (s[|s| - 1] as int - '0' as int)
  }

  /** `n.toString()` for a non-negative integer: its decimal digits, with no leading zero. */
  function ToDecimal(n: nat): (r: string)
    ensures |r| >= 1 && forall i :: 0 <= i < |r| ==> IsDigit(r[i])
    ensures DecimalValue(r) == n
    ensures |r| > 1 ==> r[0] != '0'
    ensures |r| == 1 <==> n < 10
  {
    if n < 10 then
      [DigitChar(n)]
    else
      var r := ToDecimal(n / 10) + [DigitChar(n % 10)];
      assert r[..|r| - 1] == ToDecimal(n / 10);
      r
  }

  /** `s.padStart(width, fill)` for a one-character `fill`. */
  function PadStart(s: string, width: nat, fill: char): (r: string)
    ensures |r| == if |s| >= width then |s| else width
    ensures r[|r| - |s|..] == s
    ensures forall i :: 0 <= i < |r| - |s| ==> r[i] == fill
  {
    if |s| >= width then s else seq(width - |s|, _ => fill) + s
  }

  /**
   * `n.toString().padStart(2, '0')` for `n` below 100: two digits that read back
   * as `n`, the first of them '0' exactly when `n` is below ten.
   */
  function Pad2(n: nat): (r: string)
    requires n < 100
    ensures |r| == 2 && IsDigit(r[0]) && IsDigit(r[1])
    ensures DecimalValue(r) == n
    ensures r[0] == '0' <==> n < 10
  {
    var r := [DigitChar(n / 10), DigitChar(n % 10)];
    assert r[..1] == [DigitChar(n / 10)] && r[..1][..0] == [];
    assert DecimalValue(r[..1]) == n / 10;
    r
  }

  /** Pad2 is the decimal numeral of `n` padded on the left with '0' to width 2. */
  lemma Pad2IsPaddedDecimal(n: nat)
    requires n < 100
    ensures Pad2(n) == PadStart(ToDecimal(n), 2, '0')
  {
    if n < 10 {
      var d := [DigitChar(n)];
      assert ToDecimal(n) == d;
      assert PadStart(d, 2, '0') == PadStart(['0'] + d, 2, '0');
      assert DigitChar(0) == '0';
    } else {
      var d := [DigitChar(n / 10)] + [DigitChar(n % 10)];
      assert ToDecimal(n / 10) == [DigitChar(n / 10)];
      assert ToDecimal(n) == d;
    }
  }

  /** Two-digit text is read back by its two digits alone. */
  lemma Pad2Injective(x: nat, y: nat)
    requires x < 100 && y < 100
    requires Pad2(x) == Pad2(y)
    ensures x == y
  {
    assert DecimalValue(Pad2(x)) == x;
  }
}
