/**
 Decimal text of an `int`, as `std::ostream::operator<<(int)` writes it with the
 default flags: an optional minus sign followed by the digits of the magnitude,
 most significant first, with no leading zeros. `ParseInt` is the reading back
 that makes the rendering checkable: every rendering parses back to its value.
 */
module Decimal {

  predicate IsDigit(ch: char) {
    '0' <= ch <= '9'
  }

  predicate AllDigits(s: string) {
    forall i :: 0 <= i < |s| ==> IsDigit(s[i])
  }

  /** The numeric value of one decimal digit. */
  function DigitValue(ch: char): (d: nat)
    requires IsDigit(ch)
    ensures d < 10
  {
    ch as int - '0' as int
  }

  function DigitChar(d: nat): (ch: char)
    requires d < 10
    ensures IsDigit(ch) && DigitValue(ch) == d
  {
    ('0' as int + d) as char
  }

  /** The digits of `n`, most significant first. */
  function NatToString(n: nat): (s: string)
    ensures 1 <= |s| && AllDigits(s)
    ensures |s| > 1 ==> s[0] != '0'
    decreases n
  {
    if n < 10 then [DigitChar(n)] else NatToString(n / 10) + [DigitChar(n % 10)]
  }

  /** The value of a string of digits (the empty string reads as 0). */
  function ParseNat(s: string): nat
    requires AllDigits(s)
    decreases |s|
  {
    if s == [] then 0 else ParseNat(s[..|s| - 1]) * 10 + DigitValue(s[|s| - 1])
  }

  lemma {:induction false} ParseNatToString(n: nat)
    ensures ParseNat(NatToString(n)) == n
    decreases n
  {
    if n >= 10 {
      var s := NatToString(n);
      assert s[..|s| - 1] == NatToString(n / 10);
      ParseNatToString(n / 10);
    }
  }

  /** What `cout << i` writes for an `int` i. */
  function IntToString(i: int): (s: string)
    ensures 1 <= |s|
    ensures s[0] == '-' <==> i < 0
  {
    if i < 0 then "-" + NatToString(-i) else NatToString(i)
  }

  /** A decimal integer literal: digits, optionally after one minus sign. */
  predicate IsIntLiteral(s: string) {
    && 1 <= |s|
    && (s[0] == '-' ==> 2 <= |s| && AllDigits(s[1..]))
    && (s[0] != '-' ==> AllDigits(s))
  }

  function ParseInt(s: string): int
    requires IsIntLiteral(s)
  {
    if s[0] == '-' then -(ParseNat(s[1..]) as int) else ParseNat(s)
  }

  /** Round trip: the rendering of an `int` is a literal that reads back as the same `int`. */
  lemma ParseIntToString(i: int)
    ensures IsIntLiteral(IntToString(i))
    ensures ParseInt(IntToString(i)) == i
  {
    if i < 0 {
      assert IntToString(i)[1..] == NatToString(-i);
      ParseNatToString(-i);
    } else {
      ParseNatToString(i);
    }
  }

  /** Distinct `int`s are written as distinct text. */
  lemma IntToStringInjective(a: int, b: int)
    ensures IntToString(a) == IntToString(b) <==> a == b
  {
    ParseIntToString(a);
    ParseIntToString(b);
  }

  /**
   Splitting a concatenation at a separator: when neither left part contains
   the character `sep` and both right parts begin with it, equal
   concatenations have equal parts.
   */
  lemma SplitAtSeparator(x: string, y: string, x': string, y': string, sep: char)
    requires forall i :: 0 <= i < |x| ==> x[i] != sep
    requires forall i :: 0 <= i < |x'| ==> x'[i] != sep
    requires 1 <= |y| && y[0] == sep
    requires 1 <= |y'| && y'[0] == sep
    requires x + y == x' + y'
    ensures x == x' && y == y'
  {
    assert x == (x + y)[..|x|];
    assert x' == (x' + y')[..|x'|];
  }

  /** A rendered `int` never contains a space. */
  lemma IntToStringHasNoSpace(i: int)
    ensures forall k :: 0 <= k < |IntToString(i)| ==> IntToString(i)[k] != ' '
  {
  }
}
