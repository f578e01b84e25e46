/**
 * Decimal rendering of integers, as Python's f-string `{size}` produces it
 * for an `int` that Python agrees to render: an optional minus sign followed
 * by the canonical digits (no leading zeros, "0" for zero).  Python refuses
 * integers of more than 4300 digits by default; this model renders them all.
 * `ParseInt` is the inverse on the image of `IntToString`; the two round-trip
 * lemmas tie them together.
 */
module Decimal {
  import opened Options

  predicate IsDigit(c: char) {
    '0' <= c <= '9'
  }

  predicate AllDigits(s: string) {
    forall i :: 0 <= i < |s| ==> IsDigit(s[i])
  }

  /** A digit string as `str` renders a natural number: non-empty, no leading zero. */
  predicate IsCanonical(s: string) {
    |s| > 0 && AllDigits(s) && (s[0] == '0' ==> |s| == 1)
  }

  function DigitChar(d: nat): (c: char)
    requires d < 10
    ensures IsDigit(c)
  {
    (('0' as int) + d) as char
  }

  function DigitValue(c: char): (d: nat)
    requires IsDigit(c)
    ensures d < 10 && DigitChar(d) == c
  {
    (c as int) - ('0' as int)
  }

  /** Decimal digits of `n`, most significant first. */
  function NatToString(n: nat): (s: string)
    ensures IsCanonical(s)
    decreases n
  {
    if n < 10 then [DigitChar(n)] else NatToString(n / 10) + [DigitChar(n % 10)]
  }

  /** Python's `str(i)` for an `int`. */
  function IntToString(i: int): (s: string)
    ensures |s| > 0
  {
    if i < 0 then "-" + NatToString(-i) else NatToString(i)
  }

  /** The number a digit string denotes. */
  function ParseDigits(s: string): nat
    requires AllDigits(s)
    decreases |s|
  {
    if s == [] then 0 else ParseDigits(s[..|s| - 1]) * 10 + DigitValue(s[|s| - 1])
  }

  /** Reads back exactly the strings `IntToString` produces; `None` for any other string. */
  function ParseInt(s: string): Option<int> {
    if |s| > 1 && s[0] == '-' && IsCanonical(s[1..]) && s[1..] != "0" then
      Some(-(ParseDigits(s[1..]) as int))
    else if IsCanonical(s) then
      Some(ParseDigits(s))
    else
      None
  }

  lemma {:induction false} ParseNatToString(n: nat)
    ensures ParseDigits(NatToString(n)) == n
    decreases n
  {
    if n >= 10 {
      var s := NatToString(n);
      ParseNatToString(n / 10);
      assert s[..|s| - 1] == NatToString(n / 10);
    }
  }

  lemma {:induction false} ParsePositive(s: string)
    requires |s| > 0 && AllDigits(s) && s[0] != '0'
    ensures ParseDigits(s) >= 1
    decreases |s|
  {
    if |s| > 1 {
      ParsePositive(s[..|s| - 1]);
    }
  }

  lemma {:induction false} NatToStringParse(s: string)
    requires IsCanonical(s)
    ensures NatToString(ParseDigits(s)) == s
    decreases |s|
  {
    var n := ParseDigits(s);
    if |s| == 1 {
      assert s == [s[0]];
      assert ParseDigits(s[..0]) == 0;
    } else {
      var init, d := s[..|s| - 1], DigitValue(s[|s| - 1]);
      ParsePositive(init);
      NatToStringParse(init);
      assert n / 10 == ParseDigits(init) && n % 10 == d;
      assert s == init + [s[|s| - 1]];
    }
  }

  lemma ParseIntToString(i: int)
    ensures ParseInt(IntToString(i)) == Some(i)
  {
    var s := IntToString(i);
    if i < 0 {
      assert s[1..] == NatToString(-i);
      ParseNatToString(-i);
      assert ParseDigits("0") == 0;
    } else {
      ParseNatToString(i);
    }
  }

  lemma IntToStringParse(s: string, i: int)
    requires ParseInt(s) == Some(i)
    ensures IntToString(i) == s
  {
    if |s| > 1 && s[0] == '-' && IsCanonical(s[1..]) && s[1..] != "0" {
      NatToStringParse(s[1..]);
      ParsePositive(s[1..]);
    } else {
      NatToStringParse(s);
    }
  }

  lemma IntToStringInjective(i: int, j: int)
    requires IntToString(i) == IntToString(j)
    ensures i == j
  {
    ParseIntToString(i);
    ParseIntToString(j);
  }
}
