/**
 * Decimal rendering of integers, as `fmt.Sprintf("%d", n)` prints a Go `int`,
 * together with the parser that reads such a rendering back.
 */
module Decimal {
  import opened Wrappers

  predicate IsDigit(c: char) {
    '0' <= c <= '9'
  }

  predicate AllDigits(s: string) {
    forall i :: 0 <= i < |s| ==> IsDigit(s[i])
  }

  /** A digit string as `%d` prints it: non-empty, and no leading zero unless it is "0". */
  predicate Canonical(s: string) {
    |s| >= 1 && AllDigits(s) && (s[0] != '0' || |s| == 1)
  }

  function DigitChar(d: nat): (c: char)
    requires d < 10
    ensures IsDigit(c)
  {
    (d + '0' as int) as char
  }

  function DigitValue(c: char): nat
    requires IsDigit(c)
  {
    c as int - '0' as int
  }

  /** `%d` of a non-negative number. */
  function FormatNat(n: nat): (s: string)
    ensures Canonical(s)
    ensures s[0] == '0' <==> n == 0
    decreases n
  {
    if n < 10 then [DigitChar(n)] else FormatNat(n / 10) + [DigitChar(n % 10)]
  }

  /** `%d` of any integer: a minus sign before the magnitude when negative. */
  function FormatInt(i: int): (s: string)
    ensures |s| >= 1
    ensures s[0] == '-' <==> i < 0
  {
    if i < 0 then "-" + FormatNat(-i) else FormatNat(i)
  }

  /** The value of a string of digits, most significant first. */
  function DigitsValue(s: string): nat
    requires AllDigits(s)
  {
    if s == [] then 0 else DigitsValue(s[..|s| - 1]) * 10 + DigitValue(s[|s| - 1])
  }

  /** Reads back exactly the strings `FormatNat` produces. */
  function ParseNat(s: string): Option<nat> {
    if Canonical(s) then Some(DigitsValue(s)) else None
  }

  /** Reads back exactly the strings `FormatInt` produces ("-0" is not one of them). */
  function ParseInt(s: string): Option<int> {
    if |s| >= 1 && s[0] == '-' then
      match ParseNat(s[1..])
      case Some(n) => if n == 0 then None else Some(-(n as int))
      case None => None
    else
      match ParseNat(s)
      case Some(n) => Some(n as int)
      case None => None
  }

  lemma {:induction false} DigitsValueOfFormat(n: nat)
    ensures DigitsValue(FormatNat(n)) == n
    decreases n
  {
    if n >= 10 {
      var s := FormatNat(n);
      assert s[..|s| - 1] == FormatNat(n / 10);
      DigitsValueOfFormat(n / 10);
    }
  }

  lemma {:induction false} CanonicalIsPositive(s: string)
    requires Canonical(s) && s[0] != '0'
    ensures DigitsValue(s) >= 1
  {
    if |s| > 1 {
      var p := s[..|s| - 1];
      assert p[0] == s[0];
      CanonicalIsPositive(p);
    }
  }

  lemma {:induction false} FormatOfDigitsValue(s: string)
    requires Canonical(s)
    ensures FormatNat(DigitsValue(s)) == s
    decreases |s|
  {
    if |s| > 1 {
      var p := s[..|s| - 1];
      assert p[0] == s[0];
      CanonicalIsPositive(p);
      FormatOfDigitsValue(p);
      assert s == p + [s[|s| - 1]];
    }
  }

  /** `%d` followed by parsing gives the number back. */
  lemma ParseFormatInt(i: int)
    ensures ParseInt(FormatInt(i)) == Some(i)
  {
    if i < 0 {
      var s := FormatInt(i);
      assert s[1..] == FormatNat(-i);
      DigitsValueOfFormat(-i);
    } else {
      DigitsValueOfFormat(i);
    }
  }

  /** A string that parses is exactly the `%d` rendering of its value, so distinct renderings mean distinct numbers. */
  lemma FormatParseInt(s: string, i: int)
    requires ParseInt(s) == Some(i)
    ensures FormatInt(i) == s
  {
    if |s| >= 1 && s[0] == '-' {
      FormatOfDigitsValue(s[1..]);
      assert s == "-" + s[1..];
    } else {
      FormatOfDigitsValue(s);
    }
  }
}
