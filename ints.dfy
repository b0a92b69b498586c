/**
 * Decimal integers as the notification endpoints see them: Python's `int(text)`
 * applied to the `model_id` path parameter, and `str(n)` as used by the
 * f-string `f"channel:{id}"`.
 */
module Ints {
  import opened Wrappers

  predicate IsDigit(c: char) { '0' <= c <= '9' }

  /**
   * The ASCII characters Python's `int()` skips around a number: tab, line
   * feed, vertical tab, form feed, carriage return and space. The separators
   * U+001C to U+001F count as white space for `str.isspace()` but are not
   * skipped here.
   */
  predicate IsSpace(c: char) { 9 <= c as int <= 13 || c == ' ' }

  function DigitValue(c: char): (d: nat)
    requires IsDigit(c)
    ensures d < 10
  {
    (c as int) - ('0' as int)
  }

  function DigitChar(d: nat): (c: char)
    requires d < 10
    ensures IsDigit(c) && DigitValue(c) == d
  {
    (('0' as int) + d) as char
  }

  predicate AllDigits(s: string) { forall i :: 0 <= i < |s| ==> IsDigit(s[i]) }

  /** `str(n)` for n >= 0: the shortest decimal numeral. */
  function NatString(n: nat): (s: string)
    ensures |s| > 0 && AllDigits(s)
    ensures (s[0] == '0') <==> n == 0
    decreases n
  {
    if n < 10 then [DigitChar(n)] else NatString(n / 10) + [DigitChar(n % 10)]
  }

  /** `str(n)`: a minus sign for negative numbers, then the digits. */
  function DecimalString(n: int): (s: string)
    ensures |s| > 0 && !IsSpace(s[0]) && !IsSpace(s[|s| - 1])
  {
    if n < 0 then "-" + NatString(-n) else NatString(n)
  }

  function StripLeading(s: string): string
  {
    if |s| > 0 && IsSpace(s[0]) then StripLeading(s[1..]) else s
  }

  function StripTrailing(s: string): string
  {
    if |s| > 0 && IsSpace(s[|s| - 1]) then StripTrailing(s[..|s| - 1]) else s
  }

  /** Stripping keeps a contiguous part of the text, with no white space at either end. */
  lemma {:induction false} StripKeepsInterior(s: string)
    ensures var t := StripTrailing(StripLeading(s));
      (t == [] || (!IsSpace(t[0]) && !IsSpace(t[|t| - 1]))) &&
      forall i :: 0 <= i < |t| ==> t[i] in s
    ensures var t := StripTrailing(StripLeading(s)); var a := |s| - |StripLeading(s)|;
      0 <= a && a + |t| <= |s| && t == s[a..a + |t|]
  {
    StripLeadingSuffix(s);
    StripTrailingPrefix(StripLeading(s));
  }

  lemma {:induction false} StripLeadingSuffix(s: string)
    ensures var r := StripLeading(s);
      |r| <= |s| && r == s[|s| - |r|..] && (r == [] || !IsSpace(r[0]))
    decreases |s|
  {
    if |s| > 0 && IsSpace(s[0]) {
      StripLeadingSuffix(s[1..]);
    }
  }

  lemma {:induction false} StripTrailingPrefix(s: string)
    ensures var r := StripTrailing(s);
      |r| <= |s| && r == s[..|r|] && (r == [] || !IsSpace(r[|r| - 1]))
    decreases |s|
  {
    if |s| > 0 && IsSpace(s[|s| - 1]) {
      StripTrailingPrefix(s[..|s| - 1]);
    }
  }

  /**
   * Python's base-10 digit run: a digit, then any number of digits each
   * optionally preceded by a single underscore.
   */
  predicate WellFormedDigits(s: string)
    decreases |s|
  {
    |s| > 0 && IsDigit(s[|s| - 1]) &&
    (|s| == 1 || WellFormedDigits(s[..|s| - 1]) ||
     (|s| >= 3 && s[|s| - 2] == '_' && WellFormedDigits(s[..|s| - 2])))
  }

  /** The value of a digit run, underscores ignored. */
  function DigitsValue(s: string): nat
    requires WellFormedDigits(s)
    decreases |s|
  {
    var d := DigitValue(s[|s| - 1]);
    if |s| == 1 then d
    else if s[|s| - 2] == '_' then
      assert s[..|s| - 1][|s| - 2] == '_';
      assert !WellFormedDigits(s[..|s| - 1]);
      DigitsValue(s[..|s| - 2]) * 10 + d
    else DigitsValue(s[..|s| - 1]) * 10 + d
  }

  /**
   * `int(s)` in base 10: surrounding white space is skipped, one optional sign,
   * then a well-formed digit run; anything else is a ValueError (None).
   */
  function ParseInt(s: string): (r: Option<int>)
    ensures r.Some? ==> exists i :: 0 <= i < |s| && IsDigit(s[i])
  {
    var t := StripTrailing(StripLeading(s));
    StripKeepsInterior(s);
    if |t| > 0 && (t[0] == '-' || t[0] == '+') then
      var digits := t[1..];
      if WellFormedDigits(digits) then
        assert digits[|digits| - 1] == t[|t| - 1];
        var magnitude: int := DigitsValue(digits);
        Some(if t[0] == '-' then -magnitude else magnitude)
      else None
    else if WellFormedDigits(t) then
      Some(DigitsValue(t))
    else None
  }

  lemma {:induction false} NatStringValue(n: nat)
    ensures WellFormedDigits(NatString(n)) && DigitsValue(NatString(n)) == n
    decreases n
  {
    var s := NatString(n);
    if n >= 10 {
      NatStringValue(n / 10);
      assert s[..|s| - 1] == NatString(n / 10);
    }
  }

  /** Reading back what `str(n)` printed gives n again. */
  /**
   * Spaces and line breaks around the number are skipped, but a leading
   * file separator (U+001C) makes `int()` raise ValueError.
   */
  lemma ParseIntSkipsOnlyAsciiSpace()
    ensures ParseInt(" 7\n") == Some(7)
    ensures ParseInt([28 as char, '7']) == None
  {
    assert StripTrailing(StripLeading(" 7\n")) == "7";
    var s := [28 as char, '7'];
    assert StripTrailing(StripLeading(s)) == s;
    assert !WellFormedDigits(s[..1]);
  }

  lemma ParseDecimalString(n: int)
    ensures ParseInt(DecimalString(n)) == Some(n)
  {
    var s := DecimalString(n);
    assert StripLeading(s) == s;
    assert StripTrailing(s) == s;
    if n < 0 {
      assert s[1..] == NatString(-n);
      NatStringValue(-n);
    } else {
      NatStringValue(n);
    }
  }

  /** Distinct numbers print differently. */
  lemma DecimalStringInjective(a: int, b: int)
    requires DecimalString(a) == DecimalString(b)
    ensures a == b
  {
    ParseDecimalString(a);
    ParseDecimalString(b);
  }
}
