/** Decimal digit strings: the rendering of a non-negative integer into a
    template literal, and JavaScript's `parseInt(s, 10)`. NaN is None. */
module Decimal {

  import opened Wrappers
  import opened Text

  function DigitValue(c: char): (d: nat)
    requires IsDigit(c)
    ensures d < 10
  {
    c as int - '0' as int
  }

  function DigitChar(d: nat): (c: char)
    requires d < 10
    ensures IsDigit(c) && DigitValue(c) == d
  {
    ('0' as int + d) as char
  }

  /** The number a string of decimal digits denotes (leading zeros allowed). */
  function Value(s: string): nat
    requires AllDigits(s)
  {
    if s == [] then 0 else Value(s[..|s| - 1]) * 10 + DigitValue(s[|s| - 1])
  }

  /** The decimal rendering of a non-negative integer, as `${n}` produces it. */
  function NatToString(n: nat): (r: string)
    ensures 1 <= |r|
    ensures AllDigits(r) && Value(r) == n
    ensures |r| > 1 ==> r[0] != '0'
  {
    if n < 10 then [DigitChar(n)]
    else
      var init := NatToString(n / 10);
      var r := init + [DigitChar(n % 10)];
      assert r[..|r| - 1] == init;
      r
  }

  /** The longest prefix of `s` made of decimal digits. */
  function LeadingDigits(s: string): (r: string)
    ensures |r| <= |s| && r == s[..|r|] && AllDigits(r)
    ensures |r| == |s| || !IsDigit(s[|r|])
  {
    if s != [] && IsDigit(s[0]) then [s[0]] + LeadingDigits(s[1..]) else []
  }

  /** `parseInt(s, 10)`: leading whitespace is skipped, one optional sign is
      read, then the longest run of digits; no digits gives NaN (None). */
  function ParseInt(s: string): (r: Option<int>)
    ensures r.None? <==>
      var t := TrimStart(s);
      var body := if t != [] && (t[0] == '+' || t[0] == '-') then t[1..] else t;
      body == [] || !IsDigit(body[0])
  {
    var t := TrimStart(s);
    var negative := t != [] && t[0] == '-';
    var body := if t != [] && (t[0] == '+' || t[0] == '-') then t[1..] else t;
    var digits := LeadingDigits(body);
    var magnitude: int := if digits == [] then 0 else Value(digits);
    if digits == [] then None
    else Some(if negative then -magnitude else magnitude)
  }

  lemma {:induction false} LeadingDigitsOfDigits(s: string)
    requires AllDigits(s)
    ensures LeadingDigits(s) == s
  {
    if s != [] {
      LeadingDigitsOfDigits(s[1..]);
    }
  }

  /** Reading back the rendering of a non-negative integer gives that integer. */
  lemma ParseIntOfNatToString(n: nat)
    ensures ParseInt(NatToString(n)) == Some(n)
  {
    var s := NatToString(n);
    assert IsDigit(s[0]);
    assert !IsWhitespace(s[0]) && s[0] != '+' && s[0] != '-';
    assert TrimStart(s) == s;
    LeadingDigitsOfDigits(s);
    assert LeadingDigits(s) == s;
  }
}
