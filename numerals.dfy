/**
 * Python's `str()` of an integer and `int()` of a string, as the runtime
 * relies on them (number-to-text concatenation, error messages, and the
 * `Number` built-in). Only ASCII digits and ASCII white space are modelled.
 */
module Numerals {
  import opened Wrappers
  import opened Tokens

  function DigitChar(d: nat): (c: char)
    requires d < 10
    ensures IsDigit(c)
  {
    ('0' as int + d) as char
  }

  function DigitOf(c: char): (d: nat)
    requires IsDigit(c)
    ensures d < 10 && DigitChar(d) == c
  {
    (c as int - '0' as int)
  }

  /** The decimal numeral of a natural number, most significant digit first,
      without leading zeros. */
  function NatToString(n: nat): (s: string)
    ensures |s| >= 1 && forall k :: 0 <= k < |s| ==> IsDigit(s[k])
    ensures (s[0] == '0') <==> n == 0
    decreases n
  {
    if n < 10 then [DigitChar(n)] else NatToString(n / 10) + [DigitChar(n % 10)]
  }

  /** `str(i)` for an integer: a minus sign before the numeral of a negative number. */
  function IntToString(i: int): (s: string)
    ensures |s| >= 1
    ensures (s[0] == '-') <==> i < 0
    ensures i >= 0 ==> s == NatToString(i)
  {
    if i < 0 then "-" + NatToString(-i) else NatToString(i)
  }

  predicate AllDigits(s: string)
  {
    forall k :: 0 <= k < |s| ==> IsDigit(s[k])
  }

  /** The value of a string of decimal digits, read from the left. */
  function DigitsValue(s: string): nat
    requires AllDigits(s)
    decreases |s|
  {
    if s == [] then 0 else DigitsValue(s[..|s| - 1]) * 10 + DigitOf(s[|s| - 1])
  }

  /** Reading back a numeral gives the number it was written from. */
  lemma {:induction false} NatToStringRoundTrip(n: nat)
    ensures DigitsValue(NatToString(n)) == n
    decreases n
  {
    var s := NatToString(n);
    if n >= 10 {
      NatToStringRoundTrip(n / 10);
      assert s[..|s| - 1] == NatToString(n / 10);
    }
  }

  /** The characters `str.strip()` and `int()` remove: Python's white space
      (`str.isspace`), the ASCII separators 28 to 31 included. */
  predicate IsSpace(c: char)
  {
    var n := c as int;
    9 <= n <= 13 || 28 <= n <= 32 || n == 0x85 || n == 0xA0 || n == 0x1680 || 0x2000 <= n <= 0x200A
    || n == 0x2028 || n == 0x2029 || n == 0x202F || n == 0x205F || n == 0x3000
  }

  /** `s.strip()`: white space removed at both ends. */
  function Strip(s: string): (r: string)
    ensures |r| <= |s|
    ensures r != [] ==> !IsSpace(r[0]) && !IsSpace(r[|r| - 1])
    decreases |s|
  {
    if s == [] then []
    else if IsSpace(s[0]) then Strip(s[1..])
    else if IsSpace(s[|s| - 1]) then Strip(s[..|s| - 1])
    else s
  }

  /** Digits with single underscores between them, as `int()` accepts. */
  predicate DigitGroups(s: string)
  {
    |s| >= 1 && IsDigit(s[0]) && IsDigit(s[|s| - 1])
    && (forall k :: 0 <= k < |s| ==> IsDigit(s[k]) || s[k] == '_')
    && (forall k :: 0 <= k < |s| - 1 && s[k] == '_' ==> IsDigit(s[k + 1]))
  }

  /** The digits of `s` without its underscores. */
  function WithoutUnderscores(s: string): (r: string)
    requires forall k :: 0 <= k < |s| ==> IsDigit(s[k]) || s[k] == '_'
    ensures AllDigits(r)
    ensures AllDigits(s) ==> r == s
    decreases |s|
  {
    if s == [] then []
    else (if s[0] == '_' then [] else [s[0]]) + WithoutUnderscores(s[1..])
  }

  /** The text after an optional leading sign. */
  function Unsigned(t: string): string
  {
    if t != [] && (t[0] == '-' || t[0] == '+') then t[1..] else t
  }

  /** `int(s)` on a string: white space around an optional sign and a group of
      digits; anything else is the `ValueError` that `int` raises. */
  function ParseInt(s: string): (r: Option<int>)
    ensures r.Some? <==> Strip(s) != [] && DigitGroups(Unsigned(Strip(s)))
    ensures r.Some? && r.value < 0 ==> Strip(s)[0] == '-'
  {
    var t := Strip(s);
    if t == [] then None
    else
      var negative := t[0] == '-';
      var body := Unsigned(t);
      if !DigitGroups(body) then None
      else
        var n: int := DigitsValue(WithoutUnderscores(body));
        Some(if negative then -n else n)
  }

  /** A numeral as `str()` writes it: an optional minus, then digits that do
      not begin with a zero, except for an unsigned "0". */
  predicate Canonical(t: string)
  {
    var d := if t != [] && t[0] == '-' then t[1..] else t;
    |d| >= 1 && AllDigits(d) && (d[0] == '0' ==> d == "0" && t == d)
  }

  /** Digits without a leading zero are the numeral of their own value. */
  lemma {:induction false} DigitsNumeral(d: string)
    requires |d| >= 1 && AllDigits(d) && (d[0] == '0' ==> d == "0")
    ensures NatToString(DigitsValue(d)) == d
    decreases |d|
  {
    var p := d[..|d| - 1];
    var last := d[|d| - 1];
    if |d| == 1 {
      assert DigitsValue(d) == DigitOf(last);
    } else {
      DigitsNumeral(p);
      var v := DigitsValue(p);
      assert v != 0;
      var n := DigitsValue(d);
      assert n == v * 10 + DigitOf(last);
      assert n / 10 == v && n % 10 == DigitOf(last);
      assert d == p + [last];
    }
  }

  /** `str(int(s)) == s` for a numeral that `str()` could have written: the
      value `int()` reads is the one whose text it is. */
  lemma ParseIntReadsNumeral(s: string)
    requires Canonical(Strip(s))
    ensures ParseInt(s).Some?
    ensures IntToString(ParseInt(s).value) == Strip(s)
  {
    var t := Strip(s);
    var d := if t[0] == '-' then t[1..] else t;
    assert d == Unsigned(t);
    assert DigitGroups(d);
    DigitsNumeral(d);
    if t[0] == '-' {
      assert t == "-" + d;
    }
  }

  /** `int()` skips white space before the number, the separators 28 to 31
      included: `int("\x1c5") == 5`. */
  lemma LeadingSpaceIgnored(c: char, s: string)
    requires IsSpace(c)
    ensures ParseInt([c] + s) == ParseInt(s)
  {
    assert ([c] + s)[1..] == s;
  }

  /** `int(str(i)) == i`. */
  lemma IntToStringRoundTrip(i: int)
    ensures ParseInt(IntToString(i)) == Some(i)
  {
    var s := IntToString(i);
    var digits := NatToString(if i < 0 then -i else i);
    assert Strip(s) == s;
    NatToStringRoundTrip(if i < 0 then -i else i);
    if i < 0 {
      assert s[1..] == digits;
    } else {
      assert s == digits;
    }
  }
}
