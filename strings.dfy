/** The string operations the Python and JavaScript sources lean on:
    Python's `str.strip`, `str.lower` and `in`, JavaScript's `includes`
    and `parseInt(_, 10)`, and the decimal renderings used in f-strings. */
module Strings {
  import opened Common

  // ---------------------------------------------------------------------------
  // Whitespace and strip

  /** The characters Python treats as whitespace (`str.isspace`), which
      `str.strip()` removes from both ends. */
  predicate IsSpace(c: char) {
    || ('\t' <= c <= '\r')
    || ('\U{1C}' <= c <= '\U{1F}')
    || c == ' ' || c == '\U{85}' || c == '\U{A0}' || c == '\U{1680}'
    || ('\U{2000}' <= c <= '\U{200A}')
    || c == '\U{2028}' || c == '\U{2029}' || c == '\U{202F}' || c == '\U{205F}'
    || c == '\U{3000}'
  }

  predicate AllSpace(s: string) {
    forall i :: 0 <= i < |s| ==> IsSpace(s[i])
  }

  /** `s.lstrip()`: the longest suffix of `s` that does not start with whitespace. */
  function TrimStart(s: string): (r: string)
    ensures |r| <= |s| && r == s[|s| - |r|..]
    ensures AllSpace(s[..|s| - |r|])
    ensures r == [] || !IsSpace(r[0])
  {
    if s != [] && IsSpace(s[0]) then
      var r := TrimStart(s[1..]);
      assert s[1..][|s| - 1 - |r|..] == s[|s| - |r|..];
      assert forall i :: 0 < i < |s| - |r| ==> s[i] == s[1..][..|s| - 1 - |r|][i - 1];
      r
    else s
  }

  /** `s.rstrip()`: the longest prefix of `s` that does not end with whitespace. */
  function TrimEnd(s: string): (r: string)
    ensures |r| <= |s| && r == s[..|r|]
    ensures AllSpace(s[|r|..])
    ensures r == [] || !IsSpace(r[|r| - 1])
  {
    if s != [] && IsSpace(s[|s| - 1]) then
      var r := TrimEnd(s[..|s| - 1]);
      assert forall i :: |r| <= i < |s| - 1 ==> s[i] == s[..|s| - 1][|r|..][i - |r|];
      r
    else s
  }

  /** Python's `s.strip()`: `s` without its leading and trailing whitespace. */
  function Strip(s: string): (r: string)
    ensures exists i :: 0 <= i <= |s| - |r| && r == s[i..][..|r|] && AllSpace(s[..i]) && AllSpace(s[i + |r|..])
    ensures r == [] || (!IsSpace(r[0]) && !IsSpace(r[|r| - 1]))
  {
    var t := TrimStart(s);
    var r := TrimEnd(t);
    var i := |s| - |t|;
    assert t == s[i..];
    assert AllSpace(s[..i]);
    assert r == s[i..][..|r|];
    assert AllSpace(s[i + |r|..]) by {
      assert s[i + |r|..] == t[|r|..];
    }
    r
  }

  /** `not s.strip()` holds exactly for the strings made of whitespace only. */
  lemma StripEmptyIffAllSpace(s: string)
    ensures Strip(s) == [] <==> AllSpace(s)
  {
    var t := TrimStart(s);
    var i := |s| - |t|;
    if !AllSpace(s) {
      var k :| 0 <= k < |s| && !IsSpace(s[k]);
      assert k >= i;
      assert t[k - i] == s[k];
      var r := TrimEnd(t);
      if r == [] {
        assert false;
      }
    }
  }

  /** When only whitespace comes before `s[i]` and `s[i]` is not whitespace,
      `s.lstrip()` is `s[i..]`. */
  lemma {:induction false} TrimStartAt(s: string, i: nat)
    requires i < |s| && AllSpace(s[..i]) && !IsSpace(s[i])
    ensures TrimStart(s) == s[i..]
    decreases i
  {
    if i > 0 {
      assert s[..i][0] == s[0];
      assert s[1..][..i - 1] == s[..i][1..];
      TrimStartAt(s[1..], i - 1);
      assert s[1..][i - 1..] == s[i..];
    }
  }

  /** When `s[j - 1]` is not whitespace and only whitespace follows it,
      `s.rstrip()` is `s[..j]`. */
  lemma TrimEndAt(s: string, j: nat)
    requires 0 < j <= |s| && !IsSpace(s[j - 1]) && AllSpace(s[j..])
    ensures TrimEnd(s) == s[..j]
  {
    var r := TrimEnd(s);
    var m := |r|;
    if m < j {
      assert false;
    } else if m > j {
      assert false;
    }
  }

  /** When `s[i..j]` starts and ends with non-whitespace and only whitespace
      surrounds it, stripping `s` gives exactly `s[i..j]`. */
  lemma StripBetween(s: string, i: nat, j: nat)
    requires i < j <= |s|
    requires AllSpace(s[..i]) && !IsSpace(s[i])
    requires !IsSpace(s[j - 1]) && AllSpace(s[j..])
    ensures Strip(s) == s[i..j]
  {
    TrimStartAt(s, i);
    var t := s[i..];
    assert AllSpace(t[j - i..]) by {
      assert t[j - i..] == s[j..];
    }
    TrimEndAt(t, j - i);
    assert t[..j - i] == s[i..j];
  }

  /** `s` is non-empty and does not start with whitespace. */
  predicate StartsSolid(s: string) {
    s != [] && !IsSpace(s[0])
  }

  /** `s` is non-empty and does not end with whitespace. */
  predicate EndsSolid(s: string) {
    s != [] && !IsSpace(s[|s| - 1])
  }

  lemma SolidJoin(a: string, b: string)
    ensures StartsSolid(a) ==> StartsSolid(a + b)
    ensures EndsSolid(b) ==> EndsSolid(a + b)
  {
  }

  /** Stripping whitespace, then `b`, then whitespace gives `b` when `b`
      neither starts nor ends with whitespace. */
  lemma StripAround(a: string, b: string, c: string)
    requires AllSpace(a) && AllSpace(c) && StartsSolid(b) && EndsSolid(b)
    ensures Strip(a + b + c) == b
  {
    var s := a + b + c;
    assert s[..|a|] == a;
    assert s[|a| + |b|..] == c;
    StripBetween(s, |a|, |a| + |b|);
    assert s[|a|..|a| + |b|] == b;
  }

  // ---------------------------------------------------------------------------
  // Case and substrings

  function LowerChar(c: char): char {
    if 'A' <= c <= 'Z' then (c as int + 32) as char else c
  }

  /** `s.lower()` / `s.toLowerCase()` on the ASCII letters. */
  function Lower(s: string): (r: string)
    ensures |r| == |s|
    ensures forall i :: 0 <= i < |s| ==> r[i] == LowerChar(s[i])
  {
    seq(|s|, i requires 0 <= i < |s| => LowerChar(s[i]))
  }

  /** Python's `sub in s` and JavaScript's `s.includes(sub)`. */
  predicate Contains(s: string, sub: string) {
    exists i :: 0 <= i <= |s| - |sub| && OccursAt(s, sub, i)
  }

  predicate OccursAt(s: string, sub: string, i: nat)
    requires i + |sub| <= |s|
  {
    s[i..i + |sub|] == sub
  }

  lemma ContainsInfix(a: string, x: string, b: string)
    ensures Contains(a + x + b, x)
  {
    var s := a + x + b;
    assert OccursAt(s, x, |a|);
  }

  /** Text that contains `x` still contains it with more text on either side. */
  lemma ContainsWithin(a: string, t: string, b: string, x: string)
    requires Contains(t, x)
    ensures Contains(a + t + b, x)
  {
    var i :| 0 <= i <= |t| - |x| && OccursAt(t, x, i);
    var s := a + t + b;
    assert s[|a| + i..|a| + i + |x|] == t[i..i + |x|];
    assert OccursAt(s, x, |a| + i);
  }

  /** Text that contains `x` still contains it with text appended or prepended. */
  lemma ContainsExtend(s: string, t: string, x: string)
    requires Contains(s, x)
    ensures Contains(s + t, x) && Contains(t + s, x)
  {
    ContainsWithin([], s, t, x);
    assert [] + s + t == s + t;
    ContainsWithin(t, s, [], x);
    assert t + s + [] == t + s;
  }

  lemma ContainsEmpty(s: string)
    ensures Contains(s, [])
  {
    assert OccursAt(s, [], 0);
  }

  lemma ContainsPrefix(x: string, b: string)
    ensures Contains(x + b, x)
  {
    ContainsInfix([], x, b);
    assert [] + x + b == x + b;
  }

  lemma ContainsSuffix(a: string, x: string)
    ensures Contains(a + x, x)
  {
    ContainsInfix(a, x, []);
    assert a + x + [] == a + x;
  }

  // ---------------------------------------------------------------------------
  // Decimal numbers

  predicate IsDigit(c: char) {
    '0' <= c <= '9'
  }

  function DigitChar(d: nat): (c: char)
    requires d < 10
    ensures IsDigit(c) && c as int - '0' as int == d
  {
    ('0' as int + d) as char
  }

  /** Decimal rendering of a natural number, as `str(n)` and `String(n)` give it. */
  function NatToString(n: nat): (r: string)
    ensures |r| >= 1
    ensures forall i :: 0 <= i < |r| ==> IsDigit(r[i])
    decreases n
  {
    if n < 10 then [DigitChar(n)] else NatToString(n / 10) + [DigitChar(n % 10)]
  }

  /** Decimal rendering of an integer, with a leading minus sign when negative. */
  function IntToString(i: int): string {
    if i < 0 then "-" + NatToString(-i) else NatToString(i)
  }

  function DigitsValue(s: string): nat
    requires forall i :: 0 <= i < |s| ==> IsDigit(s[i])
  {
    if s == [] then 0
    else
      assert IsDigit(s[|s| - 1]);
      DigitsValue(s[..|s| - 1]) * 10 + (s[|s| - 1] as int - '0' as int)
  }

  lemma {:induction false} NatToStringValue(n: nat)
    ensures DigitsValue(NatToString(n)) == n
    decreases n
  {
    if n >= 10 {
      var r := NatToString(n);
      assert r[..|r| - 1] == NatToString(n / 10);
      NatToStringValue(n / 10);
    }
  }

  /** The longest prefix of `s` made of decimal digits. */
  function LeadingDigits(s: string): (r: string)
    ensures |r| <= |s| && r == s[..|r|]
    ensures forall i :: 0 <= i < |r| ==> IsDigit(r[i])
    ensures |r| < |s| ==> !IsDigit(s[|r|])
  {
    if s != [] && IsDigit(s[0]) then
      var r := LeadingDigits(s[1..]);
      assert [s[0]] + r == s[..|r| + 1];
      [s[0]] + r
    else []
  }

  /** JavaScript's `parseInt(s, 10)` on a string without leading whitespace:
      an optional sign and the longest run of digits after it; `None` stands
      for `NaN` (no digit at all). */
  function ParseInt10(s: string): Option<int> {
    var negative := s != [] && s[0] == '-';
    var rest := if s != [] && (s[0] == '-' || s[0] == '+') then s[1..] else s;
    var digits := LeadingDigits(rest);
    if digits == [] then None
    else if negative then Some(0 - DigitsValue(digits) as int)
    else Some(DigitsValue(digits))
  }

  /** `parseInt(n, 10)` first renders the number `n` in decimal and then
      parses it back, which gives `n` again. */
  lemma ParseIntOfRendered(i: int)
    ensures ParseInt10(IntToString(i)) == Some(i)
  {
    ParseIntOfRenderedThen(i, []);
    assert IntToString(i) + [] == IntToString(i);
  }

  /** Digits followed by a non-digit: the run of leading digits stops there. */
  lemma {:induction false} LeadingDigitsStop(s: string, t: string)
    requires forall i :: 0 <= i < |s| ==> IsDigit(s[i])
    requires t == [] || !IsDigit(t[0])
    ensures LeadingDigits(s + t) == s
    decreases |s|
  {
    if s == [] {
      assert s + t == t;
    } else {
      assert (s + t)[1..] == s[1..] + t;
      LeadingDigitsStop(s[1..], t);
    }
  }

  /** `parseInt` reads back a rendered integer followed by any text that
      does not start with a digit. */
  lemma ParseIntOfRenderedThen(i: int, t: string)
    requires t == [] || !IsDigit(t[0])
    ensures ParseInt10(IntToString(i) + t) == Some(i)
  {
    var n: nat := if i < 0 then -i else i;
    var digits := NatToString(n);
    LeadingDigitsStop(digits, t);
    NatToStringValue(n);
    if i < 0 {
      NegativeThen(digits, t);
      assert IntToString(i) + t == "-" + (digits + t);
    } else {
      NonNegativeThen(digits, t);
      assert IntToString(i) + t == digits + t;
    }
  }

  /** Digits first and then a non-digit: `parseInt` gives the digits' value. */
  lemma NonNegativeThen(digits: string, t: string)
    requires |digits| > 0 && forall i :: 0 <= i < |digits| ==> IsDigit(digits[i])
    requires LeadingDigits(digits + t) == digits
    ensures ParseInt10(digits + t) == Some(DigitsValue(digits))
  {
    assert (digits + t)[0] == digits[0];
  }

  /** A minus sign before digits and a non-digit: `parseInt` negates the digits' value. */
  lemma NegativeThen(digits: string, t: string)
    requires |digits| > 0 && forall i :: 0 <= i < |digits| ==> IsDigit(digits[i])
    requires LeadingDigits(digits + t) == digits
    ensures ParseInt10("-" + (digits + t)) == Some(0 - DigitsValue(digits) as int)
  {
    var s := "-" + (digits + t);
    assert s[0] == '-' && s[1..] == digits + t;
  }

  /** Python's `f"{x:.2f}"` on a non-negative or negative number: two digits
      after the point, the last one rounded half up. */
  function Fixed2(x: real): (r: string)
    ensures |r| >= 4
    ensures x >= 0.0 ==> r[0] != '-'
    ensures x < 0.0 ==> r[0] == '-'
  {
    var magnitude := if x < 0.0 then -x else x;
    var hundredths := (magnitude * 100.0 + 0.5).Floor;
    assert hundredths >= 0;
    var whole := NatToString(hundredths / 100);
    (if x < 0.0 then "-" else "") + whole + "." + [DigitChar((hundredths / 10) % 10), DigitChar(hundredths % 10)]
  }
}
