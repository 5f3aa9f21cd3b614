/**
 * The few Python built-ins the relay relies on, written out over `string`:
 * `str.strip()`, `str(n)` for an integer and `int(s)` for a decimal string.
 */
module Builtins {
  import opened Wrappers

  /** Python's `str.isspace()` for one character. */
  predicate IsSpace(c: char) {
    || ('\t' <= c <= '\r')
    || ('\U{1C}' <= c <= ' ')
    || c == '\U{85}' || c == '\U{A0}' || c == '\U{1680}'
    || ('\U{2000}' <= c <= '\U{200A}')
    || c == '\U{2028}' || c == '\U{2029}' || c == '\U{202F}' || c == '\U{205F}' || c == '\U{3000}'
  }

  predicate AllSpace(s: string) {
    forall i :: 0 <= i < |s| ==> IsSpace(s[i])
  }

  /** Neither end of `s` is whitespace. */
  predicate Trimmed(s: string) {
    s == [] || (!IsSpace(s[0]) && !IsSpace(s[|s| - 1]))
  }

  /** `s.lstrip()`: the suffix left after dropping leading whitespace. */
  function StripStart(s: string): (r: string)
    ensures |r| <= |s| && r == s[|s| - |r|..]
    ensures forall k :: 0 <= k < |s| - |r| ==> IsSpace(s[k])
    ensures r == [] || !IsSpace(r[0])
  {
    if s != [] && IsSpace(s[0]) then StripStart(s[1..]) else s
  }

  /** `s.rstrip()`: the prefix left after dropping trailing whitespace. */
  function StripEnd(s: string): (r: string)
    ensures |r| <= |s| && r == s[..|r|]
    ensures forall k :: |r| <= k < |s| ==> IsSpace(s[k])
    ensures r == [] || !IsSpace(r[|r| - 1])
  {
    if s != [] && IsSpace(s[|s| - 1]) then StripEnd(s[..|s| - 1]) else s
  }

  /** `s.strip()`. */
  function Strip(s: string): (r: string)
    ensures Trimmed(r)
  {
    StripEnd(StripStart(s))
  }

  /** Whitespace in front of a string that starts with a non-space is exactly what lstrip drops. */
  lemma StripStartSkips(pre: string, rest: string)
    requires AllSpace(pre)
    requires rest == [] || !IsSpace(rest[0])
    ensures StripStart(pre + rest) == rest
  {
    var s := pre + rest;
    var r := StripStart(s);
    assert rest != [] ==> s[|pre|] == rest[0];
    assert |r| == |rest|;
  }

  /** Whitespace after a string that ends with a non-space is exactly what rstrip drops. */
  lemma StripEndSkips(rest: string, post: string)
    requires AllSpace(post)
    requires rest == [] || !IsSpace(rest[|rest| - 1])
    ensures StripEnd(rest + post) == rest
  {
    var s := rest + post;
    var r := StripEnd(s);
    assert rest != [] ==> s[|rest| - 1] == rest[|rest| - 1];
    assert |r| == |rest|;
  }

  /** strip() recovers a trimmed text from any whitespace padding around it. */
  lemma StripPadded(pre: string, core: string, post: string)
    requires AllSpace(pre) && AllSpace(post) && Trimmed(core)
    ensures Strip(pre + core + post) == core
  {
    if core == [] {
      assert pre + core + post == pre + post;
      assert AllSpace(pre + post);
    } else {
      assert pre + core + post == pre + (core + post);
      StripStartSkips(pre, core + post);
      StripEndSkips(core, post);
    }
  }

  predicate IsDigit(c: char) {
    '0' <= c <= '9'
  }

  predicate AllDigits(s: string) {
    forall i :: 0 <= i < |s| ==> IsDigit(s[i])
  }

  function DigitValue(c: char): nat
    requires IsDigit(c)
  {
    (c as int) - ('0' as int)
  }

  function DigitChar(d: nat): (c: char)
    requires d < 10
    ensures IsDigit(c) && DigitValue(c) == d
  {
    (('0' as int) + d) as char
  }

  /** `str(n)` for a natural number: decimal digits, no leading zero. */
  function NatToString(n: nat): (r: string)
    ensures |r| > 0 && AllDigits(r)
    ensures r[0] == '0' ==> n == 0
    ensures n == 0 ==> r == "0"
    ensures |r| > 1 ==> r[0] != '0'
  {
    if n < 10 then [DigitChar(n)] else NatToString(n / 10) + [DigitChar(n % 10)]
  }

  /** `str(n)` for an integer: a minus sign before the digits of a negative number. */
  function IntToString(n: int): (r: string)
    ensures forall i :: 0 <= i < |r| ==> IsDigit(r[i]) || r[i] == '-'
  {
    if n < 0 then "-" + NatToString(-n) else NatToString(n)
  }

  /** The value of a string of decimal digits, read left to right. */
  function DigitsValue(s: string): nat
    requires AllDigits(s)
  {
    if s == [] then 0 else DigitsValue(s[..|s| - 1]) * 10 + DigitValue(s[|s| - 1])
  }

  /** An optional `+` or `-` followed by one or more ASCII digits. */
  predicate SignedDigits(s: string) {
    || (|s| > 0 && AllDigits(s))
    || (|s| > 1 && (s[0] == '-' || s[0] == '+') && AllDigits(s[1..]))
  }

  /**
   * `int(s)` restricted to an optional sign followed by one or more ASCII
   * digits; None stands for the ValueError Python raises.
   */
  function ParseInt(s: string): (r: Option<int>)
    ensures r.Some? <==> SignedDigits(s)
    ensures r.Some? && s[0] == '-' ==> r.value == 0 - DigitsValue(s[1..]) as int
    ensures r.Some? && s[0] == '+' ==> r.value == DigitsValue(s[1..])
    ensures r.Some? && s[0] != '-' && s[0] != '+' ==> r.value == DigitsValue(s)
  {
    if |s| > 0 && (s[0] == '-' || s[0] == '+') then
      if |s| > 1 && AllDigits(s[1..]) then
        var magnitude: int := DigitsValue(s[1..]);
        Some(if s[0] == '-' then -magnitude else magnitude)
      else None
    else if |s| > 0 && AllDigits(s) then Some(DigitsValue(s))
    else None
  }

  lemma {:induction false} DigitsValueOfNatToString(n: nat)
    ensures DigitsValue(NatToString(n)) == n
  {
    if n >= 10 {
      var s := NatToString(n);
      assert s[..|s| - 1] == NatToString(n / 10);
      DigitsValueOfNatToString(n / 10);
    }
  }

  /** The decimal rendering of any integer parses back to that integer. */
  lemma ParseIntRoundTrip(n: int)
    ensures ParseInt(IntToString(n)) == Some(n)
  {
    var digits := NatToString(if n < 0 then -n else n);
    DigitsValueOfNatToString(if n < 0 then -n else n);
    assert digits[0] != '-' && digits[0] != '+';
    if n < 0 {
      var s := "-" + digits;
      assert s[1..] == digits;
    }
  }

  /** Distinct integers have distinct renderings. */
  lemma IntToStringInjective(a: int, b: int)
    requires IntToString(a) == IntToString(b)
    ensures a == b
  {
    ParseIntRoundTrip(a);
    ParseIntRoundTrip(b);
  }
}
