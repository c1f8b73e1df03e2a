/**
 * Decimal rendering of integers, as Java's `%d` / `String.valueOf(long)` and
 * JavaScript's `Number.prototype.toString()` print them for integral values,
 * together with a reader that recovers the number.
 */
module Decimal {
  import opened Results

  predicate IsDigit(c: char) {
    '0' <= c <= '9'
  }

  predicate AllDigits(s: string) {
    forall i :: 0 <= i < |s| ==> IsDigit(s[i])
  }

  function DigitChar(d: nat): (c: char)
    requires d < 10
    ensures IsDigit(c)
  {
    (('0' as int) + d) as char
  }

  function DigitValue(c: char): (d: nat)
    requires IsDigit(c)
    ensures d < 10
  {
    (c as int) - ('0' as int)
  }

  /** The shortest decimal spelling of `n`: no sign, no leading zero. */
  function NatToString(n: nat): (s: string)
    ensures |s| >= 1 && AllDigits(s)
    ensures s[0] == '0' ==> n == 0
    decreases n
  {
    if n < 10 then [DigitChar(n)] else NatToString(n / 10) + [DigitChar(n % 10)]
  }

  /** `%d`: a minus sign for negative values, then the magnitude. */
  function IntToString(n: int): (s: string)
    ensures |s| >= 1
    ensures n >= 0 <==> IsDigit(s[0])
  {
    if n < 0 then "-" + NatToString(-n) else NatToString(n)
  }

  /** The value of a digit string, read most significant digit first. */
  function DigitsValue(s: string): nat
    requires AllDigits(s)
  {
    if s == [] then 0 else DigitsValue(s[..|s| - 1]) * 10 + DigitValue(s[|s| - 1])
  }

  /** Length of the longest prefix of `s` made of digits. */
  function DigitRun(s: string): (k: nat)
    ensures k <= |s| && AllDigits(s[..k])
    ensures k < |s| ==> !IsDigit(s[k])
  {
    if s != [] && IsDigit(s[0]) then 1 + DigitRun(s[1..]) else 0
  }

  /**
   * Reads an optionally negative decimal integer at the front of `s` and
   * returns it with the text that follows; `None` when no digit is there.
   */
  function ReadInt(s: string): Option<(int, string)> {
    if s != [] && s[0] == '-' then
      var k := DigitRun(s[1..]);
      if k == 0 then None else Some((0 - DigitsValue(s[1..][..k]), s[1..][k..]))
    else
      var k := DigitRun(s);
      if k == 0 then None else Some((DigitsValue(s[..k]), s[k..]))
  }

  lemma {:induction false} NatToStringValue(n: nat)
    ensures DigitsValue(NatToString(n)) == n
    decreases n
  {
    var s := NatToString(n);
    if n >= 10 {
      NatToStringValue(n / 10);
      assert s[..|s| - 1] == NatToString(n / 10);
    }
  }

  lemma {:induction false} DigitRunStops(digits: string, rest: string)
    requires AllDigits(digits)
    requires rest == [] || !IsDigit(rest[0])
    ensures DigitRun(digits + rest) == |digits|
    decreases |digits|
  {
    if digits != [] {
      assert (digits + rest)[1..] == digits[1..] + rest;
      DigitRunStops(digits[1..], rest);
    } else {
      assert digits + rest == rest;
    }
  }

  lemma {:induction false} ReadNatRoundTrip(m: nat, rest: string)
    requires rest == [] || !IsDigit(rest[0])
    ensures ReadInt(NatToString(m) + rest) == Some((m as int, rest))
  {
    var digits := NatToString(m);
    var s := digits + rest;
    NatToStringValue(m);
    DigitRunStops(digits, rest);
    assert s[0] != '-';
    assert s[..|digits|] == digits;
    assert s[|digits|..] == rest;
  }

  lemma {:induction false} ReadNegRoundTrip(m: nat, rest: string)
    requires m > 0
    requires rest == [] || !IsDigit(rest[0])
    ensures ReadInt("-" + NatToString(m) + rest) == Some((0 - m, rest))
  {
    var digits := NatToString(m);
    var s := "-" + digits + rest;
    NatToStringValue(m);
    DigitRunStops(digits, rest);
    assert s[1..] == digits + rest;
    assert s[1..][..|digits|] == digits;
    assert s[1..][|digits|..] == rest;
  }

  /** Reading back what `IntToString` wrote gives the number and the untouched rest. */
  lemma {:induction false} ReadIntRoundTrip(n: int, rest: string)
    requires rest == [] || !IsDigit(rest[0])
    ensures ReadInt(IntToString(n) + rest) == Some((n, rest))
  {
    if n < 0 {
      ReadNegRoundTrip(-n, rest);
    } else {
      ReadNatRoundTrip(n, rest);
    }
  }

  /** Distinct integers print differently. */
  lemma {:induction false} IntToStringInjective(a: int, b: int)
    requires IntToString(a) == IntToString(b)
    ensures a == b
  {
    ReadIntRoundTrip(a, "");
    ReadIntRoundTrip(b, "");
    assert IntToString(a) + "" == IntToString(a);
    assert IntToString(b) + "" == IntToString(b);
  }
}
