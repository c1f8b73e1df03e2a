/**
 * Java strings are sequences of UTF-16 code units, and `String.compareTo`
 * compares them unit by unit. Dafny characters are Unicode scalar values, so
 * this module spells out the encoding and the comparison on its result.
 */
module Utf16 {

  type CodeUnit = x: int | 0 <= x < 0x1_0000

  /** One character as one code unit, or as a surrogate pair above U+FFFF. */
  function EncodeChar(c: char): (units: seq<CodeUnit>)
    ensures 1 <= |units| <= 2
    ensures |units| == 1 <==> (c as int) < 0x1_0000
  {
    var v := c as int;
    if v < 0x1_0000 then [v]
    else
      var w := v - 0x1_0000;
      [0xD800 + w / 0x400, 0xDC00 + w % 0x400]
  }

  function Encode(s: string): (units: seq<CodeUnit>)
    ensures |units| >= |s|
  {
    if s == [] then [] else EncodeChar(s[0]) + Encode(s[1..])
  }

  /** ASCII text encodes unit for unit. */
  lemma {:induction false} EncodeAscii(s: string)
    requires forall i :: 0 <= i < |s| ==> (s[i] as int) < 0x80
    ensures |Encode(s)| == |s|
    ensures forall i :: 0 <= i < |s| ==> Encode(s)[i] == s[i] as int
  {
    if s != [] {
      EncodeAscii(s[1..]);
    }
  }

  /**
   * `String.compareTo`: the difference of the first differing code units,
   * or else the difference of the lengths.
   */
  function CompareTo(a: seq<CodeUnit>, b: seq<CodeUnit>): int {
    if a == [] || b == [] then |a| - |b|
    else if a[0] != b[0] then a[0] - b[0]
    else CompareTo(a[1..], b[1..])
  }

  lemma {:induction false} CompareToZero(a: seq<CodeUnit>, b: seq<CodeUnit>)
    ensures CompareTo(a, b) == 0 <==> a == b
  {
    if a != [] && b != [] && a[0] == b[0] {
      CompareToZero(a[1..], b[1..]);
      assert a == [a[0]] + a[1..];
      assert b == [b[0]] + b[1..];
    }
  }

  lemma {:induction false} CompareToAntisymmetric(a: seq<CodeUnit>, b: seq<CodeUnit>)
    ensures CompareTo(a, b) == -CompareTo(b, a)
  {
    if a != [] && b != [] && a[0] == b[0] {
      CompareToAntisymmetric(a[1..], b[1..]);
    }
  }

  lemma {:induction false} CompareToTransitive(a: seq<CodeUnit>, b: seq<CodeUnit>, c: seq<CodeUnit>)
    requires CompareTo(a, b) <= 0 && CompareTo(b, c) <= 0
    ensures CompareTo(a, c) <= 0
  {
    if a != [] && b != [] && c != [] && a[0] == b[0] && b[0] == c[0] {
      CompareToTransitive(a[1..], b[1..], c[1..]);
    }
  }

  /** Every uppercase ASCII letter sorts before every lowercase one. */
  lemma {:induction false} UppercaseFirst(a: seq<CodeUnit>, b: seq<CodeUnit>)
    requires a != [] && 'A' as int <= a[0] <= 'Z' as int
    requires b != [] && 'a' as int <= b[0] <= 'z' as int
    ensures CompareTo(a, b) < 0
  {
  }
}
