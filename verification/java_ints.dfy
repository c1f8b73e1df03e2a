/**
 * Java's fixed-width integers. Dafny's `int` is unbounded, so a Java `int`
 * is the subset type `Int32`, and the narrowing cast and the increment wrap
 * modulo 2^32 explicitly.
 */
module JavaInts {
  const MinInt32: int := -0x8000_0000
  const MaxInt32: int := 0x7FFF_FFFF
  const TwoTo32: int := 0x1_0000_0000
  type Int32 = x: int | MinInt32 <= x <= MaxInt32
  type Int64 = x: int | -0x8000_0000_0000_0000 <= x < 0x8000_0000_0000_0000

  /** The `(int)` cast, and the result of any `int` arithmetic: the value modulo 2^32. */
  function ToInt32(x: int): (y: Int32)
    ensures MinInt32 <= x <= MaxInt32 ==> y == x
  {
    (x + 0x8000_0000) % 0x1_0000_0000 - 0x8000_0000
  }

  /** The cast changes its argument by a multiple of 2^32. */
  lemma {:induction false} ToInt32Congruent(x: int)
    ensures (ToInt32(x) - x) % TwoTo32 == 0
  {
  }

  /** Wrapping once or at every step of a sum gives the same value. */
  lemma {:induction false} ToInt32Add(a: int, b: int)
    ensures ToInt32(ToInt32(a) + b) == ToInt32(a + b)
  {
    var q := (a + 0x8000_0000) / 0x1_0000_0000;
    assert a + 0x8000_0000 == q * 0x1_0000_0000 + (a + 0x8000_0000) % 0x1_0000_0000;
    assert ToInt32(a) + b + 0x8000_0000 == (a + b + 0x8000_0000) - q * 0x1_0000_0000;
  }

  /** Java's `int` increment, which wraps from the largest value to the smallest. */
  function Increment32(x: Int32): (y: Int32)
    ensures x < MaxInt32 ==> y == x + 1
    ensures x == MaxInt32 ==> y == MinInt32
  {
    if x == MaxInt32 then MinInt32 else x + 1
  }

  /** The increment is the cast of the unbounded successor. */
  lemma {:induction false} Increment32IsToInt32(x: Int32)
    ensures Increment32(x) == ToInt32(x + 1)
  {
  }
}
