/** C# `int` arithmetic: 32-bit two's complement, which an unchecked
    multiplication silently wraps. */
module Int32 {

  const MinValue: int := -0x8000_0000
  const MaxValue: int := 0x7FFF_FFFF

  predicate InRange(x: int)
  {
    MinValue <= x <= MaxValue
  }

  /** The 32-bit value an unchecked operation keeps of the exact result `x`. */
  function Wrap(x: int): (r: int)
    ensures InRange(r)
    ensures (r - x) % 0x1_0000_0000 == 0
    ensures InRange(x) ==> r == x
  {
    (x - MinValue) % 0x1_0000_0000 + MinValue
  }

  /** `a * b` on two `int` operands, unchecked. */
  function Mul(a: int, b: int): (r: int)
    ensures InRange(r)
    ensures InRange(a * b) ==> r == a * b
    ensures !InRange(a * b) ==> r != a * b
  {
    Wrap(a * b)
  }
}
