/** The JVM's 32-bit signed `Int` and its wrap-around addition. */
module JvmInt {

  const TWO_TO_THE_32: int := 0x1_0000_0000
  const INT32_MIN: int := -0x8000_0000
  const INT32_MAX: int := 0x7FFF_FFFF

  newtype int32 = x: int | -0x8000_0000 <= x < 0x8000_0000

  /** Reduces an unbounded integer to the int32 the JVM stores for it:
      the unique representable value congruent to x modulo 2^32. */
  function Wrap32(x: int): (r: int32)
    ensures (r as int - x) % TWO_TO_THE_32 == 0
    ensures INT32_MIN <= x <= INT32_MAX ==> r as int == x
  {
    ((x - INT32_MIN) % TWO_TO_THE_32 + INT32_MIN) as int32
  }

  /** `a + b` on two Kotlin Ints (two's-complement, wraps on overflow). */
  function AddInt32(a: int32, b: int32): (r: int32)
    ensures INT32_MIN <= a as int + b as int <= INT32_MAX ==> r as int == a as int + b as int
    ensures (r as int - (a as int + b as int)) % TWO_TO_THE_32 == 0
  {
    Wrap32(a as int + b as int)
  }

  /** Wrapping twice is wrapping once: the stock of a row that is topped up
      again and again ends at the wrap of the plain sum. */
  lemma WrapAddAssociates(x: int, y: int)
    ensures Wrap32(Wrap32(x) as int + y) == Wrap32(x + y)
  {
    var w := Wrap32(x) as int;
    assert (w - x) % TWO_TO_THE_32 == 0;
    var k := (w - x) / TWO_TO_THE_32;
    assert w == x + k * TWO_TO_THE_32;
    assert ((w + y) - INT32_MIN) == ((x + y) - INT32_MIN) + k * TWO_TO_THE_32;
  }
}
