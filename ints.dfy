/** Kotlin's fixed-width integers and the two's-complement conversions between them. */
module Ints {

  const TWO_7: int := 0x80
  const TWO_8: int := 0x100
  const TWO_31: int := 0x8000_0000
  const TWO_32: int := 0x1_0000_0000
  const TWO_63: int := 0x8000_0000_0000_0000
  const TWO_64: int := 0x1_0000_0000_0000_0000

  /** Kotlin `Byte`. */
  type i8 = x: int | -0x80 <= x < 0x80
  /** An unsigned byte, as the bytes of an ObjectId are read. */
  type u8 = x: int | 0 <= x < 0x100
  /** Kotlin `Int`. */
  type i32 = x: int | -0x8000_0000 <= x < 0x8000_0000
  /** Kotlin `Long`. */
  type i64 = x: int | -0x8000_0000_0000_0000 <= x < 0x8000_0000_0000_0000

  /** `x.toInt()` on a Long, or 32-bit wrapping arithmetic on Ints: the low 32 bits of `x`,
      read as a signed number. */
  function ToInt32(x: int): (r: i32)
    ensures (r - x) % TWO_32 == 0
    ensures -TWO_31 <= x < TWO_31 ==> r == x
  {
    var low := x % TWO_32;
    if low < TWO_31 then low else low - TWO_32
  }

  /** The unsigned reading of a signed byte (`b.toInt() and 0xFF`). */
  function Unsigned(b: i8): (r: u8)
    ensures (r - b) % TWO_8 == 0
  {
    if b < 0 then b + TWO_8 else b
  }

  /** The signed reading of an unsigned byte (`x.toByte()`). */
  function Signed(u: u8): (r: i8)
    ensures Unsigned(r) == u
  {
    if u < TWO_7 then u else u - TWO_8
  }

  /** Bitwise exclusive or of two non-negative numbers. */
  function Xor(a: nat, b: nat): nat
    decreases a + b
  {
    if a == 0 then b
    else if b == 0 then a
    else 2 * Xor(a / 2, b / 2) + (if a % 2 != b % 2 then 1 else 0)
  }

  /** `Long.hashCode()`: `(value xor (value ushr 32)).toInt()`. Only the low 32 bits survive
      `toInt()`, so this is the low half of `value` xor its (unsigned) high half. */
  function LongHash(v: i64): i32 {
    ToInt32(Xor(v % TWO_32, v % TWO_64 / TWO_32))
  }

  /** A Long that holds a non-negative Int hashes to that Int. */
  lemma LongHashOfSmall(v: i64)
    requires 0 <= v < TWO_31
    ensures LongHash(v) == v
  {
    assert v % TWO_32 == v && v % TWO_64 / TWO_32 == 0;
  }
}
