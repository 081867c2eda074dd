/** The integer members of `BsonNumber` (BsonNumber.kt): `BsonInt32` and `BsonInt64`. */
module BsonNumbers {
  import opened Ints
  import opened Wrappers
  import opened Bson

  /** The integer numbers; Double and Decimal128 are opaque in this model. */
  predicate IsInteger(n: Bson) {
    n.Int32? || n.Int64?
  }

  /** Any `BsonNumber`: the integers, and the opaque Double and Decimal128 elements. */
  predicate IsNumber(n: Bson) {
    IsInteger(n) || (n.Opaque? && (n.kind.Double? || n.kind.Decimal128?))
  }

  /** `toInt()`: an Int32 gives its value, an Int64 its low 32 bits in two's complement. */
  function ToInt(n: Bson): (r: i32)
    requires IsInteger(n)
    ensures n.Int32? ==> r == n.i
    ensures n.Int64? ==> (r - n.l) % TWO_32 == 0
    ensures n.Int64? && -TWO_31 <= n.l < TWO_31 ==> r == n.l
  {
    if n.Int32? then n.i
    else ToInt32(n.l)
  }

  /** `toLong()`: the value widened (or kept) without change. */
  function ToLong(n: Bson): (r: i64)
    requires IsInteger(n)
    ensures r == if n.Int32? then n.i else n.l
  {
    if n.Int32? then n.i else n.l
  }

  /** `BsonInt32.equals(other)`: `other is BsonInt32 && other.value == value`. */
  function Int32Equals(value: i32, other: Bson): (r: bool)
    ensures r <==> other == Int32(value)
  {
    other.Int32? && other.i == value
  }

  /** `BsonInt64.equals(other)`: `other is BsonInt64 && other.value == value`. */
  function Int64Equals(value: i64, other: Bson): (r: bool)
    ensures r <==> other == Int64(value)
  {
    other.Int64? && other.l == value
  }

  /** `hashCode()`: an Int32 hashes to its value, an Int64 as a Kotlin Long. */
  function HashCode(n: Bson): (r: i32)
    requires IsInteger(n)
    ensures n.Int32? ==> r == n.i
  {
    if n.Int32? then n.i else LongHash(n.l)
  }

  /** `Int?.bson` */
  function IntBson(v: Option<i32>): (r: Bson)
    ensures v.None? ==> r == Null
    ensures v.Some? ==> r.Int32? && r.i == v.value
  {
    if v.Some? then Int32(v.value) else Null
  }

  /** `Long?.bson` */
  function LongBson(v: Option<i64>): (r: Bson)
    ensures v.None? ==> r == Null
    ensures v.Some? ==> r.Int64? && r.l == v.value
  {
    if v.Some? then Int64(v.value) else Null
  }

  /** The `equals` of each class is the model's value equality on the same kind of element. */
  lemma EqualsIsValueEquality(n: Bson, other: Bson)
    ensures n.Int32? ==> (Int32Equals(n.i, other) <==> other == n)
    ensures n.Int64? ==> (Int64Equals(n.l, other) <==> other == n)
  {
  }

  /** Equality is type-strict: an Int32 never equals an Int64, even of the same value. */
  lemma TypeStrictEquality(x: i32)
    ensures !Int32Equals(x, Int64(x)) && !Int64Equals(x, Int32(x))
  {
  }

  /** Equal numbers hash equally. */
  lemma EqualsHash(n: Bson, other: Bson)
    requires IsInteger(n) && IsInteger(other)
    requires n.Int32? ==> Int32Equals(n.i, other)
    requires n.Int64? ==> Int64Equals(n.l, other)
    ensures HashCode(n) == HashCode(other)
  {
  }

  /** Widening an Int to a Long and truncating it back gives the Int:
      `BsonInt64(BsonInt32(x).toLong()).toInt() == x`. */
  lemma WidenThenTruncate(x: i32)
    ensures ToInt(Int64(ToLong(Int32(x)))) == x
  {
  }

  /** Truncation keeps exactly the low 32 bits: two Longs that differ by a multiple of 2^32
      truncate to the same Int. */
  lemma TruncateLowBits(a: i64, b: i64)
    requires (a - b) % TWO_32 == 0
    ensures ToInt(Int64(a)) == ToInt(Int64(b))
  {
    var ra := ToInt(Int64(a));
    var rb := ToInt(Int64(b));
    assert (ra - rb) % TWO_32 == 0;
  }

  /** A small non-negative number hashes the same whichever width holds it. */
  lemma HashAgreesOnSmall(x: i32)
    requires 0 <= x
    ensures HashCode(Int64(x)) == HashCode(Int32(x))
  {
    LongHashOfSmall(x);
  }
}
