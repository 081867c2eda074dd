/** `BsonTimestamp` (BsonTimestamp.kt): one 64-bit value holding the seconds since the epoch in
    its high 32 bits and an ordinal within that second in its low 32 bits. */
module BsonTimestamps {
  import opened Ints
  import opened Bson

  /** `time`: `(value shr 32).toInt()`. An arithmetic shift by 32 is floor division by 2^32. */
  function Time(value: i64): (r: i32)
    ensures r == value / TWO_32
  {
    ToInt32(value / TWO_32)
  }

  /** `inc`: `value.toInt()`, the low 32 bits read as a signed Int. */
  function Inc(value: i64): (r: i32)
    ensures (r - value) % TWO_32 == 0
  {
    ToInt32(value)
  }

  /** The value a pair of parts stands for. BsonTimestamp.kt defines only the two getters; the
      formula `(time.toLong() shl 32) or (inc.toLong() and 0xFFFFFFFF)` is that of the
      `BsonTimestamp(seconds, increment)` constructor of the Java driver's `org.bson.BsonTimestamp`,
      which the class names as its counterpart. The shifted time has no low bits set, so the `or`
      is an addition. */
  function Compose(time: i32, inc: i32): i64 {
    time * TWO_32 + inc % TWO_32
  }

  /** `equals`: `other is BsonTimestamp && other.value == value`. */
  function Equals(value: i64, other: Bson): (r: bool)
    ensures r <==> other == Timestamp(value)
  {
    other.Timestamp? && other.value == value
  }

  /** `hashCode`: the hash of the Long value. */
  function HashCode(value: i64): i32 {
    LongHash(value)
  }

  /** The value is recoverable from its parts. */
  lemma ComposeParts(value: i64)
    ensures Compose(Time(value), Inc(value)) == value
  {
    var t := value / TWO_32;
    assert Inc(value) % TWO_32 == value % TWO_32;
    assert value == t * TWO_32 + value % TWO_32;
  }

  /** Each part is recoverable from the value. */
  lemma PartsOfCompose(time: i32, inc: i32)
    ensures Time(Compose(time, inc)) == time
    ensures Inc(Compose(time, inc)) == inc
  {
    var v := Compose(time, inc);
    var low := inc % TWO_32;
    assert 0 <= low < TWO_32;
    assert v / TWO_32 == time;
    assert (Inc(v) - inc) % TWO_32 == 0;
  }

  /** Two timestamps are equal exactly when their values are, and equal ones hash equally. */
  lemma EqualsIffSameValue(a: i64, b: i64)
    ensures Equals(a, Timestamp(b)) <==> a == b
    ensures Equals(a, Timestamp(b)) ==> HashCode(a) == HashCode(b)
  {
  }

  /** Equal parts mean equal timestamps: the pair (time, inc) determines the value. */
  lemma PartsDetermineValue(a: i64, b: i64)
    requires Time(a) == Time(b) && Inc(a) == Inc(b)
    ensures a == b
  {
    ComposeParts(a);
    ComposeParts(b);
  }
}
