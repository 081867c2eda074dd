/** `BsonBinary` (BsonBinary.kt): a subtype byte and a byte array, compared and hashed by
    content rather than by array identity. */
module BsonBinaries {
  import opened Ints
  import opened Bson

  /** `ByteArray.contentEquals`: same length and the same byte at every index. */
  function ContentEquals(a: seq<i8>, b: seq<i8>): (r: bool)
    ensures r <==> |a| == |b| && forall i | 0 <= i < |a| :: a[i] == b[i]
  {
    if |a| != |b| then false
    else if a == [] then true
    else a[0] == b[0] && ContentEquals(a[1..], b[1..])
  }

  /** `ByteArray.contentHashCode()`: starting from 1, `h = 31 * h + byte` in wrapping 32-bit
      arithmetic, over the bytes in order. */
  function ContentHashCode(data: seq<i8>): i32 {
    if data == [] then 1
    else ToInt32(31 * ContentHashCode(data[..|data| - 1]) + data[|data| - 1])
  }

  /** `equals`: `other is BsonBinary`, same subtype, `data.contentEquals(other.data)`. */
  function Equals(subtype: i8, data: seq<i8>, other: Bson): (r: bool)
    ensures r <==> other == Binary(subtype, data)
  {
    other.Binary? && subtype == other.subtype && ContentEquals(data, other.data)
  }

  /** The value `hashCode` computes: `31 * subtype + contentHashCode(data)`, wrapped to 32 bits. */
  function Hash(subtype: i8, data: seq<i8>): (r: i32)
    ensures (r - (31 * subtype + ContentHashCode(data))) % TWO_32 == 0
  {
    ToInt32(31 * subtype + ContentHashCode(data))
  }

  /** `hashCode()`, as the source computes it: a local `result` set to the subtype and then
      updated once. */
  method HashCode(subtype: i8, data: seq<i8>) returns (result: i32)
    ensures result == Hash(subtype, data)
  {
    result := subtype;
    result := ToInt32(31 * result + ContentHashCode(data));
  }

  /** Content equality is value equality, even when the arrays are different objects. */
  lemma EqualsIsValueEquality(subtype: i8, data: seq<i8>, other: Bson)
    ensures Equals(subtype, data, other) <==> other == Binary(subtype, data)
  {
    if other.Binary? && ContentEquals(data, other.data) {
      assert data == other.data;
    }
  }

  /** A different length, or any differing byte, makes two binaries unequal. */
  lemma DifferenceMeansUnequal(subtype: i8, a: seq<i8>, b: seq<i8>, i: nat)
    requires |a| != |b| || (i < |a| && i < |b| && a[i] != b[i])
    ensures !Equals(subtype, a, Binary(subtype, b))
  {
  }

  /** Equal binaries have equal hash codes. */
  lemma EqualsHash(subtype: i8, data: seq<i8>, other: Bson)
    requires Equals(subtype, data, other)
    ensures Hash(subtype, data) == Hash(other.subtype, other.data)
  {
    EqualsIsValueEquality(subtype, data, other);
  }

  function Pow31(k: nat): nat {
    if k == 0 then 1 else 31 * Pow31(k - 1)
  }

  /** The documented closed form of the array hash, before wrapping:
      `31^n + data[0] * 31^(n-1) + ... + data[n-1]`. */
  function HashPolynomial(data: seq<i8>): int {
    Pow31(|data|) + WeightedSum(data)
  }

  function WeightedSum(data: seq<i8>): int {
    if data == [] then 0 else data[0] * Pow31(|data| - 1) + WeightedSum(data[1..])
  }

  lemma {:induction false} WeightedSumAppend(data: seq<i8>, b: i8)
    ensures WeightedSum(data + [b]) == 31 * WeightedSum(data) + b
  {
    if data != [] {
      assert (data + [b])[1..] == data[1..] + [b];
      WeightedSumAppend(data[1..], b);
      assert Pow31(|data|) == 31 * Pow31(|data| - 1);
    }
  }

  lemma MultipleOfModulus(x: int, y: int, c: int)
    requires (x - y) % TWO_32 == 0
    ensures (c * x - c * y) % TWO_32 == 0
  {
    var k := (x - y) / TWO_32;
    assert x - y == k * TWO_32;
    assert c * x - c * y == (c * k) * TWO_32;
  }

  /** The wrapping computation agrees, modulo 2^32, with the closed form: the hash is
      determined by every byte and its position. */
  lemma {:induction false} ContentHashPolynomial(data: seq<i8>)
    ensures (ContentHashCode(data) - HashPolynomial(data)) % TWO_32 == 0
  {
    if data != [] {
      var init := data[..|data| - 1];
      var b := data[|data| - 1];
      assert init + [b] == data;
      ContentHashPolynomial(init);
      WeightedSumAppend(init, b);
      var h := ContentHashCode(init);
      var p := HashPolynomial(init);
      assert HashPolynomial(data) == 31 * p + b;
      assert ContentHashCode(data) == ToInt32(31 * h + b);
      MultipleOfModulus(h, p, 31);
      SumOfMultiples(ContentHashCode(data) - (31 * h + b), 31 * h - 31 * p);
    }
  }

  lemma SumOfMultiples(u: int, v: int)
    requires u % TWO_32 == 0 && v % TWO_32 == 0
    ensures (u + v) % TWO_32 == 0
  {
    var k := u / TWO_32;
    var l := v / TWO_32;
    assert u + v == (k + l) * TWO_32;
  }
}
