/** ObjectId as the bson layer sees it (module-bsonkt ObjectId.kt): twelve bytes, written as
    24 hexadecimal digits. The JVM class that implements it belongs to the MongoDB driver; this
    module states the behaviour its documentation promises. */
module ObjectIds {
  import opened Ints
  import opened Wrappers

  /** The number of bytes in an ObjectId. */
  const OBJECT_ID_LENGTH: nat := 12

  type Bytes12 = s: seq<u8> | |s| == OBJECT_ID_LENGTH
    witness [0, 0, 0, 0, 0, 0, 0, 0, 0, 0, 0, 0]

  /** An ObjectId: four bytes of timestamp, five bytes of process-unique randomness and a
      three-byte counter, all big-endian. */
  datatype ObjectId = ObjectId(bytes: Bytes12)

  predicate IsHexDigit(c: char) {
    '0' <= c <= '9' || 'a' <= c <= 'f' || 'A' <= c <= 'F'
  }

  /** `ObjectId.isValid(hexString)`: the string could be an ObjectId, that is, it is 24
      hexadecimal digits (either case). */
  predicate IsValid(s: string) {
    |s| == 2 * OBJECT_ID_LENGTH && forall i | 0 <= i < |s| :: IsHexDigit(s[i])
  }

  function HexValue(c: char): (r: nat)
    requires IsHexDigit(c)
    ensures r < 16
  {
    if '0' <= c <= '9' then c as int - '0' as int
    else if 'a' <= c <= 'f' then c as int - 'a' as int + 10
    else c as int - 'A' as int + 10
  }

  /** The lower-case digit for a value below 16. */
  function HexDigit(n: nat): (c: char)
    requires n < 16
    ensures IsHexDigit(c) && HexValue(c) == n
    ensures !('A' <= c <= 'F')
  {
    if n < 10 then ('0' as int + n) as char else ('a' as int + n - 10) as char
  }

  /** A hex digit in lower case (the form `toHexString` prints). */
  function LowerHex(c: char): (r: char)
    requires IsHexDigit(c)
    ensures IsHexDigit(r) && HexValue(r) == HexValue(c)
  {
    if 'A' <= c <= 'F' then (c as int - 'A' as int + 'a' as int) as char else c
  }

  /** `toHexString()`: two lower-case digits per byte, high nibble first. */
  function ToHexString(o: ObjectId): (s: string)
    ensures |s| == 24
  {
    seq(2 * OBJECT_ID_LENGTH, i requires 0 <= i < 2 * OBJECT_ID_LENGTH =>
      if i % 2 == 0 then HexDigit(o.bytes[i / 2] / 16) else HexDigit(o.bytes[i / 2] % 16))
  }

  /** The bytes that a valid hex string spells. */
  function ParseHex(s: string): (b: Bytes12)
    requires IsValid(s)
  {
    seq(OBJECT_ID_LENGTH, i requires 0 <= i < OBJECT_ID_LENGTH =>
      HexValue(s[2 * i]) * 16 + HexValue(s[2 * i + 1]))
  }

  /** `ObjectId(hexString)`: throws IllegalArgumentException unless the string is a valid hex
      representation, and otherwise prints back as the string in lower case. */
  function FromHexString(s: string): (r: Result<ObjectId>)
    ensures r.Ok? <==> IsValid(s)
    ensures r.Ok? ==> ToHexString(r.value) == seq(|s|, i requires 0 <= i < |s| => LowerHex(s[i]))
  {
    if IsValid(s) then
      var o := ObjectId(ParseHex(s));
      HexOfParse(s);
      Ok(o)
    else
      Err(IllegalArgument("invalid hexadecimal representation of an ObjectId"))
  }

  /** `String.toObjectId()` (ObjectId.kt:100-102): the string constructor on the receiver. It
      fails exactly for a string that is not a valid hex representation, and otherwise holds
      the bytes the string spells. */
  function StringToObjectId(s: string): (r: Result<ObjectId>)
    ensures r.Err? <==> !IsValid(s)
    ensures r.Ok? ==> IsValid(s) && r.value.bytes == ParseHex(s)
  {
    FromHexString(s)
  }

  /** `String.toObjectIdOrNull()` (ObjectId.kt:110-115): the ObjectId when the string is valid,
      `null` otherwise. */
  function FromHexStringOrNull(s: string): (r: Option<ObjectId>)
    ensures r.None? <==> !IsValid(s)
    ensures r.Some? ==> StringToObjectId(s) == Ok(r.value)
  {
    if IsValid(s) then Some(ObjectId(ParseHex(s))) else None
  }

  /** `ObjectId(bytes)`: throws IllegalArgumentException unless there are exactly 12 bytes. */
  function FromByteArray(bytes: seq<i8>): (r: Result<ObjectId>)
    ensures r.Ok? <==> |bytes| == OBJECT_ID_LENGTH
    ensures r.Ok? ==> forall i | 0 <= i < |bytes| :: Signed(r.value.bytes[i]) == bytes[i]
  {
    if |bytes| == OBJECT_ID_LENGTH then
      Ok(ObjectId(seq(OBJECT_ID_LENGTH, i requires 0 <= i < OBJECT_ID_LENGTH => Unsigned(bytes[i]))))
    else
      Err(IllegalArgument("state should be: bytes has length of 12"))
  }

  /** `toByteArray()`: the twelve bytes as Kotlin (signed) bytes. */
  function ToByteArray(o: ObjectId): (bytes: seq<i8>)
    ensures |bytes| == OBJECT_ID_LENGTH
  {
    seq(OBJECT_ID_LENGTH, i requires 0 <= i < OBJECT_ID_LENGTH => Signed(o.bytes[i]))
  }

  /** The unsigned big-endian number the bytes spell. */
  function BigEndian(bytes: seq<u8>): (n: nat)
    ensures n < Pow256(|bytes|)
  {
    if bytes == [] then 0
    else BigEndian(bytes[..|bytes| - 1]) * 0x100 + bytes[|bytes| - 1] as int
  }

  function Pow256(k: nat): (p: nat)
    ensures p > 0
  {
    if k == 0 then 1 else 0x100 * Pow256(k - 1)
  }

  /** The `timestamp` getter: the first four bytes, big-endian, read as a signed Int. */
  function Timestamp(o: ObjectId): i32 {
    ToInt32(BigEndian(o.bytes[..4]))
  }

  /** `ObjectId(timestamp, counter)`: throws IllegalArgumentException when the high-order byte
      of the counter is not zero. The five middle bytes come from the driver's random source
      and are a parameter here. */
  function FromTimestampAndCounter(timestamp: i32, counter: i32, random: seq<u8>): (r: Result<ObjectId>)
    requires |random| == 5
    ensures r.Ok? <==> 0 <= counter < 0x100_0000
    ensures r.Ok? ==> Timestamp(r.value) == timestamp && r.value.bytes[4..9] == random
  {
    if 0 <= counter < 0x100_0000 then
      var t := timestamp % TWO_32;
      var bytes := [t / 0x100_0000, t / 0x1_0000 % 0x100, t / 0x100 % 0x100, t % 0x100]
        + random + [counter / 0x1_0000, counter / 0x100 % 0x100, counter % 0x100];
      BigEndianTimestamp(timestamp, bytes);
      Ok(ObjectId(bytes))
    else
      Err(IllegalArgument("the counter must be between 0 and 16777215 (it must fit in three bytes)"))
  }

  lemma BigEndianTimestamp(timestamp: i32, bytes: seq<u8>)
    requires |bytes| >= 4
    requires bytes[0] == timestamp % TWO_32 / 0x100_0000
    requires bytes[1] == timestamp % TWO_32 / 0x1_0000 % 0x100
    requires bytes[2] == timestamp % TWO_32 / 0x100 % 0x100
    requires bytes[3] == timestamp % TWO_32 % 0x100
    ensures ToInt32(BigEndian(bytes[..4])) == timestamp
  {
    var t := timestamp % TWO_32;
    BigEndianFour(bytes[..4]);
    ByteDecomposition(t);
    if timestamp < 0 {
      assert t == timestamp + TWO_32;
    } else {
      assert t == timestamp;
    }
  }

  /** Four bytes read most significant first. */
  lemma BigEndianFour(bytes: seq<u8>)
    requires |bytes| == 4
    ensures BigEndian(bytes) == ((bytes[0] as int * 0x100 + bytes[1] as int) * 0x100 + bytes[2] as int) * 0x100 + bytes[3] as int
  {
    assert bytes[..3][..2] == bytes[..2] && bytes[..2][..1] == bytes[..1] && bytes[..1][..0] == [];
    assert BigEndian(bytes[..1]) == bytes[0] as int;
    assert BigEndian(bytes[..2]) == bytes[0] as int * 0x100 + bytes[1] as int;
    assert BigEndian(bytes[..3]) == (bytes[0] as int * 0x100 + bytes[1] as int) * 0x100 + bytes[2] as int;
    assert bytes[..4] == bytes;
  }

  /** A 32-bit value is the sum of its four bytes' weighted values. */
  lemma ByteDecomposition(t: int)
    requires 0 <= t < TWO_32
    ensures ((t / 0x100_0000 * 0x100 + t / 0x1_0000 % 0x100) * 0x100 + t / 0x100 % 0x100) * 0x100 + t % 0x100 == t
  {
    var a := t / 0x100;
    var b := a / 0x100;
    var c := b / 0x100;
    assert t / 0x1_0000 == b;
    assert t / 0x100_0000 == c;
    assert b == c * 0x100 + b % 0x100;
    assert a == b * 0x100 + a % 0x100;
  }

  /** Printing then parsing gives back the same ObjectId: `ObjectId(o.toHexString()) == o`. */
  lemma HexRoundTrip(o: ObjectId)
    ensures IsValid(ToHexString(o))
    ensures FromHexString(ToHexString(o)) == Ok(o)
  {
    var s := ToHexString(o);
    assert IsValid(s);
    forall i | 0 <= i < OBJECT_ID_LENGTH
      ensures ParseHex(s)[i] == o.bytes[i]
    {
      assert s[2 * i] == HexDigit(o.bytes[i] / 16);
      assert s[2 * i + 1] == HexDigit(o.bytes[i] % 16);
    }
    assert ParseHex(s) == o.bytes;
  }

  /** Parsing then printing gives back the string, in lower case. */
  lemma HexOfParse(s: string)
    requires IsValid(s)
    ensures ToHexString(ObjectId(ParseHex(s))) == seq(|s|, i requires 0 <= i < |s| => LowerHex(s[i]))
  {
    var b := ParseHex(s);
    var t := ToHexString(ObjectId(b));
    forall i | 0 <= i < |s|
      ensures t[i] == LowerHex(s[i])
    {
      var k := i / 2;
      assert b[k] == HexValue(s[2 * k]) * 16 + HexValue(s[2 * k + 1]);
      assert b[k] / 16 == HexValue(s[2 * k]);
      assert b[k] % 16 == HexValue(s[2 * k + 1]);
      LowerHexIsHexDigit(s[i]);
    }
  }

  /** The lower-case form of a digit is the digit `HexDigit` prints for its value. */
  lemma LowerHexIsHexDigit(c: char)
    requires IsHexDigit(c)
    ensures LowerHex(c) == HexDigit(HexValue(c))
  {
  }

  /** The byte array the ObjectId prints is one the byte-array constructor accepts, and it
      gives back the same ObjectId. */
  lemma ByteArrayRoundTrip(o: ObjectId)
    ensures FromByteArray(ToByteArray(o)) == Ok(o)
  {
    var r := FromByteArray(ToByteArray(o));
    assert r.value.bytes == o.bytes;
  }
}
