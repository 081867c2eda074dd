# mongokt builders in Dafny

This project models the value-building core of mongokt, a Kotlin toolkit for MongoDB:

- the BSON builder DSL of `module-bsonkt`: `BsonDocument { "name" by value }` and
  `BsonArray { by(value) }`, with every typed `by` overload, `byAll` and `flatBy`;
- the BSON value classes it builds on: `BsonInt32`/`BsonInt64` (`BsonNumber`),
  `BsonTimestamp`, `BsonBinary`, `ObjectId` and `ID<T>`;
- the three builders of `module-mongokt` that sit on top of the DSL: the update operators
  (`Updates.kt`), the query filters (`filters/`) and the aggregation-expression builder
  (`expr/`).

A document builder is a Kotlin `MutableMap` (a `LinkedHashMap`). The model keeps it as an
ordered list of fields with distinct names. An assignment to a new name appends a field. An
assignment to a name already present replaces the value where it stands. A builder block is
represented by the assignments it performs, in order. `Document(block)` is the document
those assignments build on an empty map.

The builder DSL, the update operators and the filters change a builder in place, so they are
methods of `DocumentBuilder` and `ArrayBuilder` classes. Each method states the builder's
new contents as a function of the old. The `forEach` loops that fill arrays are methods with
`while` loops, each proved equal to a specification function. `BsonNumber`, `BsonTimestamp`,
`BsonBinary`, `ObjectId`, `ID` and the expression builder are pure, so they are datatypes,
functions and lemmas.

Kotlin's fixed-width integers are subset types of `int` (`i8`, `u8`, `i32`, `i64`). Every
truncation and wrap-around is written out with `ToInt32`, `Signed` and `Unsigned`. Kotlin
`null` is `Option.None`. A thrown `IllegalArgumentException` is `Result.Err`.

Source paths below are relative to the repository root.

## Model

| member | source | states |
|---|---|---|
| Bson.Put | module-bsonkt/src/commonMain/kotlin/BsonDocumentLike.kt:34-37 | `map[name] = value`: afterwards `name` holds `value`, every other name keeps its value, and the key order grows by `name` only when it was absent |
| Bson.PutAll | module-bsonkt/src/commonMain/kotlin/BsonDocumentLike.kt:244-246 | `map += other`: a name holds its last assigned value if it was assigned, else its old value; no existing key is lost |
| Bson.Build | module-bsonkt/src/commonMain/kotlin/BsonDocumentLike.kt:37-44 | the map a block builds on an empty builder has distinct keys, each holding the value of the block's last assignment to it |
| Bson.PutUnique | module-bsonkt/src/commonMain/kotlin/BsonDocumentLike.kt:34-37 | a write keeps the keys of a map distinct |
| Bson.PutAllUnique | module-bsonkt/src/commonMain/kotlin/BsonDocumentLike.kt:244-246 | any sequence of writes keeps the keys distinct |
| Bson.PutAbsent | module-bsonkt/src/commonMain/kotlin/BsonDocumentLike.kt:34-37 | writing an absent key appends one field at the end |
| Bson.PutPresent | module-bsonkt/src/commonMain/kotlin/BsonDocumentLike.kt:34-37 | writing a present key replaces its value in place and leaves every other field where it was |
| Bson.PutPut | module-bsonkt/src/commonMain/kotlin/BsonDocumentLike.kt:34-37 | writing a key twice equals writing only the second value |
| Bson.PutCommutes | module-bsonkt/src/commonMain/kotlin/BsonDocumentLike.kt:34-37 | writes to different keys can be reordered without changing any lookup |
| Bson.BuildDistinct | module-bsonkt/src/commonMain/kotlin/BsonDocumentLike.kt:37-44 | a block that assigns each name once builds exactly its own fields, in order |
| Bson.LastGetUnique | module-bsonkt/src/commonMain/kotlin/BsonDocumentLike.kt:244-246 | in a map the last assignment to a key is the only one, so `+=` of a map copies its lookups |
| Bson.GetNames | module-bsonkt/src/commonMain/kotlin/BsonDocumentLike.kt:27 | a key has a value exactly when it is among the map's keys |
| Bson.OrNull | module-bsonkt/src/commonMain/kotlin/BsonDocumentLike.kt:180-183 | `value ?: null.bson`: null becomes `BsonNull`, anything else is kept |
| Bson.StrOrNull | module-bsonkt/src/commonMain/kotlin/BsonDocumentLike.kt:285-287 | `String?.bson`: a String element of the same text, or `BsonNull` |
| Bson.BoolOrNull | module-bsonkt/src/commonMain/kotlin/BsonDocumentLike.kt:298-300 | `Boolean?.bson`: a Boolean element of the same value, or `BsonNull` |
| Bson.ObjIdOrNull | module-bsonkt/src/commonMain/kotlin/BsonObjectId.kt:49 | `ObjectId?.bson`: an ObjectId element of that id, or `BsonNull` |
| Bson.OpaqueOrNull | module-bsonkt/src/commonMain/kotlin/BsonNumber.kt:178-193 | `Double?.bson`, `Decimal128?.bson` (and `Instant?.bson`): an element of that kind, or `BsonNull` |
| Bson.Dotted | module-bsonkt/src/commonMain/kotlin/BsonDocumentLike.kt:262 | `"${prefix}.${name}"` starts with the prefix followed by a dot |
| Bson.Flatten | module-bsonkt/src/commonMain/kotlin/BsonDocumentLike.kt:261-263 | the entries `flatBy` writes: one per map entry, in order, with the dotted key and the same value |
| Bson.DottedInjective | module-bsonkt/src/commonMain/kotlin/BsonDocumentLike.kt:262 | under one prefix, different names give different dotted keys |
| Bson.FlattenNames | module-bsonkt/src/commonMain/kotlin/BsonDocumentLike.kt:259-264 | the dotted keys of a map are distinct and never equal the prefix |
| DocumentBuilders.Document | module-bsonkt/src/commonMain/kotlin/BsonDocumentLike.kt:169 | `document(block)`: a document whose keys are distinct and each hold the block's last value for that key |
| DocumentBuilders.DocumentOfDistinct | module-bsonkt/src/commonMain/kotlin/BsonDocumentLike.kt:169 | a block naming each key once builds exactly its fields, in order |
| DocumentBuilders.DocumentOfOne | module-bsonkt/src/commonMain/kotlin/BsonDocumentLike.kt:169 | a one-assignment block builds the one-field document |
| DocumentBuilders.OneField | module-bsonkt/src/commonMain/kotlin/BsonDocumentLike.kt:253-255 | `{name: value}` has the one key `name` holding `value` |
| DocumentBuilders.Array | module-bsonkt/src/commonMain/kotlin/BsonDocumentLike.kt:147 | `array(vararg elements)`: an array of exactly those elements, in order |
| DocumentBuilders.IdsBson | module-bsonkt/src/commonMain/kotlin/BsonDocumentLike.kt:395 | `value.map { it.bson }`: one element per id, the i-th being the i-th id's element |
| DocumentBuilders.DocumentBuilder.constructor | module-bsonkt/src/commonMain/kotlin/BsonDocumentLike.kt:86 | `mutableBsonDocumentOf()`: an empty map |
| DocumentBuilders.DocumentBuilder.Set | module-bsonkt/src/commonMain/kotlin/BsonDocumentLike.kt:34-37 | `builder[name] = value`: the new contents are `Put` of the old, and keys stay distinct |
| DocumentBuilders.DocumentBuilder.ByElement | module-bsonkt/src/commonMain/kotlin/BsonDocumentLike.kt:180-183 | `name by BsonElement?`: the key is written with the element, or with `BsonNull` for null |
| DocumentBuilders.DocumentBuilder.ByDocument | module-bsonkt/src/commonMain/kotlin/BsonDocumentLike.kt:192-223 | `name by BsonDocument?` / `BsonDocumentLike?`: the key holds the nested document, or `BsonNull` |
| DocumentBuilders.DocumentBuilder.ByArray | module-bsonkt/src/commonMain/kotlin/BsonDocumentLike.kt:204-237 | `name by BsonArray?` / `BsonArrayLike?`: the key holds the nested array, or `BsonNull` |
| DocumentBuilders.DocumentBuilder.ByAll | module-bsonkt/src/commonMain/kotlin/BsonDocumentLike.kt:244-246 | `byAll(map)`: the contents become `PutAll` of the old contents and the map's entries |
| DocumentBuilders.DocumentBuilder.ByBlock | module-bsonkt/src/commonMain/kotlin/BsonDocumentLike.kt:253-255 | `name by block`: the key holds the document the block builds, replacing any earlier value |
| DocumentBuilders.DocumentBuilder.FlatBy | module-bsonkt/src/commonMain/kotlin/BsonDocumentLike.kt:259-264 | `prefix flatBy map`: `BsonNull` under the prefix for null; otherwise each entry under its dotted key, in the map's order |
| DocumentBuilders.DocumentBuilder.FlatByBlock | module-bsonkt/src/commonMain/kotlin/BsonDocumentLike.kt:268-272 | `prefix flatBy block`: the entries of the built document under dotted keys |
| DocumentBuilders.DocumentBuilder.ByString | module-bsonkt/src/commonMain/kotlin/BsonDocumentLike.kt:285-287 | `name by String?`: a String element, or `BsonNull` |
| DocumentBuilders.DocumentBuilder.ByBool | module-bsonkt/src/commonMain/kotlin/BsonDocumentLike.kt:298-300 | `name by Boolean?`: a Boolean element, or `BsonNull` |
| DocumentBuilders.DocumentBuilder.ByInt | module-bsonkt/src/commonMain/kotlin/BsonDocumentLike.kt:311-313 | `name by Int?`: an Int32 element, or `BsonNull` |
| DocumentBuilders.DocumentBuilder.ByLong | module-bsonkt/src/commonMain/kotlin/BsonDocumentLike.kt:324-326 | `name by Long?`: an Int64 element, or `BsonNull` |
| DocumentBuilders.DocumentBuilder.ByOpaque | module-bsonkt/src/commonMain/kotlin/BsonDocumentLike.kt:337-409 | `name by Double?` / `Decimal128?` (and `Instant?`): an element of that kind, or `BsonNull` |
| DocumentBuilders.DocumentBuilder.ByObjectId | module-bsonkt/src/commonMain/kotlin/BsonDocumentLike.kt:365-367 | `name by ObjectId?`: an ObjectId element, or `BsonNull` |
| DocumentBuilders.DocumentBuilder.ById | module-bsonkt/src/commonMain/kotlin/BsonDocumentLike.kt:379-381 | `name by AnyID?`: the id's element, or `BsonNull` |
| DocumentBuilders.DocumentBuilder.ByIds | module-bsonkt/src/commonMain/kotlin/BsonDocumentLike.kt:393-396 | `name by List<AnyID>?`: an array of the ids' elements in order, or `BsonNull` |
| DocumentBuilders.NullIsWritten | module-bsonkt/src/commonMain/kotlin/BsonDocumentLike.kt:176-183 | a null argument still writes the key, holding `BsonNull` |
| DocumentBuilders.LastWriteWins | module-bsonkt/src/commonMain/kotlin/BsonDocumentLike.kt:253-255 | assigning a key twice, the second time with a block, leaves only the block's document |
| DocumentBuilders.ByAllEffect | module-bsonkt/src/commonMain/kotlin/BsonDocumentLike.kt:244-246 | after `byAll(map)` each key of the map holds the map's value and every other key is unchanged |
| DocumentBuilders.FlatByEffect | module-bsonkt/src/commonMain/kotlin/BsonDocumentLike.kt:259-264 | after `flatBy` each dotted key holds its entry's value, the prefix itself is untouched, and other keys keep their values |
| DocumentBuilders.WidthPreserved | module-bsonkt/src/commonMain/kotlin/BsonDocumentLike.kt:311-326 | `by(Int)` stores an Int32 and `by(Long)` an Int64, and the two are never equal |
| ArrayBuilders.ArrayBuilder.constructor | module-bsonkt/src/commonMain/kotlin/BsonArrayLike.kt:86 | `mutableBsonArrayOf()`: an empty list |
| ArrayBuilders.ArrayBuilder.Add | module-bsonkt/src/commonMain/kotlin/BsonArrayLike.kt:34-37 | `builder += element`: one element appended at the end |
| ArrayBuilders.ArrayBuilder.ByElement | module-bsonkt/src/commonMain/kotlin/BsonArrayLike.kt:180-183 | `by(BsonElement?)`: appends the element, or `BsonNull` for null |
| ArrayBuilders.ArrayBuilder.ByDocument | module-bsonkt/src/commonMain/kotlin/BsonArrayLike.kt:192-223 | `by(BsonDocument?)` / `by(BsonDocumentLike?)`: appends one nested document, or `BsonNull` |
| ArrayBuilders.ArrayBuilder.ByArray | module-bsonkt/src/commonMain/kotlin/BsonArrayLike.kt:204-237 | `by(BsonArray?)` / `by(BsonArrayLike?)`: appends the array as ONE element, or `BsonNull` |
| ArrayBuilders.ArrayBuilder.ByAll | module-bsonkt/src/commonMain/kotlin/BsonArrayLike.kt:244-246 | `byAll(list)`: appends every element of the list, in order |
| ArrayBuilders.ArrayBuilder.ByBlock | module-bsonkt/src/commonMain/kotlin/BsonArrayLike.kt:253-255 | `by(block)`: appends the document the block builds |
| ArrayBuilders.ArrayBuilder.ByString | module-bsonkt/src/commonMain/kotlin/BsonArrayLike.kt:268-270 | `by(String?)`: appends a String element, or `BsonNull` |
| ArrayBuilders.ArrayBuilder.ByBool | module-bsonkt/src/commonMain/kotlin/BsonArrayLike.kt:281-283 | `by(Boolean?)`: appends a Boolean element, or `BsonNull` |
| ArrayBuilders.ArrayBuilder.ByInt | module-bsonkt/src/commonMain/kotlin/BsonArrayLike.kt:294-296 | `by(Int?)`: appends an Int32 element, or `BsonNull` |
| ArrayBuilders.ArrayBuilder.ByLong | module-bsonkt/src/commonMain/kotlin/BsonArrayLike.kt:307-309 | `by(Long?)`: appends an Int64 element, or `BsonNull` |
| ArrayBuilders.ArrayBuilder.ByOpaque | module-bsonkt/src/commonMain/kotlin/BsonArrayLike.kt:320-391 | `by(Double?)` / `by(Decimal128?)` (and `by(Instant?)`): appends an element of that kind, or `BsonNull` |
| ArrayBuilders.ArrayBuilder.ByObjectId | module-bsonkt/src/commonMain/kotlin/BsonArrayLike.kt:348-350 | `by(ObjectId?)`: appends an ObjectId element, or `BsonNull` |
| ArrayBuilders.ArrayBuilder.ById | module-bsonkt/src/commonMain/kotlin/BsonArrayLike.kt:361-363 | `by(AnyID?)`: appends the id's element, or `BsonNull` |
| ArrayBuilders.ArrayBuilder.ByIds | module-bsonkt/src/commonMain/kotlin/BsonArrayLike.kt:375-378 | `by(List<AnyID>?)`: appends one array of the ids' elements, or `BsonNull` |
| ArrayBuilders.NestVersusSplice | module-bsonkt/src/commonMain/kotlin/BsonArrayLike.kt:204-246 | `by(array)` adds one element holding the list while `byAll(list)` adds the list's elements, and the two differ unless the list has exactly one element |
| ArrayBuilders.Int32s | module-mongokt/src/commonMain/kotlin/filters/_Element.kt:44 | the elements `types.forEach { by(it) }` appends for Ints: one Int32 per value, same order and values |
| ArrayBuilders.Strs | module-mongokt/src/commonMain/kotlin/filters/_Element.kt:51 | the elements appended for Strings: one String element per value, in order |
| ArrayBuilders.Documents | module-mongokt/src/commonMain/kotlin/filters/_Logical.kt:19 | the elements appended for document blocks: the i-th is the document the i-th block builds |
| ArrayBuilders.Docs | module-mongokt/src/commonMain/kotlin/filters/_Logical.kt:25 | the elements appended for documents: each document unchanged, in order |
| ArrayBuilders.ArrayOfInts | module-mongokt/src/commonMain/kotlin/filters/_Element.kt:44 | the `forEach` loop over Ints on a fresh array builder yields exactly `Int32s(xs)` |
| ArrayBuilders.ArrayOfStrings | module-mongokt/src/commonMain/kotlin/filters/_Element.kt:51 | the `forEach` loop over Strings yields exactly `Strs(xs)` |
| ArrayBuilders.ArrayOfBlocks | module-mongokt/src/commonMain/kotlin/filters/_Logical.kt:19 | the `forEach` loop over blocks yields exactly `Documents(blocks)` |
| ArrayBuilders.ArrayOfDocuments | module-mongokt/src/commonMain/kotlin/filters/_Logical.kt:25 | the `forEach` loop over documents yields exactly `Docs(documents)` |
| BsonNumbers.ToInt | module-bsonkt/src/commonMain/kotlin/BsonNumber.kt:66-90 | `toInt()`: an Int32 gives its value; an Int64 gives a value congruent to it modulo 2^32, equal to it when it fits in 32 bits |
| BsonNumbers.ToLong | module-bsonkt/src/commonMain/kotlin/BsonNumber.kt:67-91 | `toLong()`: the value, widened without change |
| BsonNumbers.Int32Equals | module-bsonkt/src/commonMain/kotlin/BsonNumber.kt:71-72 | `BsonInt32.equals`: true exactly for an Int32 element of the same value |
| BsonNumbers.Int64Equals | module-bsonkt/src/commonMain/kotlin/BsonNumber.kt:95-96 | `BsonInt64.equals`: true exactly for an Int64 element of the same value |
| BsonNumbers.IsNumber | module-bsonkt/src/commonMain/kotlin/BsonNumber.kt:27 | the `BsonNumber` interface: the Int32 and Int64 elements and the opaque Double and Decimal128 ones; it is the precondition of `Updates.OperatorField` for `INC`, `MUL`, `MIN` and `MAX` |
| BsonNumbers.HashCode | module-bsonkt/src/commonMain/kotlin/BsonNumber.kt:74-99 | `hashCode()`: an Int32 hashes to its own value; an Int64 goes through `LongHash` (see `EqualsHash` and `HashAgreesOnSmall`) |
| BsonNumbers.IntBson | module-bsonkt/src/commonMain/kotlin/BsonNumber.kt:158-163 | `Int?.bson`: an Int32 of the same value, or `BsonNull` |
| BsonNumbers.LongBson | module-bsonkt/src/commonMain/kotlin/BsonNumber.kt:168-173 | `Long?.bson`: an Int64 of the same value, or `BsonNull` |
| BsonNumbers.EqualsIsValueEquality | module-bsonkt/src/commonMain/kotlin/BsonNumber.kt:71-96 | each class's `equals` holds exactly when the other element is the same kind with the same value |
| BsonNumbers.TypeStrictEquality | module-bsonkt/src/commonMain/kotlin/BsonNumber.kt:71-96 | an Int32 never equals an Int64, even of the same value |
| BsonNumbers.EqualsHash | module-bsonkt/src/commonMain/kotlin/BsonNumber.kt:71-99 | equal numbers have equal hash codes |
| BsonNumbers.WidenThenTruncate | module-bsonkt/src/commonMain/kotlin/BsonNumber.kt:67-90 | widening an Int to a Long and truncating back gives the Int |
| BsonNumbers.TruncateLowBits | module-bsonkt/src/commonMain/kotlin/BsonNumber.kt:90 | `Long.toInt()` depends only on the low 32 bits: Longs that differ by a multiple of 2^32 truncate alike |
| BsonNumbers.HashAgreesOnSmall | module-bsonkt/src/commonMain/kotlin/BsonNumber.kt:74-99 | a non-negative number below 2^31 hashes the same as an Int32 and as an Int64 |
| Ints.ToInt32 | module-bsonkt/src/commonMain/kotlin/BsonNumber.kt:90 | `Long.toInt()`: the result is congruent to the input modulo 2^32 and equals it when it fits |
| Ints.Unsigned | module-bsonkt/src/commonMain/kotlin/ObjectId.kt:54 | the unsigned reading of a byte, as `ObjectId(bytes)` stores each byte, is congruent to it modulo 256; `Ints.Signed` is its inverse for `toByteArray()` |
| Ints.Signed | module-bsonkt/src/commonMain/kotlin/ObjectId.kt:84 | the signed byte whose unsigned reading is the given value |
| Ints.LongHashOfSmall | module-bsonkt/src/commonMain/kotlin/BsonNumber.kt:98-99 | `Long.hashCode()` of a non-negative value below 2^31 is the value itself |
| Ints.LongHash | module-bsonkt/src/commonMain/kotlin/BsonNumber.kt:98-99 | `Long.hashCode()`, `(value xor (value ushr 32)).toInt()`; `LongHashOfSmall` proves it is the identity on non-negative values below 2^31, and `BsonTimestamps.EqualsIffSameValue` and `BsonNumbers.EqualsHash` that equal values hash equally |
| BsonTimestamps.Time | module-bsonkt/src/commonMain/kotlin/BsonTimestamp.kt:35 | `time`: the arithmetic shift of the value right by 32, which always fits in an Int |
| BsonTimestamps.Inc | module-bsonkt/src/commonMain/kotlin/BsonTimestamp.kt:43 | `inc`: congruent to the value modulo 2^32 (its low 32 bits, read as signed) |
| BsonTimestamps.Compose | module-bsonkt/src/commonMain/kotlin/BsonTimestamp.kt:24-43 | the value of a (time, inc) pair, by the formula of `org.bson.BsonTimestamp(seconds, increment)`; `PartsOfCompose` and `ComposeParts` prove it inverse to `Time` and `Inc` |
| BsonTimestamps.Equals | module-bsonkt/src/commonMain/kotlin/BsonTimestamp.kt:45-46 | `equals`: true exactly for a Timestamp element of the same value |
| BsonTimestamps.HashCode | module-bsonkt/src/commonMain/kotlin/BsonTimestamp.kt:48-49 | `hashCode`: the `Long.hashCode()` of the value; `EqualsIffSameValue` proves equal timestamps hash equally |
| BsonTimestamps.ComposeParts | module-bsonkt/src/commonMain/kotlin/BsonTimestamp.kt:26-43 | the value is recovered from `time` and `inc` as `(time shl 32) or (inc and 0xFFFFFFFF)`, the formula of the driver's `org.bson.BsonTimestamp(seconds, increment)` constructor named at :24 |
| BsonTimestamps.PartsOfCompose | module-bsonkt/src/commonMain/kotlin/BsonTimestamp.kt:26-43 | composing a time and an inc and reading the parts back gives the same time and inc |
| BsonTimestamps.EqualsIffSameValue | module-bsonkt/src/commonMain/kotlin/BsonTimestamp.kt:45-49 | `equals` holds exactly for the same value, and equal timestamps hash equally |
| BsonTimestamps.PartsDetermineValue | module-bsonkt/src/commonMain/kotlin/BsonTimestamp.kt:35-43 | two values with the same `time` and `inc` are equal |
| BsonBinaries.ContentEquals | module-bsonkt/src/commonMain/kotlin/BsonBinary.kt:17 | `contentEquals`: same length and the same byte at every index |
| BsonBinaries.ContentHashCode | module-bsonkt/src/commonMain/kotlin/BsonBinary.kt:22 | `contentHashCode()`: the `Arrays.hashCode` recurrence; `ContentHashPolynomial` proves it equals the closed polynomial modulo 2^32 |
| BsonBinaries.Equals | module-bsonkt/src/commonMain/kotlin/BsonBinary.kt:14-18 | `equals`: true exactly for a Binary element with the same subtype and the same bytes, whatever array holds them |
| BsonBinaries.Hash | module-bsonkt/src/commonMain/kotlin/BsonBinary.kt:20-24 | `hashCode` is `31 * subtype + contentHashCode(data)` wrapped to 32 bits |
| BsonBinaries.HashCode | module-bsonkt/src/commonMain/kotlin/BsonBinary.kt:20-24 | the two-step computation on a local `result` yields `Hash(subtype, data)` |
| BsonBinaries.EqualsIsValueEquality | module-bsonkt/src/commonMain/kotlin/BsonBinary.kt:14-18 | `equals` holds exactly when the other element is a binary with the same subtype and the same bytes, whatever array object holds them |
| BsonBinaries.DifferenceMeansUnequal | module-bsonkt/src/commonMain/kotlin/BsonBinary.kt:14-18 | a different length or any differing byte makes two binaries unequal |
| BsonBinaries.EqualsHash | module-bsonkt/src/commonMain/kotlin/BsonBinary.kt:14-24 | equal binaries have equal hash codes |
| BsonBinaries.ContentHashPolynomial | module-bsonkt/src/commonMain/kotlin/BsonBinary.kt:22 | `contentHashCode` agrees modulo 2^32 with `31^n + sum of data[i] * 31^(n-1-i)` |
| ObjectIds.HexValue | module-bsonkt/src/commonMain/kotlin/ObjectId.kt:69 | a hex digit's value is below 16 |
| ObjectIds.IsValid | module-bsonkt/src/commonMain/kotlin/ObjectId.kt:62-69 | `ObjectId.isValid`: a string of 24 hexadecimal digits in either case; `FromHexString` succeeds exactly on it and `HexRoundTrip` proves every printed id satisfies it |
| ObjectIds.ParseHex | module-bsonkt/src/commonMain/kotlin/ObjectId.kt:40-46 | the twelve bytes a valid string spells, two digits per byte; `HexRoundTrip` and `HexOfParse` prove it inverse to `ToHexString` up to letter case |
| ObjectIds.Timestamp | module-bsonkt/src/commonMain/kotlin/ObjectId.kt:72-75 | the `timestamp` getter: the first four bytes, big-endian, read as a signed Int; `BigEndianTimestamp` and `FromTimestampAndCounter` prove it reads back the timestamp an id was made with |
| ObjectIds.HexDigit | module-bsonkt/src/commonMain/kotlin/ObjectId.kt:89 | the digit printed for a value below 16 is a lower-case hex digit of that value |
| ObjectIds.LowerHex | module-bsonkt/src/commonMain/kotlin/ObjectId.kt:89 | the lower-case form of a hex digit has the same value |
| ObjectIds.ToHexString | module-bsonkt/src/commonMain/kotlin/ObjectId.kt:89 | `toHexString()` has 24 characters |
| ObjectIds.FromHexString | module-bsonkt/src/commonMain/kotlin/ObjectId.kt:46 | `ObjectId(hexString)` succeeds exactly for a valid string, and then prints back as that string in lower case |
| ObjectIds.StringToObjectId | module-bsonkt/src/commonMain/kotlin/ObjectId.kt:97-102 | `String.toObjectId()` fails (IllegalArgumentException) exactly for a string that is not a valid hex representation, and otherwise holds the bytes the string spells |
| ObjectIds.FromHexStringOrNull | module-bsonkt/src/commonMain/kotlin/ObjectId.kt:110-115 | `String.toObjectIdOrNull()`: null exactly for an invalid string, otherwise what `toObjectId()` returns |
| ObjectIds.FromByteArray | module-bsonkt/src/commonMain/kotlin/ObjectId.kt:54 | `ObjectId(bytes)` succeeds exactly for 12 bytes, and keeps each of them |
| ObjectIds.ToByteArray | module-bsonkt/src/commonMain/kotlin/ObjectId.kt:84 | `toByteArray()` has 12 bytes |
| ObjectIds.BigEndian | module-bsonkt/src/commonMain/kotlin/ObjectId.kt:75 | the big-endian number of n bytes is below 256^n |
| ObjectIds.Pow256 | module-bsonkt/src/commonMain/kotlin/ObjectId.kt:75 | the powers of 256 are positive |
| ObjectIds.FromTimestampAndCounter | module-bsonkt/src/commonMain/kotlin/ObjectId.kt:38 | `ObjectId(timestamp, counter)` fails exactly when the counter does not fit in 3 bytes; otherwise `timestamp` reads back the given timestamp and the random bytes are kept |
| ObjectIds.BigEndianTimestamp | module-bsonkt/src/commonMain/kotlin/ObjectId.kt:75 | the four big-endian bytes of a timestamp read back, as a signed Int, to that timestamp |
| ObjectIds.HexRoundTrip | module-bsonkt/src/commonMain/kotlin/ObjectId.kt:46-89 | `ObjectId(o.toHexString()) == o`, and the printed string is valid |
| ObjectIds.HexOfParse | module-bsonkt/src/commonMain/kotlin/ObjectId.kt:46-89 | parsing a valid string and printing it gives the string in lower case |
| ObjectIds.LowerHexIsHexDigit | module-bsonkt/src/commonMain/kotlin/ObjectId.kt:89 | the lower-case form of a digit is the digit printed for its value |
| ObjectIds.ByteArrayRoundTrip | module-bsonkt/src/commonMain/kotlin/ObjectId.kt:54-84 | `ObjectId(o.toByteArray()) == o` |
| Ids.FromObjectId | module-bsonkt/src/commonMain/kotlin/ID.kt:38 | `ID(objectId)`: a valid hex string that parses back to the same ObjectId |
| Ids.Retype | module-bsonkt/src/commonMain/kotlin/ID.kt:39 | `ID(otherId)` and `toID()`: the same string under another type |
| Ids.StringToId | module-bsonkt/src/commonMain/kotlin/ID.kt:110-120 | `String.toID()`: the string wrapped unchanged |
| Ids.ToString | module-bsonkt/src/commonMain/kotlin/ID.kt:41 | `toString()` returns the string the id wraps |
| Ids.IdBson | module-bsonkt/src/commonMain/kotlin/ID.kt:62-68 | `AnyID.bson`: an ObjectId element exactly when the string is a valid ObjectId (parsed from that string), otherwise a String element of the string |
| Ids.NullableIdBson | module-bsonkt/src/commonMain/kotlin/ID.kt:79-80 | `AnyID?.bson`: null becomes `BsonNull`, otherwise the id's element |
| Ids.ToObjectId | module-bsonkt/src/commonMain/kotlin/ID.kt:90-92 | `toObjectId()` succeeds exactly for a valid string, and gives the ObjectId the id is stored as |
| Ids.ToObjectIdOrNull | module-bsonkt/src/commonMain/kotlin/ID.kt:100-105 | `toObjectIdOrNull()`: null exactly for an invalid string, otherwise what `toObjectId()` returns |
| Ids.Serialize | module-bsonkt/src/commonMain/kotlin/ID.kt:163-165 | `IDSerializer.serialize`: the id encoded as its string; `SerializerRoundTrip` proves it inverse to `Deserialize` |
| Ids.Deserialize | module-bsonkt/src/commonMain/kotlin/ID.kt:167-169 | `IDSerializer.deserialize`: the decoded string wrapped as an id; `SerializerRoundTrip` proves it inverse to `Serialize` |
| Ids.SerializerRoundTrip | module-bsonkt/src/commonMain/kotlin/ID.kt:160-170 | deserializing a serialized id gives the id, and serializing a deserialized string gives the string |
| Ids.ObjectIdIdBson | module-bsonkt/src/commonMain/kotlin/ID.kt:38-68 | an id made from an ObjectId is stored as that ObjectId |
| Ids.ObjectIdRoundTrip | module-bsonkt/src/commonMain/kotlin/ID.kt:38-92 | an id with a lower-case valid string survives the trip through its ObjectId |
| Slots.WrittenSpec | module-mongokt/src/commonMain/kotlin/expr/_Date.kt:67-78 | a block of `if (x != null) "x" by x` statements on distinct keys writes each key exactly when its argument is non-null, with that argument, and in statement order |
| Slots.SlotValueAt | module-mongokt/src/commonMain/kotlin/expr/_Date.kt:67-78 | in such a block a key's value is the argument of the statement naming it |
| Slots.SlotValueAbsent | module-mongokt/src/commonMain/kotlin/expr/_Date.kt:67-78 | a key no statement names is not written |
| Slots.WrittenAllPresent | module-mongokt/src/commonMain/kotlin/expr/_Date.kt:67-78 | when every argument is non-null the keys appear exactly in statement order |
| Slots.BuildWritten | module-mongokt/src/commonMain/kotlin/expr/_Date.kt:67-78 | such a block builds exactly the fields it writes |
| Expressions.ExprOf | module-mongokt/src/commonMain/kotlin/expr/Declarations.kt:31-32 | `Expr(block)`: the expression holds the document the block builds, with distinct keys holding their last values |
| Expressions.BuildExpr | module-mongokt/src/commonMain/kotlin/expr/Declarations.kt:34-35 | `buildExpr(block)` returns the element of the expression the block returns |
| Expressions.Ref | module-mongokt/src/commonMain/kotlin/expr/Declarations.kt:41 | `ref(name)`: a String element `"$" + name` |
| Expressions.Cast | module-mongokt/src/commonMain/kotlin/expr/Declarations.kt:46 | `cast(expr)` keeps the element: only the static tag changes |
| Expressions.Lift | module-mongokt/src/commonMain/kotlin/expr/Declarations.kt:83-107 | `BsonElement?.expr` and the typed `Bson*?.expr`: the element, or `BsonNull` for null |
| Expressions.LiftInt | module-mongokt/src/commonMain/kotlin/expr/Declarations.kt:114 | `Int?.expr`: an Int32 element, or `BsonNull` |
| Expressions.LiftLong | module-mongokt/src/commonMain/kotlin/expr/Declarations.kt:116 | `Long?.expr`: an Int64 element, or `BsonNull` |
| Expressions.LiftBool | module-mongokt/src/commonMain/kotlin/expr/Declarations.kt:120 | `Boolean?.expr`: a Boolean element, or `BsonNull` |
| Expressions.LiftString | module-mongokt/src/commonMain/kotlin/expr/Declarations.kt:128 | `String?.expr`: a String element, or `BsonNull` |
| Expressions.LiftObjectId | module-mongokt/src/commonMain/kotlin/expr/Declarations.kt:124 | `ObjectId?.expr`: an ObjectId element, or `BsonNull` |
| Expressions.LiftId | module-mongokt/src/commonMain/kotlin/expr/Declarations.kt:126 | `AnyID?.expr`: the id's element, or `BsonNull` |
| Expressions.LiftOpaque | module-mongokt/src/commonMain/kotlin/expr/Declarations.kt:112-122 | `Double?.expr`, `Decimal128?.expr`, `Instant?.expr`: an element of that kind, or `BsonNull` |
| Expressions.Operator | module-mongokt/src/commonMain/kotlin/expr/Declarations.kt:31-32 | `Expr { key by operand }` is the one-key document whose key is `key` and whose value is the operand |
| Expressions.OperatorInjective | module-mongokt/src/commonMain/kotlin/expr/Declarations.kt:31-32 | two operator expressions are equal exactly when their keys and operands are |
| Expressions.Elements | module-mongokt/src/commonMain/kotlin/expr/_Arithmetic.kt:35 | `forEach { by(it.element) }` inside an array block appends the elements in order |
| Expressions.Args | module-mongokt/src/commonMain/kotlin/expr/_Arithmetic.kt:35 | `Expr { key by array { ... } }`: a one-key document whose operand is the array of the arguments' elements, in order |
| Expressions.Fields | module-mongokt/src/commonMain/kotlin/expr/_Date.kt:67-78 | `Expr { key by { "a" by ...; if (b != null) "b" by b; ... } }`: each named key holds its argument when given and is absent otherwise, no other key appears, and keys keep statement order |
| Expressions.Fields2 | module-mongokt/src/commonMain/kotlin/expr/_Date.kt:216-224 | the same for a two-statement block: both lookups, no other keys, and statement order |
| Expressions.Fields3 | module-mongokt/src/commonMain/kotlin/expr/_Date.kt:150-160 | the same for a three-statement block |
| Expressions.Fields4 | module-mongokt/src/commonMain/kotlin/expr/_Date.kt:18-30 | the same for a four-statement block |
| Expressions.Fields5 | module-mongokt/src/commonMain/kotlin/expr/_Date.kt:37-51 | the same for a five-statement block |
| Expressions.Fields8 | module-mongokt/src/commonMain/kotlin/expr/_Date.kt:58-78 | the same for an eight-statement block |
| Expressions.ElementOf | module-mongokt/src/commonMain/kotlin/expr/_Date.kt:28 | an optional expression argument contributes its element exactly when it is given |
| Expressions.StrOf | module-mongokt/src/commonMain/kotlin/expr/_Date.kt:158 | an optional plain argument written with `by` contributes a String element exactly when given |
| Expressions.BoolOf | module-mongokt/src/commonMain/kotlin/expr/_Date.kt:158 | an optional `Boolean?` argument contributes a Boolean element exactly when given |
| ExprArithmetic.Unary | module-mongokt/src/commonMain/kotlin/expr/_Arithmetic.kt:20-149 | `abs`, `ceil`, `exp`, `floor`, `ln`, `log10`, `sqrt`: the operator key with the argument embedded directly |
| ExprArithmetic.Binary | module-mongokt/src/commonMain/kotlin/expr/_Arithmetic.kt:62-180 | `divide`, `log`, `mod`, `pow`, `round`, `subtract` (all three overloads), `trunc`: the operator key over the two-element array `[a, b]` |
| ExprArithmetic.Variadic | module-mongokt/src/commonMain/kotlin/expr/_Arithmetic.kt:28-125 | `add` and `multiply` (vararg and list forms): the operator key over the operands' elements, in order |
| ExprArithmetic.AddToDate | module-mongokt/src/commonMain/kotlin/expr/_Arithmetic.kt:40-47 | `add(date, numbers)`: the `$add` array holds the date first and then the numbers in order |
| ExprArithmetic.AddToDateIsAdd | module-mongokt/src/commonMain/kotlin/expr/_Arithmetic.kt:28-47 | the date form of `add` equals the number form with the date as first operand |
| ExprArithmetic.BinaryKeepsOrder | module-mongokt/src/commonMain/kotlin/expr/_Arithmetic.kt:62-180 | swapping the two arguments changes the expression unless they are the same element |
| ExprArithmetic.UnaryKeysDistinct | module-mongokt/src/commonMain/kotlin/expr/_Arithmetic.kt:20-149 | different one-argument operators write different keys |
| ExprArithmetic.BinaryKeysDistinct | module-mongokt/src/commonMain/kotlin/expr/_Arithmetic.kt:62-180 | different two-argument operators write different keys |
| ExprArithmetic.FamilyKeysDistinct | module-mongokt/src/commonMain/kotlin/expr/_Arithmetic.kt:20-180 | no key is shared between the one-argument, two-argument and list operators |
| ExprDates.Extract | module-mongokt/src/commonMain/kotlin/expr/_Date.kt:207-211 | `dayOfMonth(date)` and the other one-argument extractors: the part's key with the date embedded directly |
| ExprDates.ExtractIn | module-mongokt/src/commonMain/kotlin/expr/_Date.kt:216-224 | `dayOfMonth(date, timezone)` and siblings: a document with `date`, and `timezone` only when given, in that order |
| ExprDates.ToDate | module-mongokt/src/commonMain/kotlin/expr/_Date.kt:471-472 | `toDate(e)`: `{$toDate: e}` |
| ExprDates.Shift | module-mongokt/src/commonMain/kotlin/expr/_Date.kt:18-143 | `dateAdd` / `dateSubtract`: `startDate`, `unit`, `amount` always, `timezone` only when given, in that order |
| ExprDates.DateDiff | module-mongokt/src/commonMain/kotlin/expr/_Date.kt:37-51 | `dateDiff`: `startDate`, `endDate`, `unit` always; `timezone`, `startOfWeek` only when given; in that order |
| ExprDates.DateFromParts | module-mongokt/src/commonMain/kotlin/expr/_Date.kt:58-78 | `dateFromParts`: `year` first and always, each other part only when given, in declaration order |
| ExprDates.DateFromIsoWeekParts | module-mongokt/src/commonMain/kotlin/expr/_Date.kt:83-103 | `dateFromParts_IsoWeek`: the same `$dateFromParts` key, led by `isoWeekYear`, other parts only when given |
| ExprDates.DateFromString | module-mongokt/src/commonMain/kotlin/expr/_Date.kt:110-124 | `dateFromString`: `dateString` always; `format`, `timezone`, `onError`, `onNull` only when given |
| ExprDates.DateToParts | module-mongokt/src/commonMain/kotlin/expr/_Date.kt:150-160 | `dateToParts`: `date` always; `timezone` when given; `iso8601` as a Boolean element when given |
| ExprDates.DateToString | module-mongokt/src/commonMain/kotlin/expr/_Date.kt:167-179 | `dateToString`: `date` always; `format`, `timezone`, `onNull` only when given |
| ExprDates.DateTrunc | module-mongokt/src/commonMain/kotlin/expr/_Date.kt:186-200 | `dateTrunc`: `date`, `unit` always; `binSize`, `timezone`, `startOfWeek` only when given |
| ExprDates.ExtractFormsDiffer | module-mongokt/src/commonMain/kotlin/expr/_Date.kt:207-224 | the timezone form with no timezone still writes `{date: ...}`, never the bare date of the one-argument form |
| ExprDates.FromPartsFormsDiffer | module-mongokt/src/commonMain/kotlin/expr/_Date.kt:58-103 | the calendar and ISO-week forms of `$dateFromParts` never build the same expression |
| ExprDates.PartKeysDistinct | module-mongokt/src/commonMain/kotlin/expr/_Date.kt:207-520 | different extractors write different keys |
| ExprArrays.Direct | module-mongokt/src/commonMain/kotlin/expr/_Array.kt:170-225 | `$objectToArray`, `$reverseArray`, `$size`: the key with the argument embedded directly |
| ExprArrays.Wrapped | module-mongokt/src/commonMain/kotlin/expr/_Array.kt:25-125 | `$arrayToObject`, `$isArray`: the key over a one-element array holding the argument |
| ExprArrays.ArrayElemAt | module-mongokt/src/commonMain/kotlin/expr/_Array.kt:18-19 | `$arrayElemAt(array, idx)`: `[array, idx]`, in that order |
| ExprArrays.In | module-mongokt/src/commonMain/kotlin/expr/_Array.kt:70-71 | `$in(expression, arrayExpression)`: `[expression, arrayExpression]`, in that order |
| ExprArrays.ConcatArrays | module-mongokt/src/commonMain/kotlin/expr/_Array.kt:32-38 | `$concatArrays` (vararg and list): the arrays' elements in order |
| ExprArrays.Filter | module-mongokt/src/commonMain/kotlin/expr/_Array.kt:45-57 | `$filter`: `input` and `cond` always, `as` as a String and `limit` only when given, in parameter order |
| ExprArrays.Pick | module-mongokt/src/commonMain/kotlin/expr/_Array.kt:63-163 | `$firstN`, `$lastN`, `$maxN`, `$minN`: `{input, n}` in that order |
| ExprArrays.IndexOfArray | module-mongokt/src/commonMain/kotlin/expr/_Array.kt:77-94 | `$indexOfArray(arr, search, start?)`: `[arr, search]`, with `start` as a third element only when given |
| ExprArrays.IndexOfArrayRange | module-mongokt/src/commonMain/kotlin/expr/_Array.kt:98-118 | `$indexOfArray(arr, search, start, end?)`: `[arr, search, start]`, with `end` as a fourth element only when given |
| ExprArrays.Map | module-mongokt/src/commonMain/kotlin/expr/_Array.kt:139-149 | `$map`: `input` and `in` always, `as` as a String only when given, in parameter order |
| ExprArrays.Range | module-mongokt/src/commonMain/kotlin/expr/_Array.kt:177-194 | `$range(start, end, step?)`: `[start, end]`, with `step` third only when given |
| ExprArrays.Reduce | module-mongokt/src/commonMain/kotlin/expr/_Array.kt:201-211 | `$reduce`: `input`, `initialValue`, `in`, in that order |
| ExprArrays.Slice | module-mongokt/src/commonMain/kotlin/expr/_Array.kt:231-232 | `$slice(array, n)`: `[array, n]` |
| ExprArrays.SliceAt | module-mongokt/src/commonMain/kotlin/expr/_Array.kt:236-237 | `$slice(array, position, n)`: `[array, position, n]` |
| ExprArrays.SortArray | module-mongokt/src/commonMain/kotlin/expr/_Array.kt:244-251 | `$sortArray` (both overloads): `{input, sortBy}` in that order |
| ExprArrays.Zip | module-mongokt/src/commonMain/kotlin/expr/_Array.kt:257-279 | `$zip` (vararg and list): `inputs` is the array of the inputs in order; `useLongestLength` and `defaults` only when given |
| ExprArrays.IndexOfArrayOverloads | module-mongokt/src/commonMain/kotlin/expr/_Array.kt:77-118 | the range overload with no end equals the first overload given a start |
| ExprArrays.SliceArities | module-mongokt/src/commonMain/kotlin/expr/_Array.kt:231-237 | the three-argument `$slice` inserts the position between the array and `n` |
| ExprBitwise.Bits | module-mongokt/src/commonMain/kotlin/expr/_Bitwise.kt:18-55 | `$bitAnd`, `$bitOr`, `$bitXor` (vararg and list): the key over the operands' elements, in order |
| ExprBitwise.BitNot | module-mongokt/src/commonMain/kotlin/expr/_Bitwise.kt:30-31 | `$bitNot(e)`: the key with the operand embedded directly, no array |
| ExprBitwise.BitsOfNone | module-mongokt/src/commonMain/kotlin/expr/_Bitwise.kt:23-24 | an empty operand list still writes the key, with an empty array |
| ExprBitwise.BitsDifferOnlyInKey | module-mongokt/src/commonMain/kotlin/expr/_Bitwise.kt:18-55 | for the same operands the three list operators build the same array and differ exactly in their key |
| ExprBooleans.Logical | module-mongokt/src/commonMain/kotlin/expr/_Boolean.kt:22-47 | `$and`, `$or` (vararg and list): the key over the operands' elements, in order |
| ExprBooleans.Not | module-mongokt/src/commonMain/kotlin/expr/_Boolean.kt:34-35 | `$not(e)`: the key over the one-element array `[e]` |
| ExprBooleans.LogicalOfNone | module-mongokt/src/commonMain/kotlin/expr/_Boolean.kt:27-28 | an empty operand list builds `{key: []}` |
| ExprBooleans.LogicalAppend | module-mongokt/src/commonMain/kotlin/expr/_Boolean.kt:27-28 | the operands of `$and(xs + ys)` are those of `$and(xs)` followed by those of `$and(ys)` |
| ExprComparisons.Compare | module-mongokt/src/commonMain/kotlin/expr/_Comparison.kt:19-68 | `cmp`, `eq`, `gt`, `gte`, `lt`, `lte`, `ne`: the key over `[expression1, expression2]` |
| ExprComparisons.CompareKeepsOrder | module-mongokt/src/commonMain/kotlin/expr/_Comparison.kt:19-68 | swapping the arguments gives the same expression only when they are the same element |
| ExprComparisons.CompareDifferOnlyInKey | module-mongokt/src/commonMain/kotlin/expr/_Comparison.kt:19-68 | for the same arguments two comparisons build the same array and differ exactly in their key |
| ExprComparisons.KeyInjective | module-mongokt/src/commonMain/kotlin/expr/_Comparison.kt:19-68 | different comparisons write different keys |
| ExprConditionals.Cond | module-mongokt/src/commonMain/kotlin/expr/_Conditional.kt:24-25 | `cond`: `[if, then, else]`, in that order |
| ExprConditionals.IfNull | module-mongokt/src/commonMain/kotlin/expr/_Conditional.kt:32-39 | `ifNull` (vararg and list): the operands' elements in order |
| ExprConditionals.CaseThen | module-mongokt/src/commonMain/kotlin/expr/_Conditional.kt:64 | `by { "case" by ...; "then" by ... }`: exactly the two fields `case` then `then` |
| ExprConditionals.Branches | module-mongokt/src/commonMain/kotlin/expr/_Conditional.kt:62-66 | the `forEach` over branches appends one `{case, then}` document per branch, in order |
| ExprConditionals.Switch | module-mongokt/src/commonMain/kotlin/expr/_Conditional.kt:46-71 | `switch` (vararg and list): `branches` holds the branch documents in order; `default` appears only when given |
| ExprConditionals.SwitchBranch | module-mongokt/src/commonMain/kotlin/expr/_Conditional.kt:57-71 | the i-th branch document holds the i-th condition under `case` and the i-th value under `then` |
| ExprConditionals.Vars | module-mongokt/src/commonMain/kotlin/expr/_Variable.kt:38-42 | the `forEach` over variables appends one one-key document per variable, in order |
| ExprConditionals.Let | module-mongokt/src/commonMain/kotlin/expr/_Variable.kt:21-45 | `let` (vararg and list): exactly `vars` (an array of one-key documents) and `in`, in that order |
| ExprConditionals.LetKeepsDuplicates | module-mongokt/src/commonMain/kotlin/expr/_Variable.kt:38-42 | two variables with the same name give two documents; neither replaces the other |
| ExprDataSizes.BinarySize | module-mongokt/src/commonMain/kotlin/expr/_DataSize.kt:20-27 | `$binarySize` (string and binary overloads): the key with the argument embedded directly |
| ExprDataSizes.BsonSize | module-mongokt/src/commonMain/kotlin/expr/_DataSize.kt:34-35 | `$bsonSize(object)`: the key with the argument embedded directly |
| ExprDataSizes.SizesDiffer | module-mongokt/src/commonMain/kotlin/expr/_DataSize.kt:20-35 | for the same argument the two operators embed it alike and differ in their key |
| ExprLiterals.Literal | module-mongokt/src/commonMain/kotlin/expr/_Literal.kt:18-31 | `literal(value)` (element, document and array overloads): `{$literal: value}` with the value unchanged |
| ExprLiterals.LiteralBlock | module-mongokt/src/commonMain/kotlin/expr/_Literal.kt:36-37 | `literal { ... }`: the literal of the document the block builds, with distinct keys holding their last values |
| ExprLiterals.LiteralInjective | module-mongokt/src/commonMain/kotlin/expr/_Literal.kt:18-31 | different values give different literals |
| ExprLiterals.LiteralBlockDistinct | module-mongokt/src/commonMain/kotlin/expr/_Literal.kt:36-37 | a block that writes each key once is embedded exactly as written |
| ExprMiscellaneous.GetField | module-mongokt/src/commonMain/kotlin/expr/_Miscellaneous.kt:20-28 | `$getField`: `field` always, `input` only when given, in that order |
| ExprMiscellaneous.Rand | module-mongokt/src/commonMain/kotlin/expr/_Miscellaneous.kt:34-35 | `$rand()`: `{$rand: {}}` |
| ExprMiscellaneous.ToHashedIndexKey | module-mongokt/src/commonMain/kotlin/expr/_Miscellaneous.kt:45-46 | `$toHashedIndexKey`: the key with the argument embedded directly |
| ExprMiscellaneous.GetFieldOfCurrent | module-mongokt/src/commonMain/kotlin/expr/_Miscellaneous.kt:20-28 | without `input`, `$getField` writes exactly `{field: ...}` |
| ExprObjects.MergeObjects | module-mongokt/src/commonMain/kotlin/expr/_Object.kt:21-28 | `mergeObjects` (vararg and list): the documents in order |
| ExprObjects.SetField | module-mongokt/src/commonMain/kotlin/expr/_Object.kt:39-49 | `setField`: exactly the keys `field`, `input`, `value`, in that order, holding the arguments |
| ExprObjects.SetFieldFields | module-mongokt/src/commonMain/kotlin/expr/_Object.kt:39-49 | the operand of `setField` is exactly the three fields, in order |
| ExprSets.Test | module-mongokt/src/commonMain/kotlin/expr/_Set.kt:19-27 | `$allElementsTrue`, `$anyElementTrue`: the key over a one-element array |
| ExprSets.Pair | module-mongokt/src/commonMain/kotlin/expr/_Set.kt:33-65 | `$setDifference`, `$setIsSubset`: the key over `[a, b]` |
| ExprSets.List | module-mongokt/src/commonMain/kotlin/expr/_Set.kt:40-77 | `$setEquals`, `$setIntersection`, `$setUnion` (vararg and list): the arrays in order |
| ExprSets.PairKeepsOrder | module-mongokt/src/commonMain/kotlin/expr/_Set.kt:33-65 | swapping the two arrays gives the same expression only when they are the same element |
| ExprSets.ListOfTwo | module-mongokt/src/commonMain/kotlin/expr/_Set.kt:33-77 | a list operator over two arrays builds the same array as a pair operator |
| ExprTimestamps.Part | module-mongokt/src/commonMain/kotlin/expr/_Timestamp.kt:20-28 | `$tsIncrement`, `$tsSecond`: the key with the argument embedded directly |
| ExprTimestamps.PartsDiffer | module-mongokt/src/commonMain/kotlin/expr/_Timestamp.kt:20-28 | the two parts of the same argument are different expressions |
| ExprStrings.Concat | module-mongokt/src/commonMain/kotlin/expr/_String.kt:19-26 | `$concat` (vararg and list): an array holding the strings in order |
| ExprStrings.Unary | module-mongokt/src/commonMain/kotlin/expr/_String.kt:248-349 | `strLenBytes`, `strLenCP`, `toLower`, `toString`, `toUpper`: the key with the argument embedded directly |
| ExprStrings.Binary | module-mongokt/src/commonMain/kotlin/expr/_String.kt:240-265 | `split`, `strcasecmp`: the key over `[a, b]` |
| ExprStrings.Substring | module-mongokt/src/commonMain/kotlin/expr/_String.kt:272-320 | `substr`, `substrBytes`, `substrCP`: the key over `[string, start, length]` |
| ExprStrings.IndexOf | module-mongokt/src/commonMain/kotlin/expr/_String.kt:41-61 | `indexOfBytes`/`indexOfCP` with an optional start: `[string, substring]`, then `start` only when given |
| ExprStrings.IndexOfRange | module-mongokt/src/commonMain/kotlin/expr/_String.kt:63-86 | the overload with a start and an optional end: `[string, substring, start]`, then `end` only when given |
| ExprStrings.TrimChars | module-mongokt/src/commonMain/kotlin/expr/_String.kt:139-140 | `trim`, `ltrim`, `rtrim`: `input` always, `chars` only when given, in that order |
| ExprStrings.Regex | module-mongokt/src/commonMain/kotlin/expr/_String.kt:147-196 | `regexFind`, `regexFindAll`, `regexMatch`: `input`, `regex`, then the string `options` only when given |
| ExprStrings.Replace | module-mongokt/src/commonMain/kotlin/expr/_String.kt:198-230 | `replaceOne`, `replaceAll`: exactly `input`, `find`, `replacement`, in that order |
| ExprStrings.IndexOfOverloads | module-mongokt/src/commonMain/kotlin/expr/_String.kt:41-86 | the range overload with no end equals the start overload given that start |
| ExprStrings.RegexDifferOnlyInKey | module-mongokt/src/commonMain/kotlin/expr/_String.kt:147-196 | without options the three regex operators write the same operand |
| ExprTrigonometry.Trig | module-mongokt/src/commonMain/kotlin/expr/_Trigonometry.kt:18-119 | the one-argument trigonometric and angle-conversion operators: the key with the argument embedded directly |
| ExprTrigonometry.Atan2 | module-mongokt/src/commonMain/kotlin/expr/_Trigonometry.kt:60-61 | `$atan2`: the key over `[y, x]` |
| ExprTrigonometry.KeysDistinct | module-mongokt/src/commonMain/kotlin/expr/_Trigonometry.kt:18-119 | distinct operators write distinct keys, none of them `$atan2` |
| ExprTrigonometry.Atan2KeepsOrder | module-mongokt/src/commonMain/kotlin/expr/_Trigonometry.kt:60-61 | swapping the arguments of `$atan2` changes the expression unless they are equal |
| ExprTypes.Convert | module-mongokt/src/commonMain/kotlin/expr/_Type.kt:37-104 | `$isNumber`, `$toBool`, ..., `$type`, `$toUUID`: the key with the argument embedded directly |
| ExprTypes.ConvertTo | module-mongokt/src/commonMain/kotlin/expr/_Type.kt:17-31 | `$convert`: `input` and `to` always; `format`, `onError`, `onNull` only when given; in that order |
| ExprExtensions.Binary | module-mongokt/src/commonMain/kotlin/expr/Extensions.kt:31-99 | the infixes over a two-argument builder (`-`, `/`, `mod`, `pow`, `arr[idx]`, `_in`, the comparisons, `setDifference`, `setIsSubset`, `strcasecmp`): the builder's key over `[receiver, other]` |
| ExprExtensions.List | module-mongokt/src/commonMain/kotlin/expr/Extensions.kt:17-292 | the infixes over a list builder (`+` on numbers, dates, arrays, documents and strings, `*`, the bitwise and boolean infixes, `ifNull`, `setEquals`, `setIntersection`, `setUnion`): the builder's key over exactly `[receiver, other]` |
| ExprExtensions.DocumentGet | module-mongokt/src/commonMain/kotlin/expr/Extensions.kt:217-218 | `doc[field]`: `$getField` with exactly `field` then `input`, holding the index and the receiver |
| ExprExtensions.RegexMatch | module-mongokt/src/commonMain/kotlin/expr/Extensions.kt:281-285 | `s regexMatch r`: `$regexMatch` with `input` and `regex` and no `options` |
| ExprExtensions.PlusOverloadsAgree | module-mongokt/src/commonMain/kotlin/expr/Extensions.kt:17-25 | `date + n` and `n + m` build the same expression |
| ExprExtensions.InfixKeepsOrder | module-mongokt/src/commonMain/kotlin/expr/Extensions.kt:17-292 | swapping the operands of any infix changes the expression unless they are equal |
| FilterArrays.All | module-mongokt/src/commonMain/kotlin/filters/_Array.kt:15-16 | operator form `all(vararg values)`: the builder's fields with `$all` put to the array of values in order |
| FilterArrays.AllList | module-mongokt/src/commonMain/kotlin/filters/_Array.kt:21-22 | operator form `all(list)`: the same array as the vararg form |
| FilterArrays.AllQuery | module-mongokt/src/commonMain/kotlin/filters/_Array.kt:27-28 | query form `field all values`: the field put to `{$all: [values]}` |
| FilterArrays.ElemMatch | module-mongokt/src/commonMain/kotlin/filters/_Array.kt:35-36 | `elemMatch(block)`: `$elemMatch` put to the document the block builds |
| FilterArrays.ElemMatchDocument | module-mongokt/src/commonMain/kotlin/filters/_Array.kt:41-42 | `elemMatch(document)`: `$elemMatch` put to the document as given |
| FilterArrays.ElemMatchQuery | module-mongokt/src/commonMain/kotlin/filters/_Array.kt:47-48 | `field elemMatch block`: the field put to `{$elemMatch: built block}` |
| FilterArrays.ElemMatchDocumentQuery | module-mongokt/src/commonMain/kotlin/filters/_Array.kt:53-54 | `field elemMatch document`: the field put to `{$elemMatch: document}` |
| FilterArrays.ElemMatchOverloadsAgree | module-mongokt/src/commonMain/kotlin/filters/_Array.kt:35-42 | the block and document overloads write the same value exactly when the block assigns each name once |
| FilterArrays.Size | module-mongokt/src/commonMain/kotlin/filters/_Array.kt:61-62 | `size(Int)`: `$size` put to an Int32 |
| FilterArrays.SizeLong | module-mongokt/src/commonMain/kotlin/filters/_Array.kt:67-68 | `size(Long)`: `$size` put to an Int64 |
| FilterArrays.SizeQuery | module-mongokt/src/commonMain/kotlin/filters/_Array.kt:73-74 | `field size Int`: the field put to `{$size: Int32}` |
| FilterArrays.SizeLongQuery | module-mongokt/src/commonMain/kotlin/filters/_Array.kt:79-80 | `field size Long`: the field put to `{$size: Int64}` |
| FilterBitwise.MaskValue | module-mongokt/src/commonMain/kotlin/filters/_Bitwise.kt:16-29 | the value a mask argument is written as: an Int64, the binary as given, or an Int32 array of the positions in order |
| FilterBitwise.Bits | module-mongokt/src/commonMain/kotlin/filters/_Bitwise.kt:16-161 | operator forms of `$bitsAllClear`, `$bitsAllSet`, `$bitsAnyClear`, `$bitsAnySet` (all three mask kinds): the operator key put to the mask value |
| FilterBitwise.BitsQuery | module-mongokt/src/commonMain/kotlin/filters/_Bitwise.kt:34-161 | query forms: the field put to `{op: mask value}` |
| FilterBitwise.KeyInjective | module-mongokt/src/commonMain/kotlin/filters/_Bitwise.kt:16-161 | the four operators write four different keys |
| FilterBitwise.MaskValueInjective | module-mongokt/src/commonMain/kotlin/filters/_Bitwise.kt:16-47 | the written value determines the mask argument: kinds never collide and positions keep their order |
| FilterComparisons.Compare | module-mongokt/src/commonMain/kotlin/filters/_Comparison.kt:12-107 | operator forms `eq`, `gt`, `gte`, `lt`, `lte`, `ne`: the operator key put to the value |
| FilterComparisons.CompareQuery | module-mongokt/src/commonMain/kotlin/filters/_Comparison.kt:18-113 | query forms `field eq value`, ...: the field put to `{op: value}` |
| FilterComparisons.Membership | module-mongokt/src/commonMain/kotlin/filters/_Comparison.kt:55-121 | `_in(vararg)`, `nin(vararg)`: `$in`/`$nin` put to the array of values in order |
| FilterComparisons.MembershipList | module-mongokt/src/commonMain/kotlin/filters/_Comparison.kt:62-127 | `_in(list)`, `nin(list)`: the same array as the vararg forms |
| FilterComparisons.MembershipQuery | module-mongokt/src/commonMain/kotlin/filters/_Comparison.kt:69-133 | `field _in values`, `field nin values`: the field put to `{op: [values]}` |
| FilterComparisons.KeysDistinct | module-mongokt/src/commonMain/kotlin/filters/_Comparison.kt:12-133 | the eight operator keys are pairwise distinct |
| FilterComparisons.QueryOnSameFieldReplaces | module-mongokt/src/commonMain/kotlin/filters/_Comparison.kt:18-113 | two query forms on one field keep only the second operator, at the field's first position |
| FilterComparisons.RangeBlock | module-mongokt/src/commonMain/kotlin/filters/_Comparison.kt:26-93 | two different operator forms in one block keep both bounds, in order |
| FilterElements.Exists | module-mongokt/src/commonMain/kotlin/filters/_Element.kt:16-17 | `$exists(value)`: `$exists` put to the Boolean |
| FilterElements.ExistsQuery | module-mongokt/src/commonMain/kotlin/filters/_Element.kt:22-23 | `field $exists value`: the field put to `{$exists: value}` |
| FilterElements.TypeValue | module-mongokt/src/commonMain/kotlin/filters/_Element.kt:30-51 | the value `$type` holds: an Int32 code, a string alias, or an array of either in order |
| FilterElements.Type | module-mongokt/src/commonMain/kotlin/filters/_Element.kt:30-51 | the four operator overloads of `$type`: `$type` put to the type value |
| FilterElements.TypeQuery | module-mongokt/src/commonMain/kotlin/filters/_Element.kt:56-77 | the four query overloads: the field put to `{$type: type value}` |
| FilterElements.SingleVersusList | module-mongokt/src/commonMain/kotlin/filters/_Element.kt:30-51 | a one-element list is written as an array, unlike the single code or alias |
| FilterElements.TypeValueInjective | module-mongokt/src/commonMain/kotlin/filters/_Element.kt:30-51 | the written value determines the argument kind and its entries |
| FilterEvaluations.ExprDocument | module-mongokt/src/commonMain/kotlin/filters/_Evaluation.kt:17-18 | `$expr(document)`: `$expr` put to the document as given |
| FilterEvaluations.ExprElement | module-mongokt/src/commonMain/kotlin/filters/_Evaluation.kt:21-26 | `$expr(expression)`: `$expr` put to the expression's element |
| FilterEvaluations.JsonSchema | module-mongokt/src/commonMain/kotlin/filters/_Evaluation.kt:32-33 | `$jsonSchema(block)`: `$jsonSchema` put to the document the block builds |
| FilterEvaluations.JsonSchemaDocument | module-mongokt/src/commonMain/kotlin/filters/_Evaluation.kt:38-39 | `$jsonSchema(document)`: `$jsonSchema` put to the document as given |
| FilterEvaluations.JsonSchemaOverloadsAgree | module-mongokt/src/commonMain/kotlin/filters/_Evaluation.kt:32-39 | a block assigning each keyword once equals the document overload; in every case each keyword holds its last assignment |
| FilterEvaluations.Mod | module-mongokt/src/commonMain/kotlin/filters/_Evaluation.kt:47-48 | `$mod(Int, Int)`: `$mod` put to `[Int32 divisor, Int32 remainder]` |
| FilterEvaluations.ModLong | module-mongokt/src/commonMain/kotlin/filters/_Evaluation.kt:53-54 | `$mod(Long, Long)`: `$mod` put to `[Int64 divisor, Int64 remainder]` |
| FilterEvaluations.ModWidthKept | module-mongokt/src/commonMain/kotlin/filters/_Evaluation.kt:47-54 | the Int and Long overloads never write the same array |
| FilterEvaluations.PatternValue | module-mongokt/src/commonMain/kotlin/filters/_Evaluation.kt:62-73 | a String pattern is written as a string, a `BsonRegExp` as that regular expression |
| FilterEvaluations.Regex | module-mongokt/src/commonMain/kotlin/filters/_Evaluation.kt:62-73 | operator form `$regex(regex, options)`: `$regex` put to the pattern, then `$options` put only when options are given |
| FilterEvaluations.RegexQuery | module-mongokt/src/commonMain/kotlin/filters/_Evaluation.kt:79-86 | query form `field $regex regex`: the field put to `{$regex: pattern}` |
| FilterEvaluations.RegexBlock | module-mongokt/src/commonMain/kotlin/filters/_Evaluation.kt:62-73 | in a fresh block the result is `{$regex, $options}` in that order; without options an earlier `$options` is left as it was |
| FilterEvaluations.PutIfPresent | module-mongokt/src/commonMain/kotlin/filters/_Evaluation.kt:101-103 | `if (x != null) name by x` on a map without `name`: the name holds `x`, appended last, and nothing else changes |
| FilterEvaluations.Settings | module-mongokt/src/commonMain/kotlin/filters/_Evaluation.kt:101-103 | the three guarded writes in order: each given setting is appended, in order, and nothing else changes |
| FilterEvaluations.SetIfPresent | module-mongokt/src/commonMain/kotlin/filters/_Evaluation.kt:101-103 | the builder's fields become `PutIfPresent` of the old fields |
| FilterEvaluations.SetSettings | module-mongokt/src/commonMain/kotlin/filters/_Evaluation.kt:101-103 | the builder's fields become `Settings` of the old fields |
| FilterEvaluations.TextFields | module-mongokt/src/commonMain/kotlin/filters/_Evaluation.kt:93-104 | the `$text` operand: `$search` holds the search string, each setting holds its value exactly when given, no other key |
| FilterEvaluations.TextFieldsOrder | module-mongokt/src/commonMain/kotlin/filters/_Evaluation.kt:99-103 | the operand's keys are `$search` then the given settings, in the order `$language`, `$caseSensitive`, `$diacriticSensitive` |
| FilterEvaluations.TextOperand | module-mongokt/src/commonMain/kotlin/filters/_Evaluation.kt:99-103 | the nested block, written step by step, builds exactly `TextFields` |
| FilterEvaluations.Text | module-mongokt/src/commonMain/kotlin/filters/_Evaluation.kt:93-105 | `$text(...)`: `$text` put to the document of `TextFields` |
| FilterLogicals.Combine | module-mongokt/src/commonMain/kotlin/filters/_Logical.kt:18-61 | `$and`, `$or`, `$nor` over blocks: the key put to an array with each block's document, in argument order |
| FilterLogicals.CombineDocuments | module-mongokt/src/commonMain/kotlin/filters/_Logical.kt:24-67 | the list overloads: the key put to an array with the given documents, in order |
| FilterLogicals.Not | module-mongokt/src/commonMain/kotlin/filters/_Logical.kt:32-33 | operator form `$not(block)`: `$not` put to the operator document the block builds |
| FilterLogicals.NotQuery | module-mongokt/src/commonMain/kotlin/filters/_Logical.kt:38-39 | query form `field $not block`: the field put to `{$not: built block}` |
| FilterLogicals.CombineNone | module-mongokt/src/commonMain/kotlin/filters/_Logical.kt:18-67 | with no arguments the key is still written, holding an empty array |
| FilterLogicals.OverloadsAgree | module-mongokt/src/commonMain/kotlin/filters/_Logical.kt:18-67 | on blocks that assign each name once, the block and list overloads write the same array |
| FilterLogicals.KeysDistinct | module-mongokt/src/commonMain/kotlin/filters/_Logical.kt:18-67 | the three combining keys are distinct from each other and from `$not` |
| Updates.OperatorBlock | module-mongokt/src/commonMain/kotlin/Updates.kt:37-39 | `SET(block)`, `UNSET(block)`, `SET_ON_INSERT(block)`, `ADD_TO_SET(block)`, `PUSH(block)`: the operator key put to the document the block builds |
| Updates.OperatorBlockInArray | module-mongokt/src/commonMain/kotlin/Updates.kt:54-56 | the array-builder forms: one element appended, the one-key document the document form writes |
| Updates.OperatorField | module-mongokt/src/commonMain/kotlin/Updates.kt:73-75 | `SET(name, value)` and the other named forms (`INC`, `MUL`, `MIN`, `MAX` take a number): the operator key put to `{name: value}` |
| Updates.OperatorFieldInArray | module-mongokt/src/commonMain/kotlin/Updates.kt:90-92 | the array-builder forms of the named operators: `{op: {name: value}}` appended |
| Updates.Rename | module-mongokt/src/commonMain/kotlin/Updates.kt:252-254 | `RENAME(name, newName)`: `$rename` put to `{name: newName}` with the new name as a string |
| Updates.RenameInArray | module-mongokt/src/commonMain/kotlin/Updates.kt:269-271 | the array-builder form: `{$rename: {name: newName}}` appended |
| Updates.CurrentDate | module-mongokt/src/commonMain/kotlin/Updates.kt:432-434 | `CURRENT_DATE(name)`: `$currentDate` put to `{name: true}` |
| Updates.CurrentDateInArray | module-mongokt/src/commonMain/kotlin/Updates.kt:449-451 | the array-builder form: `{$currentDate: {name: true}}` appended |
| Updates.CurrentTimestamp | module-mongokt/src/commonMain/kotlin/Updates.kt:468-470 | `CURRENT_TIMESTAMP(name)`: `$currentDate` put to `{name: {$type: "timestamp"}}` |
| Updates.CurrentTimestampInArray | module-mongokt/src/commonMain/kotlin/Updates.kt:485-487 | the array-builder form of `CURRENT_TIMESTAMP` appends that document |
| Updates.AddEachToSet | module-mongokt/src/commonMain/kotlin/Updates.kt:576-578 | `ADD_EACH_TO_SET(name, block)`: `$addToSet` put to `{name: {$each: [elements]}}` |
| Updates.AddEachToSetInArray | module-mongokt/src/commonMain/kotlin/Updates.kt:593-595 | the array-builder form appends that document |
| Updates.PushEach | module-mongokt/src/commonMain/kotlin/Updates.kt:684-729 | `PUSH_EACH(name, options, block)` (both options overloads): `$push` put to `{name: {$each, modifiers}}` |
| Updates.PushEachInArray | module-mongokt/src/commonMain/kotlin/Updates.kt:708-746 | the array-builder forms append that document |
| Updates.PushEachModifiers | module-mongokt/src/commonMain/kotlin/Updates.kt:686-692 | the inner document of `PUSH_EACH`; `PushEachKeys` proves `$each` comes first and each modifier appears exactly when set, in source order |
| Updates.PushEachModifiersDistinct | module-mongokt/src/commonMain/kotlin/Updates.kt:686-692 | the `PUSH_EACH` modifier document never repeats a key |
| Updates.PushEachKeys | module-mongokt/src/commonMain/kotlin/Updates.kt:686-692 | `$each` comes first; `$position`, `$slice`, `$sort` are present exactly when set, with their values, in that order |
| Updates.KeysDistinct | module-mongokt/src/commonMain/kotlin/Updates.kt:37-665 | distinct operators write distinct keys |
| Updates.SecondCallReplaces | module-mongokt/src/commonMain/kotlin/Updates.kt:73-75 | a second named call of one operator replaces the first's whole document |
| Updates.DifferentOperatorsAccumulate | module-mongokt/src/commonMain/kotlin/Updates.kt:37-665 | operators with different keys keep both values in one builder |

## Left out

- Everything that talks to a MongoDB server (collections, GridFS, sessions): those are calls into the driver. Only the BSON values the builders produce are modelled, never what the server does with an operator.
- `ObjectId()` and `ObjectId.get()` read the clock and a random source; `ID()` without an argument calls them. None of the three is modelled.
- `ObjectIds.IsValid` is defined by its documented meaning, a 24-character hexadecimal string. The real check is the Java driver's, which is not part of this model.
- `ObjectId.compareTo`, `hashCode` and `toString`, and the `Date`/`ByteBuffer` constructors, come from the Java driver and are not part of this model.
- `BsonDouble`, `BsonDecimal128`, `BsonDateTime` and `BsonRegExp` are kept opaque: an element of the matching kind holding an uninterpreted token. Floating-point and `Decimal128` conversions (`toDouble`, `toDecimal128`, and `toInt`/`toLong` of a double or decimal) are left out.
- `toString()` of the number, timestamp and binary classes (the Kotlin data-class text) is left out. No property in the model depends on it.
- `ByteArray.contentHashCode` lives in the Kotlin standard library. It is modelled by the recurrence its documentation gives (`java.util.Arrays.hashCode`: start at 1, then `31 * h + byte` for each byte, wrapping at 32 bits).
- The static type parameter of `Expr<T>` and of `ID<T>` is erased: it exists only at compile time and never reaches a BSON value.
- Vararg and list overloads that build the same value share one member. The lemma on the list form also covers the vararg form.
- The list forms of the filters (`$type` on lists, the bit positions) append with `contextOf().add(it.bson)`, and the operator forms with `by(it)`. Both append the same element, so one member models both.
- The un-prefixed infix names of the expression extensions are modelled through the builders they call, as operator families (`ExprExtensions.BinaryInfix`, `ExprExtensions.ListInfix`).
- `$let` writes `vars` as an array of one-key documents, as the source does; whether the server accepts that shape is outside this model.
- The deprecated conversion helpers (`toMutableBsonDocument`, `asMutableBsonDocument`, `mutableBsonDocumentOf(vararg)` and their array twins) copy or alias a collection and build nothing new.
- The JVM-only overloads (`KCallable` field names, `BigDecimal`, `java.util.Date`) are not part of this model.
- FilterEvaluations.ExprElement: `` `$expr` by expression `` calls the `by` overload for expressions of `org.cufy.mongodb.expr`, whose body is not part of this model. The model takes it to write `expression.element` under the key, as the other expression builders do.
- The options lambda of `PUSH_EACH` is modelled by the `PushOptions` record it fills in. The mutable `PushOptions` class itself is not modelled.
