/** The array half of the BSON builder DSL (BsonArrayLike.kt). A `BsonArrayBuilder` is a mutable
    list, and every `by(value)` statement in an array block appends to it. An array block is
    represented by the elements it appends, in order. */
module ArrayBuilders {
  import opened Ints
  import opened Wrappers
  import opened Bson
  import BsonNumbers
  import ObjectIds
  import Ids
  import DocumentBuilders

  class ArrayBuilder {
    /** The elements of the list, in order. */
    var items: seq<Bson>

    /** `mutableListOf()`: an empty builder. */
    constructor ()
      ensures items == []
    {
      items := [];
    }

    /** `builder += element` / `builder.add(element)`: one element at the end. */
    method Add(value: Bson)
      modifies this
      ensures items == old(items) + [value]
    {
      items := items + [value];
    }

    /** `by(BsonElement?)`: the element, or `BsonNull` for null; never skipped. */
    method ByElement(value: Option<Bson>)
      modifies this
      ensures items == old(items) + [OrNull(value)]
    {
      if value.None? {
        Add(Null);
        return;
      }
      Add(value.value);
    }

    /** `by(BsonDocument?)` and `by(BsonDocumentLike?)`: one nested document, or `BsonNull`. */
    method ByDocument(value: Option<seq<Field>>)
      modifies this
      ensures value.None? ==> items == old(items) + [Null]
      ensures value.Some? ==> items == old(items) + [Doc(value.value)]
    {
      if value.None? {
        Add(Null);
        return;
      }
      Add(Doc(value.value));
    }

    /** `by(BsonArray?)` and `by(BsonArrayLike?)`: `builder.add`, so the array is appended as one
        nested element and not spliced in; `BsonNull` for null. */
    method ByArray(value: Option<seq<Bson>>)
      modifies this
      ensures value.None? ==> items == old(items) + [Null]
      ensures value.Some? ==> items == old(items) + [Arr(value.value)]
    {
      if value.None? {
        Add(Null);
        return;
      }
      Add(Arr(value.value));
    }

    /** `byAll(list)`: `builder += list`, the elements spliced in, in order. */
    method ByAll(list: seq<Bson>)
      modifies this
      ensures items == old(items) + list
    {
      items := items + list;
    }

    /** `by(block)`: the one document the block builds. */
    method ByBlock(block: seq<Field>)
      modifies this
      ensures items == old(items) + [DocumentBuilders.Document(block)]
    {
      Add(DocumentBuilders.Document(block));
    }

    /** `by(String?)` */
    method ByString(value: Option<string>)
      modifies this
      ensures items == old(items) + [StrOrNull(value)]
    {
      Add(StrOrNull(value));
    }

    /** `by(Boolean?)` */
    method ByBool(value: Option<bool>)
      modifies this
      ensures items == old(items) + [BoolOrNull(value)]
    {
      Add(BoolOrNull(value));
    }

    /** `by(Int?)`: an Int32 element. */
    method ByInt(value: Option<i32>)
      modifies this
      ensures items == old(items) + [BsonNumbers.IntBson(value)]
    {
      Add(BsonNumbers.IntBson(value));
    }

    /** `by(Long?)`: an Int64 element. */
    method ByLong(value: Option<i64>)
      modifies this
      ensures items == old(items) + [BsonNumbers.LongBson(value)]
    {
      Add(BsonNumbers.LongBson(value));
    }

    /** `by(Double?)`, `by(Decimal128?)` and `by(Instant?)`: an element of the opaque kind. */
    method ByOpaque(kind: OpaqueKind, value: Option<int>)
      modifies this
      ensures items == old(items) + [OpaqueOrNull(kind, value)]
    {
      Add(OpaqueOrNull(kind, value));
    }

    /** `by(ObjectId?)` */
    method ByObjectId(value: Option<ObjectIds.ObjectId>)
      modifies this
      ensures items == old(items) + [ObjIdOrNull(value)]
    {
      Add(ObjIdOrNull(value));
    }

    /** `by(AnyID?)` */
    method ById(value: Option<Ids.Id>)
      modifies this
      ensures items == old(items) + [Ids.NullableIdBson(value)]
    {
      Add(Ids.NullableIdBson(value));
    }

    /** `by(List<AnyID>?)`: one array of the ids' elements, or `BsonNull`. */
    method ByIds(value: Option<seq<Ids.Id>>)
      modifies this
      ensures value.None? ==> items == old(items) + [Null]
      ensures value.Some? ==> items == old(items) + [Arr(DocumentBuilders.IdsBson(value.value))]
    {
      if value.None? {
        Add(Null);
        return;
      }
      Add(Arr(DocumentBuilders.IdsBson(value.value)));
    }
  }

  /** `by(array)` nests and `byAll(array)` splices: for the same list, the first grows the
      builder by one element holding the list, the second by the list's elements. */
  lemma NestVersusSplice(items: seq<Bson>, list: seq<Bson>)
    ensures |items + [Arr(list)]| == |items| + 1 && (items + [Arr(list)])[|items|] == Arr(list)
    ensures |items + list| == |items| + |list| && (items + list)[|items|..] == list
    ensures |list| != 1 ==> items + [Arr(list)] != items + list
  {
    if |list| != 1 {
      assert |items + [Arr(list)]| != |items + list|;
    }
  }

  /** The elements `array { xs.forEach { by(it) } }` appends for a list of Ints: one Int32 per
      value, in order. */
  function Int32s(xs: seq<i32>): (r: seq<Bson>)
    ensures |r| == |xs|
    ensures forall i | 0 <= i < |xs| :: r[i] == Int32(xs[i])
  {
    seq(|xs|, i requires 0 <= i < |xs| => Int32(xs[i]))
  }

  /** The same for a list of Strings: one String element per value, in order. */
  function Strs(xs: seq<string>): (r: seq<Bson>)
    ensures |r| == |xs|
    ensures forall i | 0 <= i < |xs| :: r[i] == Str(xs[i])
  {
    seq(|xs|, i requires 0 <= i < |xs| => Str(xs[i]))
  }

  /** The same for a list of document blocks: one document per block, built from that block
      alone. */
  function Documents(blocks: seq<seq<Field>>): (r: seq<Bson>)
    ensures |r| == |blocks|
    ensures forall i | 0 <= i < |blocks| :: r[i] == DocumentBuilders.Document(blocks[i])
  {
    seq(|blocks|, i requires 0 <= i < |blocks| => DocumentBuilders.Document(blocks[i]))
  }

  /** The same for a list of documents: each document unchanged, in order. */
  function Docs(documents: seq<seq<Field>>): (r: seq<Bson>)
    ensures |r| == |documents|
    ensures forall i | 0 <= i < |documents| :: r[i] == Doc(documents[i])
  {
    seq(|documents|, i requires 0 <= i < |documents| => Doc(documents[i]))
  }

  /** `array { xs.forEach { by(it) } }` over Ints. */
  method ArrayOfInts(xs: seq<i32>) returns (r: seq<Bson>)
    ensures r == Int32s(xs)
  {
    var a := new ArrayBuilder();
    var k := 0;
    while k < |xs|
      invariant 0 <= k <= |xs|
      invariant a.items == Int32s(xs[..k])
    {
      assert xs[..k + 1] == xs[..k] + [xs[k]];
      a.ByInt(Some(xs[k]));
      k := k + 1;
    }
    assert xs[..k] == xs;
    r := a.items;
  }

  /** `array { xs.forEach { by(it) } }` over Strings. */
  method ArrayOfStrings(xs: seq<string>) returns (r: seq<Bson>)
    ensures r == Strs(xs)
  {
    var a := new ArrayBuilder();
    var k := 0;
    while k < |xs|
      invariant 0 <= k <= |xs|
      invariant a.items == Strs(xs[..k])
    {
      assert xs[..k + 1] == xs[..k] + [xs[k]];
      a.ByString(Some(xs[k]));
      k := k + 1;
    }
    assert xs[..k] == xs;
    r := a.items;
  }

  /** `array { blocks.forEach { by(it) } }` over document blocks. */
  method ArrayOfBlocks(blocks: seq<seq<Field>>) returns (r: seq<Bson>)
    ensures r == Documents(blocks)
  {
    var a := new ArrayBuilder();
    var k := 0;
    while k < |blocks|
      invariant 0 <= k <= |blocks|
      invariant a.items == Documents(blocks[..k])
    {
      assert blocks[..k + 1] == blocks[..k] + [blocks[k]];
      a.ByBlock(blocks[k]);
      k := k + 1;
    }
    assert blocks[..k] == blocks;
    r := a.items;
  }

  /** `array { documents.forEach { by(it) } }` over documents. */
  method ArrayOfDocuments(documents: seq<seq<Field>>) returns (r: seq<Bson>)
    ensures r == Docs(documents)
  {
    var a := new ArrayBuilder();
    var k := 0;
    while k < |documents|
      invariant 0 <= k <= |documents|
      invariant a.items == Docs(documents[..k])
    {
      assert documents[..k + 1] == documents[..k] + [documents[k]];
      a.ByDocument(Some(documents[k]));
      k := k + 1;
    }
    assert documents[..k] == documents;
    r := a.items;
  }
}
