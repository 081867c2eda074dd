/** The document half of the BSON builder DSL (BsonDocumentLike.kt). A `BsonDocumentBuilder` is
    a mutable insertion-ordered map, and every `name by value` statement in a block assigns
    into it. A block is represented by the assignments it performs, in order. */
module DocumentBuilders {
  import opened Ints
  import opened Wrappers
  import opened Bson
  import BsonNumbers
  import ObjectIds
  import Ids

  /** `document(block)` / `BsonDocument(block)`: the document a block builds on a fresh builder. */
  function Document(block: seq<Field>): (r: Bson)
    ensures r.Doc? && UniqueNames(r.fields)
    ensures forall n :: Get(r.fields, n) == LastGet(block, n)
  {
    Doc(Build(block))
  }

  /** A block that assigns each name once builds exactly those fields, in order. */
  lemma DocumentOfDistinct(block: seq<Field>)
    requires UniqueNames(block)
    ensures Document(block) == Doc(block)
  {
    BuildDistinct(block);
  }

  /** A block with one assignment builds the one-field document. */
  lemma DocumentOfOne(name: string, value: Bson)
    ensures Document([Field(name, value)]) == Doc([Field(name, value)])
  {
    assert PutAll([], [Field(name, value)]) == Put([], name, value);
  }

  /** The document `{name: value}`, which a block with the one assignment `name by value` builds. */
  function OneField(name: string, value: Bson): (r: Bson)
    ensures r.Doc? && Names(r.fields) == [name] && Get(r.fields, name) == Some(value)
  {
    Doc([Field(name, value)])
  }

  /** `array(block)` and `array(vararg elements)`: an array holding the elements in order. */
  function Array(elements: seq<Bson>): (r: Bson)
    ensures r.Arr? && r.items == elements
  {
    Arr(elements)
  }

  /** `List<AnyID>.map { it.bson }`: the i-th element is the i-th id's element. */
  function IdsBson(ids: seq<Ids.Id>): (r: seq<Bson>)
    ensures |r| == |ids|
    ensures forall i | 0 <= i < |ids| :: r[i] == Ids.IdBson(ids[i])
  {
    seq(|ids|, i requires 0 <= i < |ids| => Ids.IdBson(ids[i]))
  }

  class DocumentBuilder {
    /** The entries of the map, in insertion order. */
    var fields: seq<Field>

    ghost predicate Valid()
      reads this
    {
      UniqueNames(fields)
    }

    /** `mutableMapOf()`: an empty builder. */
    constructor ()
      ensures Valid() && fields == []
    {
      fields := [];
    }

    /** `builder[name] = value` */
    method Set(name: string, value: Bson)
      requires Valid()
      modifies this
      ensures Valid()
      ensures fields == Put(old(fields), name, value)
    {
      PutUnique(fields, name, value);
      fields := Put(fields, name, value);
    }

    /** `String.by(BsonElement?)`: the element, or `BsonNull` for null; the key is always
        written. */
    method ByElement(name: string, value: Option<Bson>)
      requires Valid()
      modifies this
      ensures Valid()
      ensures fields == Put(old(fields), name, OrNull(value))
    {
      if value.None? {
        Set(name, Null);
        return;
      }
      Set(name, value.value);
    }

    /** `String.by(BsonDocument?)` and `String.by(BsonDocumentLike?)` (which converts the map
        with `toBsonDocument()`): the nested document, or `BsonNull` for null. */
    method ByDocument(name: string, value: Option<seq<Field>>)
      requires Valid()
      modifies this
      ensures Valid()
      ensures value.None? ==> fields == Put(old(fields), name, Null)
      ensures value.Some? ==> fields == Put(old(fields), name, Doc(value.value))
    {
      if value.None? {
        Set(name, Null);
        return;
      }
      Set(name, Doc(value.value));
    }

    /** `String.by(BsonArray?)` and `String.by(BsonArrayLike?)` (which converts the list with
        `toBsonArray()`): the nested array, or `BsonNull` for null. */
    method ByArray(name: string, value: Option<seq<Bson>>)
      requires Valid()
      modifies this
      ensures Valid()
      ensures value.None? ==> fields == Put(old(fields), name, Null)
      ensures value.Some? ==> fields == Put(old(fields), name, Arr(value.value))
    {
      if value.None? {
        Set(name, Null);
        return;
      }
      Set(name, Arr(value.value));
    }

    /** `byAll(map)`: `builder += map`, every entry of the map in its order. */
    method ByAll(entries: seq<Field>)
      requires Valid()
      modifies this
      ensures Valid()
      ensures fields == PutAll(old(fields), entries)
    {
      PutAllUnique(fields, entries);
      fields := PutAll(fields, entries);
    }

    /** `String.by(block)`: the document the block builds, replacing any earlier value. */
    method ByBlock(name: string, block: seq<Field>)
      requires Valid()
      modifies this
      ensures Valid()
      ensures fields == Put(old(fields), name, Document(block))
    {
      Set(name, Document(block));
    }

    /** `String.flatBy(BsonDocumentLike?)`: `BsonNull` under the prefix for null; otherwise each
        entry under `"prefix.name"`, in the map's order. */
    method FlatBy(prefix: string, value: Option<seq<Field>>)
      requires Valid()
      modifies this
      ensures Valid()
      ensures value.None? ==> fields == Put(old(fields), prefix, Null)
      ensures value.Some? ==> fields == PutAll(old(fields), Flatten(prefix, value.value))
    {
      if value.None? {
        Set(prefix, Null);
        return;
      }
      var m := value.value;
      var i := 0;
      while i < |m|
        invariant 0 <= i <= |m|
        invariant Valid()
        invariant fields == PutAll(old(fields), Flatten(prefix, m[..i]))
      {
        FlattenSnoc(prefix, m, i);
        PutAllSnoc(old(fields), Flatten(prefix, m[..i]), Field(Dotted(prefix, m[i].name), m[i].value));
        Set(Dotted(prefix, m[i].name), m[i].value);
        i := i + 1;
      }
      assert m[..i] == m;
    }

    /** `String.flatBy(block)`: the entries of the document the block builds, under dotted keys. */
    method FlatByBlock(prefix: string, block: seq<Field>)
      requires Valid()
      modifies this
      ensures Valid()
      ensures fields == PutAll(old(fields), Flatten(prefix, Build(block)))
    {
      FlatBy(prefix, Some(Build(block)));
    }

    /** `String.by(String?)`: a String element, or `BsonNull`. */
    method ByString(name: string, value: Option<string>)
      requires Valid()
      modifies this
      ensures Valid()
      ensures fields == Put(old(fields), name, StrOrNull(value))
    {
      Set(name, StrOrNull(value));
    }

    /** `String.by(Boolean?)`: a Boolean element, or `BsonNull`. */
    method ByBool(name: string, value: Option<bool>)
      requires Valid()
      modifies this
      ensures Valid()
      ensures fields == Put(old(fields), name, BoolOrNull(value))
    {
      Set(name, BoolOrNull(value));
    }

    /** `String.by(Int?)`: an Int32 element of the same value, or `BsonNull`. */
    method ByInt(name: string, value: Option<i32>)
      requires Valid()
      modifies this
      ensures Valid()
      ensures fields == Put(old(fields), name, BsonNumbers.IntBson(value))
    {
      Set(name, BsonNumbers.IntBson(value));
    }

    /** `String.by(Long?)`: an Int64 element of the same value, or `BsonNull`. */
    method ByLong(name: string, value: Option<i64>)
      requires Valid()
      modifies this
      ensures Valid()
      ensures fields == Put(old(fields), name, BsonNumbers.LongBson(value))
    {
      Set(name, BsonNumbers.LongBson(value));
    }

    /** `String.by(Double?)`, `String.by(Decimal128?)` and `String.by(Instant?)`: an element of
        the matching opaque kind, or `BsonNull`. */
    method ByOpaque(name: string, kind: OpaqueKind, value: Option<int>)
      requires Valid()
      modifies this
      ensures Valid()
      ensures fields == Put(old(fields), name, OpaqueOrNull(kind, value))
    {
      Set(name, OpaqueOrNull(kind, value));
    }

    /** `String.by(ObjectId?)`: an ObjectId element, or `BsonNull`. */
    method ByObjectId(name: string, value: Option<ObjectIds.ObjectId>)
      requires Valid()
      modifies this
      ensures Valid()
      ensures fields == Put(old(fields), name, ObjIdOrNull(value))
    {
      Set(name, ObjIdOrNull(value));
    }

    /** `String.by(AnyID?)`: the id's element, or `BsonNull`. */
    method ById(name: string, value: Option<Ids.Id>)
      requires Valid()
      modifies this
      ensures Valid()
      ensures fields == Put(old(fields), name, Ids.NullableIdBson(value))
    {
      Set(name, Ids.NullableIdBson(value));
    }

    /** `String.by(List<AnyID>?)`: an array of the ids' elements, or `BsonNull`. */
    method ByIds(name: string, value: Option<seq<Ids.Id>>)
      requires Valid()
      modifies this
      ensures Valid()
      ensures value.None? ==> fields == Put(old(fields), name, Null)
      ensures value.Some? ==> fields == Put(old(fields), name, Arr(IdsBson(value.value)))
    {
      if value.None? {
        Set(name, Null);
        return;
      }
      Set(name, Arr(IdsBson(value.value)));
    }
  }

  /** A null in any nullable overload is stored as `BsonNull`: the key is written, not skipped. */
  lemma NullIsWritten(fs: seq<Field>, name: string)
    ensures Get(Put(fs, name, OrNull(None)), name) == Some(Null)
    ensures name in Names(Put(fs, name, OrNull(None)))
  {
    GetNames(Put(fs, name, OrNull(None)), name);
  }

  /** Assigning a key twice (including `name by { ... }`, which replaces the whole nested
      document) leaves only the second value. */
  lemma LastWriteWins(fs: seq<Field>, name: string, first: Bson, block: seq<Field>)
    ensures Put(Put(fs, name, first), name, Document(block)) == Put(fs, name, Document(block))
  {
    PutPut(fs, name, first, Document(block));
  }

  /** `byAll(map)`: each key of the map now holds the map's value; other keys are unchanged. */
  lemma ByAllEffect(fs: seq<Field>, m: seq<Field>, n: string)
    requires UniqueNames(m)
    ensures n in Names(m) ==> Get(PutAll(fs, m), n) == Get(m, n)
    ensures n !in Names(m) ==> Get(PutAll(fs, m), n) == Get(fs, n)
  {
    LastGetUnique(m, n);
    LastGetNames(m, n);
  }

  /** `flatBy(prefix, map)` writes exactly the keys `"prefix.name"` with the map's values; it
      never sets the prefix itself, and every key not of that form keeps its value. */
  lemma FlatByEffect(fs: seq<Field>, prefix: string, m: seq<Field>)
    requires UniqueNames(m)
    ensures forall i | 0 <= i < |m| ::
      Get(PutAll(fs, Flatten(prefix, m)), Dotted(prefix, m[i].name)) == Some(m[i].value)
    ensures Get(PutAll(fs, Flatten(prefix, m)), prefix) == Get(fs, prefix)
    ensures forall n | n !in Names(Flatten(prefix, m)) :: Get(PutAll(fs, Flatten(prefix, m)), n) == Get(fs, n)
  {
    var flat := Flatten(prefix, m);
    FlattenNames(prefix, m);
    forall i | 0 <= i < |m|
      ensures Get(PutAll(fs, flat), Dotted(prefix, m[i].name)) == Some(m[i].value)
    {
      var n := Dotted(prefix, m[i].name);
      LastGetUnique(flat, n);
      GetIndex(flat, i);
      LastGetNames(flat, n);
    }
    forall n | n !in Names(flat)
      ensures Get(PutAll(fs, flat), n) == Get(fs, n)
    {
      LastGetNames(flat, n);
    }
  }

  /** `by(Int)` stores an Int32 and `by(Long)` an Int64: the width is kept. */
  lemma WidthPreserved(x: i32, y: i64)
    ensures BsonNumbers.IntBson(Some(x)) == Int32(x)
    ensures BsonNumbers.LongBson(Some(y)) == Int64(y)
    ensures BsonNumbers.IntBson(Some(x)) != BsonNumbers.LongBson(Some(x))
  {
  }
}
