/** `ID<T>` (ID.kt): a typed wrapper around the string form of a document id. The type
    parameter only tags the id at compile time, so the model drops it. */
module Ids {
  import opened Wrappers
  import opened ObjectIds
  import opened Bson

  datatype Id = Id(value: string)

  /** `ID(objectId)`: the ObjectId's hex string. */
  function FromObjectId(o: ObjectId): (r: Id)
    ensures IsValid(r.value)
    ensures FromHexString(r.value) == Ok(o)
  {
    HexRoundTrip(o);
    Id(ToHexString(o))
  }

  /** `ID(otherId)`, and the `AnyID.toID()` re-typings: the same string under another type. */
  function Retype(id: Id): (r: Id)
    ensures r.value == id.value
  {
    Id(id.value)
  }

  /** `String.toID()`: the string wrapped unchanged. */
  function StringToId(s: string): (r: Id)
    ensures r.value == s
  {
    Id(s)
  }

  /** `toString()`: the wrapped string unchanged. */
  function ToString(id: Id): (s: string)
    ensures StringToId(s) == id
  {
    id.value
  }

  /** `AnyID.bson`: an ObjectId element when the string is a valid ObjectId, a String element
      with the same text otherwise. */
  function IdBson(id: Id): (r: Bson)
    ensures r.ObjId? <==> IsValid(id.value)
    ensures !IsValid(id.value) ==> r == Str(id.value)
    ensures r.ObjId? ==> FromHexString(id.value) == Ok(r.oid)
  {
    if IsValid(id.value) then ObjId(FromHexString(id.value).value) else Str(id.value)
  }

  /** `AnyID?.bson`: null lifts to `BsonNull`. */
  function NullableIdBson(id: Option<Id>): (r: Bson)
    ensures id.None? ==> r == Null
    ensures id.Some? ==> r == IdBson(id.value)
  {
    if id.Some? then IdBson(id.value) else Null
  }

  /** `AnyID.toObjectId()`: throws IllegalArgumentException unless the string is valid. */
  function ToObjectId(id: Id): (r: Result<ObjectId>)
    ensures r.Ok? <==> IsValid(id.value)
    ensures r.Ok? ==> IdBson(id) == ObjId(r.value)
  {
    FromHexString(id.value)
  }

  /** `AnyID.toObjectIdOrNull()`: null exactly when the string is not a valid ObjectId. */
  function ToObjectIdOrNull(id: Id): (r: Option<ObjectId>)
    ensures r.None? <==> !IsValid(id.value)
    ensures r.Some? ==> ToObjectId(id) == Ok(r.value)
  {
    if IsValid(id.value) then Some(FromHexString(id.value).value) else None
  }

  /** `IDSerializer.serialize`: the id is encoded as its string. */
  function Serialize(id: Id): string {
    id.value
  }

  /** `IDSerializer.deserialize`: the decoded string becomes an id. */
  function Deserialize(s: string): Id {
    Id(s)
  }

  /** Deserializing a serialized id gives the same id, and serializing a deserialized string
      gives the same string. */
  lemma SerializerRoundTrip(id: Id, s: string)
    ensures Deserialize(Serialize(id)) == id
    ensures Serialize(Deserialize(s)) == s
  {
  }

  /** An id made from an ObjectId is stored as that very ObjectId. */
  lemma ObjectIdIdBson(o: ObjectId)
    ensures IdBson(FromObjectId(o)) == ObjId(o)
  {
  }

  /** An id whose text is an ObjectId in lower case survives the trip through its ObjectId. */
  lemma ObjectIdRoundTrip(id: Id, o: ObjectId)
    requires ToObjectId(id) == Ok(o)
    requires forall i | 0 <= i < |id.value| :: !('A' <= id.value[i] <= 'F')
    ensures FromObjectId(o) == id
  {
    var s := id.value;
    assert ToHexString(o) == seq(|s|, i requires 0 <= i < |s| => LowerHex(s[i]));
    assert ToHexString(o) == s;
  }
}
