/** Array query operators (filters/_Array.kt): `$all`, `$elemMatch` and `$size`. */
module FilterArrays {
  import opened Ints
  import opened Bson
  import opened Wrappers
  import opened DocumentBuilders

  /** Operator form `all(vararg values)`, through `array(*values)`. */
  method All(b: DocumentBuilder, values: seq<Bson>)
    requires b.Valid()
    modifies b
    ensures b.Valid()
    ensures b.fields == Put(old(b.fields), "$all", Arr(values))
  {
    b.Set("$all", Array(values));
  }

  /** Operator form `all(values: List)`, through the list overload of `by`; it writes the same
      array as the vararg form. */
  method AllList(b: DocumentBuilder, values: seq<Bson>)
    requires b.Valid()
    modifies b
    ensures b.Valid()
    ensures b.fields == Put(old(b.fields), "$all", Arr(values))
  {
    b.ByArray("$all", Some(values));
  }

  /** Query form `field all values`. */
  method AllQuery(b: DocumentBuilder, field: string, values: seq<Bson>)
    requires b.Valid()
    modifies b
    ensures b.Valid()
    ensures b.fields == Put(old(b.fields), field, OneField("$all", Arr(values)))
  {
    var d := new DocumentBuilder();
    AllList(d, values);
    DocumentOfOne("$all", Arr(values));
    b.ByBlock(field, d.fields);
  }

  /** Operator form `elemMatch(block)`: the query document the block builds. */
  method ElemMatch(b: DocumentBuilder, query: seq<Field>)
    requires b.Valid()
    modifies b
    ensures b.Valid()
    ensures b.fields == Put(old(b.fields), "$elemMatch", Document(query))
  {
    b.ByBlock("$elemMatch", query);
  }

  /** Operator form `elemMatch(document)`: the query document as given. */
  method ElemMatchDocument(b: DocumentBuilder, query: seq<Field>)
    requires b.Valid()
    modifies b
    ensures b.Valid()
    ensures b.fields == Put(old(b.fields), "$elemMatch", Doc(query))
  {
    b.ByDocument("$elemMatch", Some(query));
  }

  /** Query form `field elemMatch block`. */
  method ElemMatchQuery(b: DocumentBuilder, field: string, query: seq<Field>)
    requires b.Valid()
    modifies b
    ensures b.Valid()
    ensures b.fields == Put(old(b.fields), field, OneField("$elemMatch", Document(query)))
  {
    var d := new DocumentBuilder();
    ElemMatch(d, query);
    DocumentOfOne("$elemMatch", Document(query));
    b.ByBlock(field, d.fields);
  }

  /** Query form `field elemMatch document`. */
  method ElemMatchDocumentQuery(b: DocumentBuilder, field: string, query: seq<Field>)
    requires b.Valid()
    modifies b
    ensures b.Valid()
    ensures b.fields == Put(old(b.fields), field, OneField("$elemMatch", Doc(query)))
  {
    var d := new DocumentBuilder();
    ElemMatchDocument(d, query);
    DocumentOfOne("$elemMatch", Doc(query));
    b.ByBlock(field, d.fields);
  }

  /** The block and document overloads of `elemMatch` agree exactly when the block assigns
      each name once; a block that repeats a name keeps only its last value. */
  lemma {:induction false} ElemMatchOverloadsAgree(query: seq<Field>)
    ensures Document(query) == Doc(query) <==> UniqueNames(query)
  {
    if UniqueNames(query) {
      DocumentOfDistinct(query);
    }
  }

  /** Operator form `size(Int)`: an Int32 count. */
  method Size(b: DocumentBuilder, value: i32)
    requires b.Valid()
    modifies b
    ensures b.Valid()
    ensures b.fields == Put(old(b.fields), "$size", Int32(value))
  {
    b.ByInt("$size", Some(value));
  }

  /** Operator form `size(Long)`: an Int64 count. */
  method SizeLong(b: DocumentBuilder, value: i64)
    requires b.Valid()
    modifies b
    ensures b.Valid()
    ensures b.fields == Put(old(b.fields), "$size", Int64(value))
  {
    b.ByLong("$size", Some(value));
  }

  /** Query form `field size Int`. */
  method SizeQuery(b: DocumentBuilder, field: string, value: i32)
    requires b.Valid()
    modifies b
    ensures b.Valid()
    ensures b.fields == Put(old(b.fields), field, OneField("$size", Int32(value)))
  {
    var d := new DocumentBuilder();
    Size(d, value);
    DocumentOfOne("$size", Int32(value));
    b.ByBlock(field, d.fields);
  }

  /** Query form `field size Long`. */
  method SizeLongQuery(b: DocumentBuilder, field: string, value: i64)
    requires b.Valid()
    modifies b
    ensures b.Valid()
    ensures b.fields == Put(old(b.fields), field, OneField("$size", Int64(value)))
  {
    var d := new DocumentBuilder();
    SizeLong(d, value);
    DocumentOfOne("$size", Int64(value));
    b.ByBlock(field, d.fields);
  }
}
