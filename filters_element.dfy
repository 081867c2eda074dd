/** Element query operators (filters/_Element.kt): `$exists` and `$type`. */
module FilterElements {
  import opened Ints
  import opened Bson
  import opened Wrappers
  import opened DocumentBuilders
  import ArrayBuilders

  /** Operator form `$exists(value)`. */
  method Exists(b: DocumentBuilder, value: bool)
    requires b.Valid()
    modifies b
    ensures b.Valid()
    ensures b.fields == Put(old(b.fields), "$exists", Bool(value))
  {
    b.ByBool("$exists", Some(value));
  }

  /** Query form `field $exists value`. */
  method ExistsQuery(b: DocumentBuilder, field: string, value: bool)
    requires b.Valid()
    modifies b
    ensures b.Valid()
    ensures b.fields == Put(old(b.fields), field, OneField("$exists", Bool(value)))
  {
    var d := new DocumentBuilder();
    Exists(d, value);
    DocumentOfOne("$exists", Bool(value));
    b.ByBlock(field, d.fields);
  }

  /** The argument of `$type`: one numeric type code, one type alias, or a list of either. */
  datatype TypeSpec = Code(code: i32) | Alias(alias: string) | Codes(codes: seq<i32>) | Aliases(aliases: seq<string>)

  /** The value `$type` holds for each argument kind; a list becomes an array of its entries in
      order. */
  function TypeValue(t: TypeSpec): (r: Bson)
    ensures t.Code? ==> r == Int32(t.code)
    ensures t.Alias? ==> r == Str(t.alias)
    ensures t.Codes? ==> r.Arr? && |r.items| == |t.codes|
                         && forall i | 0 <= i < |t.codes| :: r.items[i] == Int32(t.codes[i])
    ensures t.Aliases? ==> r.Arr? && |r.items| == |t.aliases|
                           && forall i | 0 <= i < |t.aliases| :: r.items[i] == Str(t.aliases[i])
  {
    match t
    case Code(c) => Int32(c)
    case Alias(a) => Str(a)
    case Codes(cs) => Arr(ArrayBuilders.Int32s(cs))
    case Aliases(as_) => Arr(ArrayBuilders.Strs(as_))
  }

  /** Operator form `$type(type)` for each of the four overloads. */
  method Type(b: DocumentBuilder, t: TypeSpec)
    requires b.Valid()
    modifies b
    ensures b.Valid()
    ensures b.fields == Put(old(b.fields), "$type", TypeValue(t))
  {
    match t
    case Code(c) =>
      b.ByInt("$type", Some(c));
    case Alias(a) =>
      b.ByString("$type", Some(a));
    case Codes(cs) =>
      var items := ArrayBuilders.ArrayOfInts(cs);
      b.Set("$type", Array(items));
    case Aliases(as_) =>
      var items := ArrayBuilders.ArrayOfStrings(as_);
      b.Set("$type", Array(items));
  }

  /** Query form `field $type type` for each of the four overloads. */
  method TypeQuery(b: DocumentBuilder, field: string, t: TypeSpec)
    requires b.Valid()
    modifies b
    ensures b.Valid()
    ensures b.fields == Put(old(b.fields), field, OneField("$type", TypeValue(t)))
  {
    var d := new DocumentBuilder();
    Type(d, t);
    DocumentOfOne("$type", TypeValue(t));
    b.ByBlock(field, d.fields);
  }

  /** A single code and a one-element list of that code are different filter documents: the
      list form always writes an array. */
  lemma {:induction false} SingleVersusList(c: i32, a: string)
    ensures TypeValue(Codes([c])) == Arr([Int32(c)]) != TypeValue(Code(c))
    ensures TypeValue(Aliases([a])) == Arr([Str(a)]) != TypeValue(Alias(a))
  {
    assert ArrayBuilders.Int32s([c])[0] == Int32(c);
    assert ArrayBuilders.Strs([a])[0] == Str(a);
  }

  /** The value `$type` holds determines the argument: codes and aliases are never confused. */
  lemma {:induction false} TypeValueInjective(t: TypeSpec, u: TypeSpec)
    requires TypeValue(t) == TypeValue(u)
    ensures t.Code? <==> u.Code?
    ensures t.Alias? <==> u.Alias?
    ensures t.Code? || t.Alias? ==> t == u
    ensures t.Codes? && u.Codes? ==> t == u
    ensures t.Aliases? && u.Aliases? ==> t == u
  {
    if t.Codes? && u.Codes? {
      assert |t.codes| == |u.codes|;
      forall i | 0 <= i < |t.codes| ensures t.codes[i] == u.codes[i] {
        assert TypeValue(t).items[i] == Int32(t.codes[i]);
        assert TypeValue(u).items[i] == Int32(u.codes[i]);
      }
    }
    if t.Aliases? && u.Aliases? {
      assert |t.aliases| == |u.aliases|;
      forall i | 0 <= i < |t.aliases| ensures t.aliases[i] == u.aliases[i] {
        assert TypeValue(t).items[i] == Str(t.aliases[i]);
        assert TypeValue(u).items[i] == Str(u.aliases[i]);
      }
    }
  }
}
