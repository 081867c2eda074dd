/** The aggregation-expression builder (expr/Declarations.kt). An `Expr<T>` wraps one BSON
    element; its type parameter is a compile-time tag and its data-class equality looks only
    at the element, so the model keeps the element alone. Every builder runs a block on a
    fresh document builder and returns the one-key document `{operator: operand}`. */
module Expressions {
  import opened Ints
  import opened Wrappers
  import opened Bson
  import opened Slots
  import BsonNumbers
  import ObjectIds
  import Ids
  import DocumentBuilders

  datatype Expr = Expr(element: Bson)

  /** `Expr(block)`: the expression holding the document the block builds. */
  function ExprOf(block: seq<Field>): (r: Expr)
    ensures r.element.Doc? && UniqueNames(r.element.fields)
    ensures forall n :: Get(r.element.fields, n) == LastGet(block, n)
  {
    Expr(DocumentBuilders.Document(block))
  }

  /** `buildExpr(block)`: the element of the expression the block returns. */
  function BuildExpr(result: Expr): (r: Bson)
    ensures Expr(r) == result
  {
    result.element
  }

  /** `ref(name)`: the field path `"$name"` as a String element. */
  function Ref(name: string): (r: Expr)
    ensures r.element.Str? && |r.element.s| == |name| + 1
    ensures r.element.s[0] == '$' && r.element.s[1..] == name
  {
    Expr(Str("$" + name))
  }

  /** `cast(expr)`: only the static tag changes. */
  function Cast(e: Expr): (r: Expr)
    ensures r.element == e.element
  {
    e
  }

  /** `Nothing?.expr`, `BsonElement?.expr` and the typed `Bson*?.expr` liftings: the element
      itself, or `BsonNull` for null. */
  function Lift(v: Option<Bson>): (r: Expr)
    ensures v.None? ==> r.element == Null
    ensures v.Some? ==> r.element == v.value
  {
    Expr(OrNull(v))
  }

  /** `Int?.expr`: an Int32 element, or `BsonNull`. */
  function LiftInt(v: Option<i32>): (r: Expr)
    ensures v.None? ==> r.element == Null
    ensures v.Some? ==> r.element == Int32(v.value)
  {
    Expr(BsonNumbers.IntBson(v))
  }

  /** `Long?.expr`: an Int64 element, or `BsonNull`. */
  function LiftLong(v: Option<i64>): (r: Expr)
    ensures v.None? ==> r.element == Null
    ensures v.Some? ==> r.element == Int64(v.value)
  {
    Expr(BsonNumbers.LongBson(v))
  }

  /** `Boolean?.expr` */
  function LiftBool(v: Option<bool>): (r: Expr)
    ensures v.None? ==> r.element == Null
    ensures v.Some? ==> r.element == Bool(v.value)
  {
    Expr(BoolOrNull(v))
  }

  /** `String?.expr` */
  function LiftString(v: Option<string>): (r: Expr)
    ensures v.None? ==> r.element == Null
    ensures v.Some? ==> r.element == Str(v.value)
  {
    Expr(StrOrNull(v))
  }

  /** `ObjectId?.expr` */
  function LiftObjectId(v: Option<ObjectIds.ObjectId>): (r: Expr)
    ensures v.None? ==> r.element == Null
    ensures v.Some? ==> r.element == ObjId(v.value)
  {
    Expr(ObjIdOrNull(v))
  }

  /** `AnyID?.expr`: the id's element (an ObjectId for a valid hex string, else a String). */
  function LiftId(v: Option<Ids.Id>): (r: Expr)
    ensures v.None? ==> r.element == Null
    ensures v.Some? ==> r.element == Ids.IdBson(v.value)
  {
    Expr(Ids.NullableIdBson(v))
  }

  /** `Double?.expr`, `Decimal128?.expr` and `Instant?.expr`: an element of that kind. */
  function LiftOpaque(kind: OpaqueKind, v: Option<int>): (r: Expr)
    ensures v.None? ==> r.element == Null
    ensures v.Some? ==> r.element == Opaque(kind, v.value)
  {
    Expr(OpaqueOrNull(kind, v))
  }

  /** The expression is the one-key document whose key is `key`. */
  predicate IsOperator(e: Expr, key: string) {
    e.element.Doc? && |e.element.fields| == 1 && e.element.fields[0].name == key
  }

  /** The value under the single key of an operator expression. */
  function Operand(e: Expr): Bson
    requires e.element.Doc? && |e.element.fields| >= 1
  {
    e.element.fields[0].value
  }

  /** `Expr { key by operand }`. */
  function Operator(key: string, operand: Bson): (r: Expr)
    ensures IsOperator(r, key) && Operand(r) == operand
  {
    DocumentBuilders.DocumentOfOne(key, operand);
    Expr(DocumentBuilders.Document([Field(key, operand)]))
  }

  /** Two operator expressions are equal exactly when key and operand are. */
  lemma OperatorInjective(k1: string, a: Bson, k2: string, b: Bson)
    ensures Operator(k1, a) == Operator(k2, b) <==> k1 == k2 && a == b
  {
    if Operator(k1, a) == Operator(k2, b) {
      assert Operand(Operator(k1, a)) == a;
    }
  }

  /** `list.forEach { by(it.element) }` inside an array block: the elements in order. */
  function Elements(es: seq<Expr>): (r: seq<Bson>)
    ensures |r| == |es|
    ensures forall i | 0 <= i < |es| :: r[i] == es[i].element
  {
    seq(|es|, i requires 0 <= i < |es| => es[i].element)
  }

  /** `Expr { key by array(a.element, b.element, ...) }`: the arguments wrapped in an array,
      in argument order. */
  function Args(key: string, args: seq<Expr>): (r: Expr)
    ensures IsOperator(r, key) && Operand(r).Arr?
    ensures |Operand(r).items| == |args|
    ensures forall i | 0 <= i < |args| :: Operand(r).items[i] == args[i].element
  {
    Operator(key, DocumentBuilders.Array(Elements(args)))
  }

  /** The arguments of an array-operand expression, as listed in the array. */
  function ArgsOf(e: Expr): seq<Bson>
    requires e.element.Doc? && |e.element.fields| >= 1 && Operand(e).Arr?
  {
    Operand(e).items
  }

  /** `Expr { key by { "a" by ...; if (b != null) "b" by b; ... } }`: a document operand
      written by a block of guarded assignments. */
  function Fields(key: string, slots: seq<Slot>): (r: Expr)
    requires Distinct(SlotNames(slots))
    ensures IsOperator(r, key) && Operand(r).Doc?
    ensures UniqueNames(Operand(r).fields)
    ensures forall i | 0 <= i < |slots| :: Get(Operand(r).fields, slots[i].name) == slots[i].value
    ensures forall n | n !in SlotNames(slots) :: Get(Operand(r).fields, n) == None
    ensures IsSubsequence(Names(Operand(r).fields), SlotNames(slots))
    ensures slots != [] && slots[0].value.Some? ==>
      |Operand(r).fields| > 0 && Operand(r).fields[0] == Field(slots[0].name, slots[0].value.value)
    ensures (forall i | 0 <= i < |slots| :: slots[i].value.Some?) ==> Names(Operand(r).fields) == SlotNames(slots)
  {
    WrittenSpec(slots);
    WrittenAllPresent(slots);
    BuildWritten(slots);
    forall i | 0 <= i < |slots|
      ensures SlotValue(slots, slots[i].name) == slots[i].value
    {
      SlotValueAt(slots, i);
    }
    forall n | n !in SlotNames(slots)
      ensures SlotValue(slots, n) == None
    {
      SlotValueAbsent(slots, n);
    }
    Operator(key, DocumentBuilders.Document(Written(slots)))
  }

  /** The value an object-operand expression holds under `name`. */
  function Lookup(e: Expr, name: string): Option<Bson>
    requires e.element.Doc? && |e.element.fields| >= 1 && Operand(e).Doc?
  {
    Get(Operand(e).fields, name)
  }

  /** The keys of an object-operand expression occur once each, in the order of `order`, and
      none outside it. */
  predicate KeysInOrder(e: Expr, order: seq<string>)
    requires e.element.Doc? && |e.element.fields| >= 1 && Operand(e).Doc?
  {
    UniqueNames(Operand(e).fields) && IsSubsequence(Names(Operand(e).fields), order)
  }

  // `Fields` for the block sizes the builders use, with the lookups spelled out.
  function Fields2(key: string, a: Slot, b: Slot): (r: Expr)
    requires Distinct([a.name, b.name])
    ensures IsOperator(r, key) && Operand(r).Doc?
    ensures Lookup(r, a.name) == a.value
    ensures Lookup(r, b.name) == b.value
    ensures forall n | n !in [a.name, b.name] :: Lookup(r, n) == None
    ensures KeysInOrder(r, [a.name, b.name])
    ensures a.value.Some? ==> |Operand(r).fields| > 0 && Operand(r).fields[0] == Field(a.name, a.value.value)
    ensures a.value.Some? && b.value.Some? ==> Names(Operand(r).fields) == [a.name, b.name]
  {
    var s := [a, b];
    SlotNamesIndex(s);
    assert SlotNames(s) == [a.name, b.name];
    assert s[0] == a && s[1] == b;
    Fields(key, s)
  }

  function Fields3(key: string, a: Slot, b: Slot, c: Slot): (r: Expr)
    requires Distinct([a.name, b.name, c.name])
    ensures IsOperator(r, key) && Operand(r).Doc?
    ensures Lookup(r, a.name) == a.value
    ensures Lookup(r, b.name) == b.value
    ensures Lookup(r, c.name) == c.value
    ensures forall n | n !in [a.name, b.name, c.name] :: Lookup(r, n) == None
    ensures KeysInOrder(r, [a.name, b.name, c.name])
    ensures a.value.Some? ==> |Operand(r).fields| > 0 && Operand(r).fields[0] == Field(a.name, a.value.value)
    ensures a.value.Some? && b.value.Some? && c.value.Some? ==> Names(Operand(r).fields) == [a.name, b.name, c.name]
  {
    var s := [a, b, c];
    SlotNamesIndex(s);
    assert SlotNames(s) == [a.name, b.name, c.name];
    assert s[0] == a && s[1] == b && s[2] == c;
    Fields(key, s)
  }

  function Fields4(key: string, a: Slot, b: Slot, c: Slot, d: Slot): (r: Expr)
    requires Distinct([a.name, b.name, c.name, d.name])
    ensures IsOperator(r, key) && Operand(r).Doc?
    ensures Lookup(r, a.name) == a.value
    ensures Lookup(r, b.name) == b.value
    ensures Lookup(r, c.name) == c.value
    ensures Lookup(r, d.name) == d.value
    ensures forall n | n !in [a.name, b.name, c.name, d.name] :: Lookup(r, n) == None
    ensures KeysInOrder(r, [a.name, b.name, c.name, d.name])
    ensures a.value.Some? ==> |Operand(r).fields| > 0 && Operand(r).fields[0] == Field(a.name, a.value.value)
  {
    var s := [a, b, c, d];
    SlotNamesIndex(s);
    assert SlotNames(s) == [a.name, b.name, c.name, d.name];
    assert s[0] == a && s[1] == b && s[2] == c && s[3] == d;
    Fields(key, s)
  }

  function Fields5(key: string, a: Slot, b: Slot, c: Slot, d: Slot, e: Slot): (r: Expr)
    requires Distinct([a.name, b.name, c.name, d.name, e.name])
    ensures IsOperator(r, key) && Operand(r).Doc?
    ensures Lookup(r, a.name) == a.value
    ensures Lookup(r, b.name) == b.value
    ensures Lookup(r, c.name) == c.value
    ensures Lookup(r, d.name) == d.value
    ensures Lookup(r, e.name) == e.value
    ensures forall n | n !in [a.name, b.name, c.name, d.name, e.name] :: Lookup(r, n) == None
    ensures KeysInOrder(r, [a.name, b.name, c.name, d.name, e.name])
    ensures a.value.Some? ==> |Operand(r).fields| > 0 && Operand(r).fields[0] == Field(a.name, a.value.value)
  {
    var s := [a, b, c, d, e];
    SlotNamesIndex(s);
    assert SlotNames(s) == [a.name, b.name, c.name, d.name, e.name];
    assert s[0] == a && s[1] == b && s[2] == c && s[3] == d && s[4] == e;
    Fields(key, s)
  }

  function Fields8(key: string, a: Slot, b: Slot, c: Slot, d: Slot, e: Slot, f: Slot, g: Slot, h: Slot): (r: Expr)
    requires Distinct([a.name, b.name, c.name, d.name, e.name, f.name, g.name, h.name])
    ensures IsOperator(r, key) && Operand(r).Doc?
    ensures Lookup(r, a.name) == a.value
    ensures Lookup(r, b.name) == b.value
    ensures Lookup(r, c.name) == c.value
    ensures Lookup(r, d.name) == d.value
    ensures Lookup(r, e.name) == e.value
    ensures Lookup(r, f.name) == f.value
    ensures Lookup(r, g.name) == g.value
    ensures Lookup(r, h.name) == h.value
    ensures forall n | n !in [a.name, b.name, c.name, d.name, e.name, f.name, g.name, h.name] :: Lookup(r, n) == None
    ensures KeysInOrder(r, [a.name, b.name, c.name, d.name, e.name, f.name, g.name, h.name])
    ensures a.value.Some? ==> |Operand(r).fields| > 0 && Operand(r).fields[0] == Field(a.name, a.value.value)
  {
    var s := [a, b, c, d, e, f, g, h];
    SlotNamesIndex(s);
    assert SlotNames(s) == [a.name, b.name, c.name, d.name, e.name, f.name, g.name, h.name];
    assert s[0] == a && s[1] == b && s[2] == c && s[3] == d && s[4] == e && s[5] == f && s[6] == g && s[7] == h;
    Fields(key, s)
  }

  /** The element of an optional expression argument. */
  function ElementOf(e: Option<Expr>): (r: Option<Bson>)
    ensures r.Some? <==> e.Some?
    ensures e.Some? ==> r.value == e.value.element
  {
    if e.Some? then Some(e.value.element) else None
  }

  /** An optional `String?` argument written with `"name" by s`. */
  function StrOf(s: Option<string>): (r: Option<Bson>)
    ensures r.Some? <==> s.Some?
    ensures s.Some? ==> r.value == Str(s.value)
  {
    if s.Some? then Some(Str(s.value)) else None
  }

  /** An optional `Boolean?` argument written with `"name" by b`. */
  function BoolOf(b: Option<bool>): (r: Option<Bson>)
    ensures r.Some? <==> b.Some?
    ensures b.Some? ==> r.value == Bool(b.value)
  {
    if b.Some? then Some(Bool(b.value)) else None
  }
}
