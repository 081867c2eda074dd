/** Comparison query operators (filters/_Comparison.kt). Each operator form assigns one
    `$`-prefixed key in the operator document being built; each query form assigns the field
    a nested operator document holding that one key. */
module FilterComparisons {
  import opened Bson
  import opened Wrappers
  import opened DocumentBuilders

  datatype ComparisonOperator = Eq | Gt | Gte | Lt | Lte | Ne

  function Key(op: ComparisonOperator): string
  {
    match op
    case Eq => "$eq"
    case Gt => "$gt"
    case Gte => "$gte"
    case Lt => "$lt"
    case Lte => "$lte"
    case Ne => "$ne"
  }

  datatype MembershipOperator = In | Nin

  function MembershipKey(op: MembershipOperator): string
  {
    match op
    case In => "$in"
    case Nin => "$nin"
  }

  /** Operator form `eq(value)`, `gt(value)`, ...: the operator key holds the value. */
  method Compare(b: DocumentBuilder, op: ComparisonOperator, value: Bson)
    requires b.Valid()
    modifies b
    ensures b.Valid()
    ensures b.fields == Put(old(b.fields), Key(op), value)
  {
    b.Set(Key(op), value);
  }

  /** Query form `field eq value`, ...: the field holds `{op: value}`. */
  method CompareQuery(b: DocumentBuilder, field: string, op: ComparisonOperator, value: Bson)
    requires b.Valid()
    modifies b
    ensures b.Valid()
    ensures b.fields == Put(old(b.fields), field, OneField(Key(op), value))
  {
    var d := new DocumentBuilder();
    Compare(d, op, value);
    DocumentOfOne(Key(op), value);
    b.ByBlock(field, d.fields);
  }

  /** Operator form `_in(vararg values)` / `nin(vararg values)`, through `array(*values)`. */
  method Membership(b: DocumentBuilder, op: MembershipOperator, values: seq<Bson>)
    requires b.Valid()
    modifies b
    ensures b.Valid()
    ensures b.fields == Put(old(b.fields), MembershipKey(op), Arr(values))
  {
    b.Set(MembershipKey(op), Array(values));
  }

  /** Operator form `_in(values: List)` / `nin(values: List)`, through the list overload of
      `by`; it writes the same array as the vararg form. */
  method MembershipList(b: DocumentBuilder, op: MembershipOperator, values: seq<Bson>)
    requires b.Valid()
    modifies b
    ensures b.Valid()
    ensures b.fields == Put(old(b.fields), MembershipKey(op), Arr(values))
  {
    b.ByArray(MembershipKey(op), Some(values));
  }

  /** Query form `field _in values` / `field nin values`. */
  method MembershipQuery(b: DocumentBuilder, field: string, op: MembershipOperator, values: seq<Bson>)
    requires b.Valid()
    modifies b
    ensures b.Valid()
    ensures b.fields == Put(old(b.fields), field, OneField(MembershipKey(op), Arr(values)))
  {
    var d := new DocumentBuilder();
    MembershipList(d, op, values);
    DocumentOfOne(MembershipKey(op), Arr(values));
    b.ByBlock(field, d.fields);
  }

  /** The six comparison keys are pairwise distinct and distinct from the membership keys. */
  lemma KeysDistinct(a: ComparisonOperator, c: ComparisonOperator, m: MembershipOperator, n: MembershipOperator)
    ensures Key(a) == Key(c) <==> a == c
    ensures MembershipKey(m) == MembershipKey(n) <==> m == n
    ensures Key(a) != MembershipKey(m)
  {
  }

  /** Two query forms on the same field in one block do not combine: `"age" gt 3` followed by
      `"age" lt 9` leaves only `{"age": {"$lt": 9}}` at the field's first position. */
  lemma {:induction false} QueryOnSameFieldReplaces(fs: seq<Field>, field: string,
                                                    op1: ComparisonOperator, v1: Bson,
                                                    op2: ComparisonOperator, v2: Bson)
    ensures Put(Put(fs, field, OneField(Key(op1), v1)), field, OneField(Key(op2), v2))
         == Put(fs, field, OneField(Key(op2), v2))
    ensures Get(Put(Put(fs, field, OneField(Key(op1), v1)), field, OneField(Key(op2), v2)), field)
         == Some(Doc([Field(Key(op2), v2)]))
  {
    PutPut(fs, field, OneField(Key(op1), v1), OneField(Key(op2), v2));
  }

  /** A range is written with operator forms inside one query block instead:
      `"age" by { gt(lo); lt(hi) }` keeps both bounds, in order. */
  lemma RangeBlock(lower: ComparisonOperator, lo: Bson, upper: ComparisonOperator, hi: Bson)
    requires lower != upper
    ensures Document([Field(Key(lower), lo), Field(Key(upper), hi)])
         == Doc([Field(Key(lower), lo), Field(Key(upper), hi)])
  {
    KeysDistinct(lower, upper, In, In);
    var block := [Field(Key(lower), lo), Field(Key(upper), hi)];
    assert Names(block) == [Key(lower), Key(upper)];
    DocumentOfDistinct(block);
  }
}
