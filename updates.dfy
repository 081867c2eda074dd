/** The update-operator DSL (Updates.kt). Each operator writes one operator key into the
    document builder it runs in; its array-builder form appends the one-key document that the
    document form writes into a fresh builder. */
module Updates {
  import opened Wrappers
  import opened Bson
  import BsonNumbers
  import opened DocumentBuilders
  import opened ArrayBuilders

  /** The operators that take a field name and a value (and, some of them, a block). */
  datatype UpdateOperator = Set | Unset | SetOnInsert | Inc | Mul | Min | Max | AddToSet | Push

  /** The key each operator writes. */
  function Key(op: UpdateOperator): string {
    match op
    case Set => "$set"
    case Unset => "$unset"
    case SetOnInsert => "$setOnInsert"
    case Inc => "$inc"
    case Mul => "$mul"
    case Min => "$min"
    case Max => "$max"
    case AddToSet => "$addToSet"
    case Push => "$push"
  }

  /** `SET`, `UNSET`, `SET_ON_INSERT`, `ADD_TO_SET` and `PUSH` also take a whole block. */
  predicate HasBlockForm(op: UpdateOperator) {
    op.Set? || op.Unset? || op.SetOnInsert? || op.AddToSet? || op.Push?
  }

  /** `INC`, `MUL`, `MIN` and `MAX` take a `BsonNumber`; the others any element. */
  predicate TakesNumber(op: UpdateOperator) {
    op.Inc? || op.Mul? || op.Min? || op.Max?
  }

  /** The modifiers of `PUSH_EACH`; each one is written only when it is set. */
  datatype PushOptions = PushOptions(position: Option<Bson>, slice: Option<Bson>, sort: Option<Bson>)

  /** The inner document of `PUSH_EACH`: `$each`, then `$position`, `$slice` and `$sort` when set. */
  function PushEachModifiers(block: seq<Bson>, options: PushOptions): seq<Field> {
    [Field("$each", Arr(block))]
    + (if options.position.Some? then [Field("$position", options.position.value)] else [])
    + (if options.slice.Some? then [Field("$slice", options.slice.value)] else [])
    + (if options.sort.Some? then [Field("$sort", options.sort.value)] else [])
  }

  /** `SET(block)`, `UNSET(block)`, `SET_ON_INSERT(block)`, `ADD_TO_SET(block)`, `PUSH(block)`:
      the operator key holds the document the block builds. */
  method OperatorBlock(b: DocumentBuilder, op: UpdateOperator, block: seq<Field>)
    requires HasBlockForm(op) && b.Valid()
    modifies b
    ensures b.Valid()
    ensures b.fields == Put(old(b.fields), Key(op), Document(block))
  {
    b.ByBlock(Key(op), block);
  }

  /** The array-builder form of the block operators. */
  method OperatorBlockInArray(a: ArrayBuilder, op: UpdateOperator, block: seq<Field>)
    requires HasBlockForm(op)
    modifies a
    ensures a.items == old(a.items) + [OneField(Key(op), Document(block))]
  {
    var d := new DocumentBuilder();
    OperatorBlock(d, op, block);
    a.Add(Doc(d.fields));
  }

  /** `SET(name, value)` and the other named forms: `$op by { name by value }`. */
  method OperatorField(b: DocumentBuilder, op: UpdateOperator, name: string, value: Bson)
    requires TakesNumber(op) ==> BsonNumbers.IsNumber(value)
    requires b.Valid()
    modifies b
    ensures b.Valid()
    ensures b.fields == Put(old(b.fields), Key(op), OneField(name, value))
  {
    DocumentOfOne(name, value);
    b.ByBlock(Key(op), [Field(name, value)]);
  }

  /** The array-builder form of the named operators. */
  method OperatorFieldInArray(a: ArrayBuilder, op: UpdateOperator, name: string, value: Bson)
    requires TakesNumber(op) ==> BsonNumbers.IsNumber(value)
    modifies a
    ensures a.items == old(a.items) + [OneField(Key(op), OneField(name, value))]
  {
    var d := new DocumentBuilder();
    OperatorField(d, op, name, value);
    a.Add(Doc(d.fields));
  }

  /** `RENAME(name, newName)`: the new name is stored as a String under `$rename`. */
  method Rename(b: DocumentBuilder, name: string, newName: string)
    requires b.Valid()
    modifies b
    ensures b.Valid()
    ensures b.fields == Put(old(b.fields), "$rename", OneField(name, Str(newName)))
  {
    DocumentOfOne(name, Str(newName));
    b.ByBlock("$rename", [Field(name, Str(newName))]);
  }

  method RenameInArray(a: ArrayBuilder, name: string, newName: string)
    modifies a
    ensures a.items == old(a.items) + [OneField("$rename", OneField(name, Str(newName)))]
  {
    var d := new DocumentBuilder();
    Rename(d, name, newName);
    a.Add(Doc(d.fields));
  }

  /** `CURRENT_DATE(name)`: `$currentDate: {name: true}`. */
  method CurrentDate(b: DocumentBuilder, name: string)
    requires b.Valid()
    modifies b
    ensures b.Valid()
    ensures b.fields == Put(old(b.fields), "$currentDate", OneField(name, Bool(true)))
  {
    DocumentOfOne(name, Bool(true));
    b.ByBlock("$currentDate", [Field(name, Bool(true))]);
  }

  method CurrentDateInArray(a: ArrayBuilder, name: string)
    modifies a
    ensures a.items == old(a.items) + [OneField("$currentDate", OneField(name, Bool(true)))]
  {
    var d := new DocumentBuilder();
    CurrentDate(d, name);
    a.Add(Doc(d.fields));
  }

  /** `CURRENT_TIMESTAMP(name)`: `$currentDate: {name: {$type: "timestamp"}}`. */
  method CurrentTimestamp(b: DocumentBuilder, name: string)
    requires b.Valid()
    modifies b
    ensures b.Valid()
    ensures b.fields == Put(old(b.fields), "$currentDate",
      OneField(name, OneField("$type", Str("timestamp"))))
  {
    DocumentOfOne("$type", Str("timestamp"));
    DocumentOfOne(name, OneField("$type", Str("timestamp")));
    b.ByBlock("$currentDate", [Field(name, Document([Field("$type", Str("timestamp"))]))]);
  }

  method CurrentTimestampInArray(a: ArrayBuilder, name: string)
    modifies a
    ensures a.items == old(a.items) + [OneField("$currentDate",
      OneField(name, OneField("$type", Str("timestamp"))))]
  {
    var d := new DocumentBuilder();
    CurrentTimestamp(d, name);
    a.Add(Doc(d.fields));
  }

  /** `ADD_EACH_TO_SET(name, block)`: `$addToSet: {name: {$each: [the block's elements]}}`. */
  method AddEachToSet(b: DocumentBuilder, name: string, block: seq<Bson>)
    requires b.Valid()
    modifies b
    ensures b.Valid()
    ensures b.fields == Put(old(b.fields), "$addToSet", OneField(name, OneField("$each", Arr(block))))
  {
    DocumentOfOne("$each", Arr(block));
    DocumentOfOne(name, OneField("$each", Arr(block)));
    b.ByBlock("$addToSet", [Field(name, Document([Field("$each", Array(block))]))]);
  }

  method AddEachToSetInArray(a: ArrayBuilder, name: string, block: seq<Bson>)
    modifies a
    ensures a.items == old(a.items) + [OneField("$addToSet", OneField(name, OneField("$each", Arr(block))))]
  {
    var d := new DocumentBuilder();
    AddEachToSet(d, name, block);
    a.Add(Doc(d.fields));
  }

  /** `PUSH_EACH(name, options, block)`, and the overload that configures the options with a
      lambda first: `$push: {name: {$each: [...], $position?, $slice?, $sort?}}`. */
  method PushEach(b: DocumentBuilder, name: string, options: PushOptions, block: seq<Bson>)
    requires b.Valid()
    modifies b
    ensures b.Valid()
    ensures b.fields == Put(old(b.fields), "$push", OneField(name, Doc(PushEachModifiers(block, options))))
  {
    PushEachModifiersDistinct(block, options);
    DocumentOfDistinct(PushEachModifiers(block, options));
    DocumentOfOne(name, Doc(PushEachModifiers(block, options)));
    b.ByBlock("$push", [Field(name, Document(PushEachModifiers(block, options)))]);
  }

  /** The array-builder form of `PUSH_EACH`, with either kind of options argument. */
  method PushEachInArray(a: ArrayBuilder, name: string, options: PushOptions, block: seq<Bson>)
    modifies a
    ensures a.items == old(a.items) + [OneField("$push", OneField(name, Doc(PushEachModifiers(block, options))))]
  {
    var d := new DocumentBuilder();
    PushEach(d, name, options, block);
    a.Add(Doc(d.fields));
  }

  lemma PushEachModifiersDistinct(block: seq<Bson>, options: PushOptions)
    ensures UniqueNames(PushEachModifiers(block, options))
  {
    NamesSpec(PushEachModifiers(block, options));
  }

  /** The position of each `PUSH_EACH` modifier in the order the source writes them. */
  function ModifierRank(name: string): nat {
    if name == "$each" then 0
    else if name == "$position" then 1
    else if name == "$slice" then 2
    else 3
  }

  /** `PUSH_EACH` always writes `$each` first, writes each of `$position`, `$slice` and `$sort`
      exactly when it is set, with its value, and keeps that order. */
  lemma PushEachKeys(block: seq<Bson>, options: PushOptions)
    ensures var r := PushEachModifiers(block, options);
      && r[0] == Field("$each", Arr(block))
      && Get(r, "$position") == options.position
      && Get(r, "$slice") == options.slice
      && Get(r, "$sort") == options.sort
      && (forall i, j | 0 <= i < j < |r| :: ModifierRank(r[i].name) < ModifierRank(r[j].name))
  {
    var r := PushEachModifiers(block, options);
    PushEachModifiersDistinct(block, options);
    NamesSpec(r);
    GetNames(r, "$position");
    GetNames(r, "$slice");
    GetNames(r, "$sort");
    var p := if options.position.Some? then 1 else 0;
    var l := if options.slice.Some? then 1 else 0;
    if options.position.Some? {
      GetIndex(r, 1);
    }
    if options.slice.Some? {
      GetIndex(r, 1 + p);
    }
    if options.sort.Some? {
      GetIndex(r, 1 + p + l);
    }
  }

  /** Distinct operators write distinct keys. */
  lemma KeysDistinct(a: UpdateOperator, b: UpdateOperator)
    requires a != b
    ensures Key(a) != Key(b)
  {
  }

  /** A second call of the same operator replaces the first: two `SET(name, value)` calls leave
      only the last field under `$set`. */
  lemma SecondCallReplaces(fs: seq<Field>, op: UpdateOperator, n1: string, v1: Bson, n2: string, v2: Bson)
    ensures Put(Put(fs, Key(op), OneField(n1, v1)), Key(op), OneField(n2, v2))
         == Put(fs, Key(op), OneField(n2, v2))
  {
    PutPut(fs, Key(op), OneField(n1, v1), OneField(n2, v2));
  }

  /** Operators with different keys accumulate side by side in one builder. */
  lemma DifferentOperatorsAccumulate(fs: seq<Field>, a: UpdateOperator, x: Bson, b: UpdateOperator, y: Bson)
    requires a != b
    ensures Get(Put(Put(fs, Key(a), x), Key(b), y), Key(a)) == Some(x)
    ensures Get(Put(Put(fs, Key(a), x), Key(b), y), Key(b)) == Some(y)
  {
    KeysDistinct(a, b);
  }
}
