/** Logical query operators (filters/_Logical.kt). `$and`, `$or` and `$nor` collect their
    query documents into an array, one element per argument, built with a `forEach` loop;
    `$not` nests an operator document. */
module FilterLogicals {
  import opened Bson
  import opened Wrappers
  import opened DocumentBuilders
  import ArrayBuilders

  datatype LogicalOperator = And | Or | Nor

  function Key(op: LogicalOperator): string
  {
    match op
    case And => "$and"
    case Or => "$or"
    case Nor => "$nor"
  }

  /** `$and(vararg blocks)`, `$or(...)`, `$nor(...)`: the key holds an array with the document
      of each block, in argument order. */
  method Combine(b: DocumentBuilder, op: LogicalOperator, expressions: seq<seq<Field>>)
    requires b.Valid()
    modifies b
    ensures b.Valid()
    ensures b.fields == Put(old(b.fields), Key(op), Arr(ArrayBuilders.Documents(expressions)))
  {
    var items := ArrayBuilders.ArrayOfBlocks(expressions);
    b.Set(Key(op), Array(items));
  }

  /** `$and(documents: List)`, `$or(...)`, `$nor(...)`: the key holds an array with the given
      documents, in order. */
  method CombineDocuments(b: DocumentBuilder, op: LogicalOperator, expressions: seq<seq<Field>>)
    requires b.Valid()
    modifies b
    ensures b.Valid()
    ensures b.fields == Put(old(b.fields), Key(op), Arr(ArrayBuilders.Docs(expressions)))
  {
    var items := ArrayBuilders.ArrayOfDocuments(expressions);
    b.Set(Key(op), Array(items));
  }

  /** Operator form `$not(block)`: `$not` holds the operator document of the block. */
  method Not(b: DocumentBuilder, operatorExpression: seq<Field>)
    requires b.Valid()
    modifies b
    ensures b.Valid()
    ensures b.fields == Put(old(b.fields), "$not", Document(operatorExpression))
  {
    b.ByBlock("$not", operatorExpression);
  }

  /** Query form `field $not block`: the field holds `{"$not": <operator document>}`. */
  method NotQuery(b: DocumentBuilder, field: string, operatorExpression: seq<Field>)
    requires b.Valid()
    modifies b
    ensures b.Valid()
    ensures b.fields == Put(old(b.fields), field, OneField("$not", Document(operatorExpression)))
  {
    var d := new DocumentBuilder();
    Not(d, operatorExpression);
    DocumentOfOne("$not", Document(operatorExpression));
    b.ByBlock(field, d.fields);
  }

  /** With no arguments the operator still writes its key, holding an empty array. */
  lemma {:induction false} CombineNone(fs: seq<Field>, op: LogicalOperator)
    ensures Put(fs, Key(op), Arr(ArrayBuilders.Documents([]))) == Put(fs, Key(op), Arr([]))
    ensures Put(fs, Key(op), Arr(ArrayBuilders.Docs([]))) == Put(fs, Key(op), Arr([]))
  {
    assert ArrayBuilders.Documents([]) == [];
    assert ArrayBuilders.Docs([]) == [];
  }

  /** A block that assigns each name at most once builds the same clause as the document with
      those fields: the two overloads agree on such clauses. */
  lemma {:induction false} OverloadsAgree(expressions: seq<seq<Field>>)
    requires forall i | 0 <= i < |expressions| :: UniqueNames(expressions[i])
    ensures ArrayBuilders.Documents(expressions) == ArrayBuilders.Docs(expressions)
  {
    forall i | 0 <= i < |expressions|
      ensures ArrayBuilders.Documents(expressions)[i] == ArrayBuilders.Docs(expressions)[i]
    {
      DocumentOfDistinct(expressions[i]);
    }
  }

  lemma KeysDistinct(a: LogicalOperator, c: LogicalOperator)
    ensures Key(a) == Key(c) <==> a == c
    ensures Key(a) != "$not"
  {
  }
}
