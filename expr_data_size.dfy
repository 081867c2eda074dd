/** The data-size operators of the expression builder (expr/_DataSize.kt). */
module ExprDataSizes {
  import opened Bson
  import opened Expressions

  /** `$binarySize(string)` and `$binarySize(binary)`: the overloads differ only in the static
      type of the argument, so one member serves both. */
  function BinarySize(e: Expr): (r: Expr)
    ensures IsOperator(r, "$binarySize") && Operand(r) == e.element
  {
    Operator("$binarySize", e.element)
  }

  /** `$bsonSize(object)`: `{$bsonSize: object}`. */
  function BsonSize(e: Expr): (r: Expr)
    ensures IsOperator(r, "$bsonSize") && Operand(r) == e.element
  {
    Operator("$bsonSize", e.element)
  }

  /** For the same argument the two operators differ only in their key. */
  lemma SizesDiffer(e: Expr)
    ensures Operand(BinarySize(e)) == Operand(BsonSize(e))
    ensures BinarySize(e) != BsonSize(e)
  {
    assert BinarySize(e).element.fields[0].name != BsonSize(e).element.fields[0].name;
  }
}
