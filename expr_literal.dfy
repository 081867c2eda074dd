/** `$literal` (expr/_Literal.kt). */
module ExprLiterals {
  import opened Bson
  import opened Expressions
  import DocumentBuilders

  /** `literal(value)`: `{$literal: value}` with the value unchanged. The element, document
      and array overloads differ only in their static result type, so one member serves all
      three. */
  function Literal(value: Bson): (r: Expr)
    ensures IsOperator(r, "$literal") && Operand(r) == value
  {
    Operator("$literal", value)
  }

  /** `literal { ... }`: the literal of the document the block builds. */
  function LiteralBlock(block: seq<Field>): (r: Expr)
    ensures IsOperator(r, "$literal") && Operand(r).Doc?
    ensures UniqueNames(Operand(r).fields)
    ensures forall n :: Get(Operand(r).fields, n) == LastGet(block, n)
  {
    Literal(DocumentBuilders.Document(block))
  }

  /** `literal` is one-to-one: distinct values give distinct literals. */
  lemma LiteralInjective(a: Bson, b: Bson)
    ensures Literal(a) == Literal(b) <==> a == b
  {
    if Literal(a) == Literal(b) {
      assert Operand(Literal(a)) == a;
    }
  }

  /** A block that writes each key once is embedded as written. */
  lemma LiteralBlockDistinct(block: seq<Field>)
    requires UniqueNames(block)
    ensures LiteralBlock(block) == Literal(Doc(block))
  {
    BuildDistinct(block);
  }
}
