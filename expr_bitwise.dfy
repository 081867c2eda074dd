/** The bitwise operators of the expression builder (expr/_Bitwise.kt). */
module ExprBitwise {
  import opened Bson
  import opened Expressions

  /** `$bitAnd`, `$bitOr` and `$bitXor` over a list of numbers (the vararg forms pass
      `asList()`). */
  datatype BitOperator = BitAnd | BitOr | BitXor

  function Key(op: BitOperator): string {
    match op
    case BitAnd => "$bitAnd"
    case BitOr => "$bitOr"
    case BitXor => "$bitXor"
  }

  function Bits(op: BitOperator, es: seq<Expr>): (r: Expr)
    ensures IsOperator(r, Key(op)) && Operand(r).Arr?
    ensures |ArgsOf(r)| == |es|
    ensures forall i | 0 <= i < |es| :: ArgsOf(r)[i] == es[i].element
  {
    Args(Key(op), es)
  }

  /** `$bitNot(expression)`: `{$bitNot: expression}`, with no array. */
  function BitNot(e: Expr): (r: Expr)
    ensures IsOperator(r, "$bitNot") && Operand(r) == e.element
  {
    Operator("$bitNot", e.element)
  }

  /** An empty operand list still writes the key, with an empty array. */
  lemma BitsOfNone(op: BitOperator)
    ensures Operand(Bits(op, [])) == Arr([])
  {
    assert ArgsOf(Bits(op, [])) == [];
  }

  /** For the same operands, the three list operators differ only in their key. */
  lemma BitsDifferOnlyInKey(op1: BitOperator, op2: BitOperator, es: seq<Expr>)
    ensures Operand(Bits(op1, es)) == Operand(Bits(op2, es))
    ensures Bits(op1, es) == Bits(op2, es) <==> op1 == op2
  {
    assert ArgsOf(Bits(op1, es)) == ArgsOf(Bits(op2, es));
    if Bits(op1, es) == Bits(op2, es) {
      assert Bits(op1, es).element.fields[0].name == Key(op1);
    }
  }
}
