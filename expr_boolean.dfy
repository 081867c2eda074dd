/** The boolean operators of the expression builder (expr/_Boolean.kt). */
module ExprBooleans {
  import opened Bson
  import opened Expressions

  /** `$and` and `$or` over a list of expressions (the vararg forms pass `asList()`). */
  datatype LogicalOperator = And | Or

  function Key(op: LogicalOperator): string {
    match op
    case And => "$and"
    case Or => "$or"
  }

  /** `$and(expressions)` and `$or(expressions)`: the operands in order. */
  function Logical(op: LogicalOperator, es: seq<Expr>): (r: Expr)
    ensures IsOperator(r, Key(op)) && Operand(r).Arr?
    ensures |ArgsOf(r)| == |es|
    ensures forall i | 0 <= i < |es| :: ArgsOf(r)[i] == es[i].element
  {
    Args(Key(op), es)
  }

  /** `$not(expression)`: the operand wrapped in a one-element array. */
  function Not(e: Expr): (r: Expr)
    ensures IsOperator(r, "$not") && Operand(r) == Arr([e.element])
  {
    Args("$not", [e])
  }

  /** An empty operand list still writes the key, with an empty array. */
  lemma LogicalOfNone(op: LogicalOperator)
    ensures Logical(op, []) == Expr(Doc([Field(Key(op), Arr([]))]))
  {
    var r := Logical(op, []);
    assert ArgsOf(r) == [];
    assert r.element.fields == [Field(Key(op), Arr([]))];
  }

  /** Joining two operand lists joins the arrays: `$and(xs + ys)` holds the operands of
      `$and(xs)` followed by those of `$and(ys)`. */
  lemma LogicalAppend(op: LogicalOperator, xs: seq<Expr>, ys: seq<Expr>)
    ensures ArgsOf(Logical(op, xs + ys)) == ArgsOf(Logical(op, xs)) + ArgsOf(Logical(op, ys))
  {
    assert ArgsOf(Logical(op, xs + ys)) == Elements(xs + ys);
    assert ArgsOf(Logical(op, xs)) == Elements(xs);
    assert ArgsOf(Logical(op, ys)) == Elements(ys);
    var l := Elements(xs + ys);
    var r := Elements(xs) + Elements(ys);
    forall i | 0 <= i < |l|
      ensures l[i] == r[i]
    {
      if i < |xs| {
        assert (xs + ys)[i] == xs[i];
      } else {
        assert (xs + ys)[i] == ys[i - |xs|];
      }
    }
  }
}
