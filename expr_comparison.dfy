/** The comparison operators of the expression builder (expr/_Comparison.kt). */
module ExprComparisons {
  import opened Bson
  import opened Expressions

  /** `cmp`, `eq`, `gt`, `gte`, `lt`, `lte` and `ne`: each compares two expressions. */
  datatype ComparisonOperator = Cmp | Eq | Gt | Gte | Lt | Lte | Ne

  function Key(op: ComparisonOperator): string {
    match op
    case Cmp => "$cmp"
    case Eq => "$eq"
    case Gt => "$gt"
    case Gte => "$gte"
    case Lt => "$lt"
    case Lte => "$lte"
    case Ne => "$ne"
  }

  /** `eq(expression1, expression2)` and its siblings: `{$op: [expression1, expression2]}`. */
  function Compare(op: ComparisonOperator, a: Expr, b: Expr): (r: Expr)
    ensures IsOperator(r, Key(op)) && Operand(r) == Arr([a.element, b.element])
  {
    Args(Key(op), [a, b])
  }

  /** The arguments are kept in the order given, never normalised: swapping them gives the
      same expression only when they are the same element. */
  lemma CompareKeepsOrder(op: ComparisonOperator, a: Expr, b: Expr)
    ensures Compare(op, a, b) == Compare(op, b, a) <==> a.element == b.element
  {
    if Compare(op, a, b) == Compare(op, b, a) {
      assert Operand(Compare(op, a, b)).items[0] == a.element;
    }
  }

  /** For the same arguments, two comparisons differ only in their key; in particular `eq`
      and `ne` build the same array. */
  lemma CompareDifferOnlyInKey(op1: ComparisonOperator, op2: ComparisonOperator, a: Expr, b: Expr)
    ensures Operand(Compare(op1, a, b)) == Operand(Compare(op2, a, b))
    ensures Compare(op1, a, b) == Compare(op2, a, b) <==> op1 == op2
  {
    if Compare(op1, a, b) == Compare(op2, a, b) {
      assert Compare(op1, a, b).element.fields[0].name == Key(op1);
      KeyInjective(op1, op2);
    }
  }

  /** Distinct comparisons write distinct keys. */
  lemma KeyInjective(op1: ComparisonOperator, op2: ComparisonOperator)
    ensures Key(op1) == Key(op2) ==> op1 == op2
  {
  }
}
