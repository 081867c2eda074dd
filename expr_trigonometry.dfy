/** The trigonometry operators of the expression builder (expr/_Trigonometry.kt). */
module ExprTrigonometry {
  import opened Bson
  import opened Expressions

  /** The one-argument operators; each embeds its argument directly. */
  datatype TrigOperator =
    | Sin | Cos | Tan | Asin | Acos | Atan | Asinh | Acosh | Atanh | Sinh | Cosh | Tanh
    | DegreesToRadians | RadiansToDegrees

  function Key(op: TrigOperator): string {
    match op
    case Sin => "$sin"
    case Cos => "$cos"
    case Tan => "$tan"
    case Asin => "$asin"
    case Acos => "$acos"
    case Atan => "$atan"
    case Asinh => "$asinh"
    case Acosh => "$acosh"
    case Atanh => "$atanh"
    case Sinh => "$sinh"
    case Cosh => "$cosh"
    case Tanh => "$tanh"
    case DegreesToRadians => "$degreesToRadians"
    case RadiansToDegrees => "$radiansToDegrees"
  }

  /** `$sin(expression)` and its siblings: `{$op: expression}`. */
  function Trig(op: TrigOperator, e: Expr): (r: Expr)
    ensures IsOperator(r, Key(op)) && Operand(r) == e.element
  {
    Operator(Key(op), e.element)
  }

  /** `$atan2(expression1, expression2)`: the only builder of the file that writes an array. */
  function Atan2(a: Expr, b: Expr): (r: Expr)
    ensures IsOperator(r, "$atan2") && Operand(r) == Arr([a.element, b.element])
  {
    Args("$atan2", [a, b])
  }

  /** Distinct operators write distinct keys, and none writes `$atan2`. */
  lemma KeysDistinct(a: TrigOperator, b: TrigOperator)
    ensures a != b ==> Key(a) != Key(b)
    ensures Key(a) != "$atan2"
  {
  }

  /** `$atan2` keeps the argument order. */
  lemma Atan2KeepsOrder(a: Expr, b: Expr)
    ensures Atan2(a, b) == Atan2(b, a) <==> a.element == b.element
  {
    if Atan2(a, b) == Atan2(b, a) {
      assert Operand(Atan2(a, b)).items[0] == a.element;
    }
  }
}
