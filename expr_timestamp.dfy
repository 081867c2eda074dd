/** The timestamp operators of the expression builder (expr/_Timestamp.kt). */
module ExprTimestamps {
  import opened Bson
  import opened Expressions

  /** `$tsIncrement` and `$tsSecond`: each reads one half of a timestamp. */
  datatype TimestampPart = TsIncrement | TsSecond

  function Key(part: TimestampPart): string {
    match part
    case TsIncrement => "$tsIncrement"
    case TsSecond => "$tsSecond"
  }

  /** `$tsIncrement(expression)` and `$tsSecond(expression)`: `{$op: expression}`. */
  function Part(part: TimestampPart, e: Expr): (r: Expr)
    ensures IsOperator(r, Key(part)) && Operand(r) == e.element
  {
    Operator(Key(part), e.element)
  }

  /** The two parts are distinct expressions of the same argument. */
  lemma PartsDiffer(e: Expr)
    ensures Part(TsIncrement, e) != Part(TsSecond, e)
  {
    assert Part(TsIncrement, e).element.fields[0].name != Part(TsSecond, e).element.fields[0].name;
  }
}
