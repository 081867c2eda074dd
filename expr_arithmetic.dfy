/** The arithmetic operators of the expression builder (expr/_Arithmetic.kt). */
module ExprArithmetic {
  import opened Bson
  import opened Expressions

  /** The one-argument operators; each embeds its argument directly. */
  datatype UnaryOperator = Abs | Ceil | Exp | Floor | Ln | Log10 | Sqrt

  function UnaryKey(op: UnaryOperator): string {
    match op
    case Abs => "$abs"
    case Ceil => "$ceil"
    case Exp => "$exp"
    case Floor => "$floor"
    case Ln => "$ln"
    case Log10 => "$log10"
    case Sqrt => "$sqrt"
  }

  /** The two-argument operators; each wraps its arguments in a two-element array. The three
      `subtract` overloads (number - number, date - number, date - date) are the same builder. */
  datatype BinaryOperator = Divide | Log | Mod | Pow | Round | Subtract | Trunc

  function BinaryKey(op: BinaryOperator): string {
    match op
    case Divide => "$divide"
    case Log => "$log"
    case Mod => "$mod"
    case Pow => "$pow"
    case Round => "$round"
    case Subtract => "$subtract"
    case Trunc => "$trunc"
  }

  /** The operators over a list of numbers (vararg and list forms). */
  datatype VariadicOperator = Add | Multiply

  function VariadicKey(op: VariadicOperator): string {
    match op
    case Add => "$add"
    case Multiply => "$multiply"
  }

  /** `abs(number)`, `ceil`, `exp`, `floor`, `ln`, `log10`, `sqrt`: `{$op: number}`. */
  function Unary(op: UnaryOperator, x: Expr): (r: Expr)
    ensures IsOperator(r, UnaryKey(op)) && Operand(r) == x.element
  {
    Operator(UnaryKey(op), x.element)
  }

  /** `divide(a, b)`, `log(number, base)`, `mod`, `pow`, `round`, `subtract`, `trunc`:
      `{$op: [a, b]}`. */
  function Binary(op: BinaryOperator, a: Expr, b: Expr): (r: Expr)
    ensures IsOperator(r, BinaryKey(op)) && Operand(r) == Arr([a.element, b.element])
  {
    Args(BinaryKey(op), [a, b])
  }

  /** `add(expressions)`, `multiply(expressions)`, and their vararg forms, which pass
      `asList()`: the operands in order. */
  function Variadic(op: VariadicOperator, es: seq<Expr>): (r: Expr)
    ensures IsOperator(r, VariadicKey(op)) && Operand(r).Arr?
    ensures |ArgsOf(r)| == |es|
    ensures forall i | 0 <= i < |es| :: ArgsOf(r)[i] == es[i].element
  {
    Args(VariadicKey(op), es)
  }

  /** `add(date, expressions)`: the date first, then the numbers in order. */
  function AddToDate(date: Expr, es: seq<Expr>): (r: Expr)
    ensures IsOperator(r, "$add") && Operand(r).Arr?
    ensures |ArgsOf(r)| == |es| + 1
    ensures ArgsOf(r)[0] == date.element
    ensures forall i | 0 <= i < |es| :: ArgsOf(r)[i + 1] == es[i].element
  {
    var xs := [date.element] + Elements(es);
    assert forall i | 0 <= i < |es| :: xs[i + 1] == Elements(es)[i];
    Operator("$add", Arr(xs))
  }

  /** The date form of `add` is the number form with the date as first operand. */
  lemma AddToDateIsAdd(date: Expr, es: seq<Expr>)
    ensures AddToDate(date, es) == Variadic(Add, [date] + es)
  {
    var xs := [date.element] + Elements(es);
    var ys := Elements([date] + es);
    assert forall i | 0 <= i < |xs| :: xs[i] == ys[i];
    assert xs == ys;
    assert Variadic(Add, [date] + es) == Operator("$add", Arr(ys));
  }

  /** The binary builders keep the argument order: swapping the arguments changes the
      result unless they are the same element. */
  lemma BinaryKeepsOrder(op: BinaryOperator, a: Expr, b: Expr)
    ensures Binary(op, a, b) == Binary(op, b, a) <==> a.element == b.element
  {
    if Binary(op, a, b) == Binary(op, b, a) {
      assert ArgsOf(Binary(op, a, b))[0] == a.element;
    }
  }

  /** Distinct operators write distinct keys, within each family and across the three. */
  lemma UnaryKeysDistinct(a: UnaryOperator, b: UnaryOperator)
    ensures a != b ==> UnaryKey(a) != UnaryKey(b)
  {
  }

  lemma BinaryKeysDistinct(a: BinaryOperator, b: BinaryOperator)
    ensures a != b ==> BinaryKey(a) != BinaryKey(b)
  {
  }

  lemma FamilyKeysDistinct(u: UnaryOperator, b: BinaryOperator, v: VariadicOperator)
    ensures UnaryKey(u) != BinaryKey(b) && UnaryKey(u) != VariadicKey(v) && BinaryKey(b) != VariadicKey(v)
  {
  }
}
