/** The type operators of the expression builder (expr/_Type.kt). */
module ExprTypes {
  import opened Wrappers
  import opened Bson
  import opened Slots
  import opened Expressions

  /** The one-argument conversions and tests; each embeds its argument directly. */
  datatype ConversionOperator =
    | IsNumber | ToBool | ToDecimal | ToDouble | ToInt | ToLong | ToObjectId | Type | ToUUID

  function Key(op: ConversionOperator): string {
    match op
    case IsNumber => "$isNumber"
    case ToBool => "$toBool"
    case ToDecimal => "$toDecimal"
    case ToDouble => "$toDouble"
    case ToInt => "$toInt"
    case ToLong => "$toLong"
    case ToObjectId => "$toObjectId"
    case Type => "$type"
    case ToUUID => "$toUUID"
  }

  /** `$toBool(expression)` and its siblings: `{$op: expression}`. */
  function Convert(op: ConversionOperator, e: Expr): (r: Expr)
    ensures IsOperator(r, Key(op)) && Operand(r) == e.element
  {
    Operator(Key(op), e.element)
  }

  /** `$convert(input, to, format?, onError?, onNull?)`: `input` and `to` always; `format` (a
      plain String), `onError` and `onNull` only when given. */
  function ConvertTo(input: Expr, to: Expr, format: Option<string>, onError: Option<Expr>, onNull: Option<Expr>): (r: Expr)
    ensures IsOperator(r, "$convert") && Operand(r).Doc?
    ensures Lookup(r, "input") == Some(input.element)
    ensures Lookup(r, "to") == Some(to.element)
    ensures Lookup(r, "format") == StrOf(format)
    ensures Lookup(r, "onError") == ElementOf(onError)
    ensures Lookup(r, "onNull") == ElementOf(onNull)
    ensures KeysInOrder(r, ["input", "to", "format", "onError", "onNull"])
  {
    Fields5("$convert", Always("input", input.element), Always("to", to.element),
            IfPresent("format", StrOf(format)), IfPresent("onError", ElementOf(onError)),
            IfPresent("onNull", ElementOf(onNull)))
  }
}
