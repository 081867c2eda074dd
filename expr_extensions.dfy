/** The operator and infix sugar of the expression builder (expr/Extensions.kt). Each one
    delegates to a builder of the other expression modules; the sugar names there are the
    builders' names without their `$` prefix. */
module ExprExtensions {
  import opened Wrappers
  import opened Bson
  import opened Expressions
  import ExprArithmetic
  import ExprArrays
  import ExprBitwise
  import ExprBooleans
  import ExprComparisons
  import ExprConditionals
  import ExprObjects
  import ExprSets
  import ExprStrings
  import ExprMiscellaneous

  /** The sugar that calls a two-argument builder: `a - b` (all three overloads), `/`, `mod`,
      `pow`, `arr[idx]`, `_in`, the comparison infixes, `setDifference`, `setIsSubset` and
      `strcasecmp`. */
  datatype BinaryInfix =
    | Minus | Div | Mod | Pow | ArrayGet | In
    | Comparison(comparison: ExprComparisons.ComparisonOperator)
    | SetPair(pair: ExprSets.PairOperator)
    | Strcasecmp

  /** The sugar that calls a list builder with its two operands: `a + b` on numbers, dates,
      arrays, documents and strings, `*`, the bitwise and boolean infixes, `ifNull`,
      `setEquals`, `setIntersection` and `setUnion`. */
  datatype ListInfix =
    | NumberPlus | DatePlus | Times | ArrayPlus | DocumentPlus | StringPlus | IfNull
    | Bitwise(bit: ExprBitwise.BitOperator)
    | Logical(logical: ExprBooleans.LogicalOperator)
    | SetList(list: ExprSets.ListOperator)

  function BinaryKey(op: BinaryInfix): string {
    match op
    case Minus => "$subtract"
    case Div => "$divide"
    case Mod => "$mod"
    case Pow => "$pow"
    case ArrayGet => "$arrayElemAt"
    case In => "$in"
    case Comparison(comparison) => ExprComparisons.Key(comparison)
    case SetPair(pair) => ExprSets.PairKey(pair)
    case Strcasecmp => "$strcasecmp"
  }

  function ListKey(op: ListInfix): string {
    match op
    case NumberPlus => "$add"
    case DatePlus => "$add"
    case Times => "$multiply"
    case ArrayPlus => "$concatArrays"
    case DocumentPlus => "$mergeObjects"
    case StringPlus => "$concat"
    case IfNull => "$ifNull"
    case Bitwise(bit) => ExprBitwise.Key(bit)
    case Logical(logical) => ExprBooleans.Key(logical)
    case SetList(list) => ExprSets.ListKey(list)
  }

  /** `a op b` over a two-argument builder: `{$key: [a, b]}`, receiver first. */
  function Binary(op: BinaryInfix, a: Expr, b: Expr): (r: Expr)
    ensures IsOperator(r, BinaryKey(op)) && Operand(r) == Arr([a.element, b.element])
  {
    match op
    case Minus => ExprArithmetic.Binary(ExprArithmetic.Subtract, a, b)
    case Div => ExprArithmetic.Binary(ExprArithmetic.Divide, a, b)
    case Mod => ExprArithmetic.Binary(ExprArithmetic.Mod, a, b)
    case Pow => ExprArithmetic.Binary(ExprArithmetic.Pow, a, b)
    case ArrayGet => ExprArrays.ArrayElemAt(a, b)
    case In => ExprArrays.In(a, b)
    case Comparison(comparison) => ExprComparisons.Compare(comparison, a, b)
    case SetPair(pair) => ExprSets.Pair(pair, a, b)
    case Strcasecmp => ExprStrings.Binary(ExprStrings.Strcasecmp, a, b)
  }

  /** `a op b` over a list builder: the same `{$key: [a, b]}` shape, receiver first. */
  function List(op: ListInfix, a: Expr, b: Expr): (r: Expr)
    ensures IsOperator(r, ListKey(op)) && Operand(r).Arr?
    ensures ArgsOf(r) == [a.element, b.element]
  {
    var r := match op
      case NumberPlus => ExprArithmetic.Variadic(ExprArithmetic.Add, [a, b])
      case DatePlus => ExprArithmetic.AddToDate(a, [b])
      case Times => ExprArithmetic.Variadic(ExprArithmetic.Multiply, [a, b])
      case ArrayPlus => ExprArrays.ConcatArrays([a, b])
      case DocumentPlus => ExprObjects.MergeObjects([a, b])
      case StringPlus => ExprStrings.Concat([a, b])
      case IfNull => ExprConditionals.IfNull([a, b])
      case Bitwise(bit) => ExprBitwise.Bits(bit, [a, b])
      case Logical(logical) => ExprBooleans.Logical(logical, [a, b])
      case SetList(list) => ExprSets.List(list, [a, b]);
    assert |ArgsOf(r)| == 2 && ArgsOf(r)[0] == a.element && ArgsOf(r)[1] == b.element;
    r
  }

  /** `doc[field]`: `$getField` with the index in `field` and the receiver in `input`. */
  function DocumentGet(doc: Expr, field: Expr): (r: Expr)
    ensures IsOperator(r, "$getField") && Operand(r).Doc?
    ensures Names(Operand(r).fields) == ["field", "input"]
    ensures Lookup(r, "field") == Some(field.element)
    ensures Lookup(r, "input") == Some(doc.element)
  {
    ExprMiscellaneous.GetField(field, Some(doc))
  }

  /** `s regexMatch regex`: `$regexMatch` with `input` and `regex` and never `options`. */
  function RegexMatch(s: Expr, regex: Expr): (r: Expr)
    ensures IsOperator(r, "$regexMatch") && Operand(r).Doc?
    ensures Lookup(r, "input") == Some(s.element)
    ensures Lookup(r, "regex") == Some(regex.element)
    ensures Lookup(r, "options") == None
    ensures KeysInOrder(r, ["input", "regex", "options"])
  {
    var r := ExprStrings.Regex(ExprStrings.RegexMatch, s, regex, None);
    assert ExprStrings.RegexKey(ExprStrings.RegexMatch) == "$regexMatch";
    assert StrOf(None) == None;
    r
  }

  /** `date + n` and `n + m` build the same document: the date overload of `add` only puts
      the date first, which the receiver already is. */
  lemma PlusOverloadsAgree(a: Expr, b: Expr)
    ensures List(DatePlus, a, b) == List(NumberPlus, a, b)
  {
    ExprArithmetic.AddToDateIsAdd(a, [b]);
  }

  /** Every infix keeps the receiver first: swapping the operands gives the same expression
      only when they are the same element. */
  lemma InfixKeepsOrder(op: BinaryInfix, lop: ListInfix, a: Expr, b: Expr)
    ensures Binary(op, a, b) == Binary(op, b, a) <==> a.element == b.element
    ensures List(lop, a, b) == List(lop, b, a) <==> a.element == b.element
  {
    if Binary(op, a, b) == Binary(op, b, a) {
      assert Operand(Binary(op, a, b)).items[0] == a.element;
    }
    if List(lop, a, b) == List(lop, b, a) {
      assert ArgsOf(List(lop, a, b))[0] == a.element;
    }
  }
}
