/** The array operators of the expression builder (expr/_Array.kt). */
module ExprArrays {
  import opened Wrappers
  import opened Bson
  import opened Slots
  import opened Expressions

  /** `$objectToArray`, `$reverseArray` and `$size` embed their argument directly. */
  datatype DirectArrayOperator = ObjectToArray | ReverseArray | Size

  function DirectKey(op: DirectArrayOperator): string {
    match op
    case ObjectToArray => "$objectToArray"
    case ReverseArray => "$reverseArray"
    case Size => "$size"
  }

  /** `$arrayToObject` and `$isArray` wrap their argument in a one-element array. */
  datatype WrappedArrayOperator = ArrayToObject | IsArray

  function WrappedKey(op: WrappedArrayOperator): string {
    match op
    case ArrayToObject => "$arrayToObject"
    case IsArray => "$isArray"
  }

  /** `$firstN`, `$lastN`, `$maxN` and `$minN` take `{input, n}`. */
  datatype PickOperator = FirstN | LastN | MaxN | MinN

  function PickKey(op: PickOperator): string {
    match op
    case FirstN => "$firstN"
    case LastN => "$lastN"
    case MaxN => "$maxN"
    case MinN => "$minN"
  }

  /** `$objectToArray(o)`, `$reverseArray(a)`, `$size(a)`. */
  function Direct(op: DirectArrayOperator, e: Expr): (r: Expr)
    ensures IsOperator(r, DirectKey(op)) && Operand(r) == e.element
  {
    Operator(DirectKey(op), e.element)
  }

  /** `$arrayToObject(e)`, `$isArray(e)`. */
  function Wrapped(op: WrappedArrayOperator, e: Expr): (r: Expr)
    ensures IsOperator(r, WrappedKey(op)) && Operand(r) == Arr([e.element])
  {
    Args(WrappedKey(op), [e])
  }

  /** `$arrayElemAt(arr, idx)`: `[arr, idx]`. */
  function ArrayElemAt(arr: Expr, idx: Expr): (r: Expr)
    ensures IsOperator(r, "$arrayElemAt") && Operand(r) == Arr([arr.element, idx.element])
  {
    Args("$arrayElemAt", [arr, idx])
  }

  /** `$in(expression, arrayExpression)`: `[expression, arrayExpression]`. */
  function In(e: Expr, arrayExpression: Expr): (r: Expr)
    ensures IsOperator(r, "$in") && Operand(r) == Arr([e.element, arrayExpression.element])
  {
    Args("$in", [e, arrayExpression])
  }

  /** `$concatArrays(arrays)`, vararg and list forms: the arrays in order. */
  function ConcatArrays(arrays: seq<Expr>): (r: Expr)
    ensures IsOperator(r, "$concatArrays") && Operand(r).Arr?
    ensures |ArgsOf(r)| == |arrays|
    ensures forall i | 0 <= i < |arrays| :: ArgsOf(r)[i] == arrays[i].element
  {
    Args("$concatArrays", arrays)
  }

  /** `$filter(input, as, cond, limit)`: `input` and `cond` always, `as` (a String) and
      `limit` only when given, in parameter order. */
  function Filter(input: Expr, as_: Option<string>, cond: Expr, limit: Option<Expr>): (r: Expr)
    ensures IsOperator(r, "$filter") && Operand(r).Doc?
    ensures Lookup(r, "input") == Some(input.element)
    ensures Lookup(r, "as") == StrOf(as_)
    ensures Lookup(r, "cond") == Some(cond.element)
    ensures Lookup(r, "limit") == ElementOf(limit)
    ensures KeysInOrder(r, ["input", "as", "cond", "limit"])
  {
    Fields4("$filter", Always("input", input.element), IfPresent("as", StrOf(as_)),
                       Always("cond", cond.element), IfPresent("limit", ElementOf(limit)))
  }

  /** `$firstN(input, n)` and its siblings: `{input, n}`. */
  function Pick(op: PickOperator, input: Expr, n: Expr): (r: Expr)
    ensures IsOperator(r, PickKey(op)) && Operand(r).Doc?
    ensures Lookup(r, "input") == Some(input.element)
    ensures Lookup(r, "n") == Some(n.element)
    ensures KeysInOrder(r, ["input", "n"])
  {
    Fields2(PickKey(op), Always("input", input.element), Always("n", n.element))
  }

  /** `$indexOfArray(arr, search, start?)`: `[arr, search]`, then `start` when given. */
  function IndexOfArray(arr: Expr, search: Expr, start: Option<Expr>): (r: Expr)
    ensures IsOperator(r, "$indexOfArray") && Operand(r).Arr?
    ensures |ArgsOf(r)| == if start.Some? then 3 else 2
    ensures ArgsOf(r)[..2] == [arr.element, search.element]
    ensures start.Some? ==> ArgsOf(r)[2] == start.value.element
  {
    if start.Some? then Args("$indexOfArray", [arr, search, start.value])
    else Args("$indexOfArray", [arr, search])
  }

  /** `$indexOfArray(arr, search, start, end?)`: `[arr, search, start]`, then `end`. */
  function IndexOfArrayRange(arr: Expr, search: Expr, start: Expr, end: Option<Expr>): (r: Expr)
    ensures IsOperator(r, "$indexOfArray") && Operand(r).Arr?
    ensures |ArgsOf(r)| == if end.Some? then 4 else 3
    ensures ArgsOf(r)[..3] == [arr.element, search.element, start.element]
    ensures end.Some? ==> ArgsOf(r)[3] == end.value.element
  {
    if end.Some? then Args("$indexOfArray", [arr, search, start, end.value])
    else Args("$indexOfArray", [arr, search, start])
  }

  /** `$map(input, as, in)`: `input` and `in` always, `as` (a String) only when given. */
  function Map(input: Expr, as_: Option<string>, in_: Expr): (r: Expr)
    ensures IsOperator(r, "$map") && Operand(r).Doc?
    ensures Lookup(r, "input") == Some(input.element)
    ensures Lookup(r, "as") == StrOf(as_)
    ensures Lookup(r, "in") == Some(in_.element)
    ensures KeysInOrder(r, ["input", "as", "in"])
  {
    Fields3("$map", Always("input", input.element), IfPresent("as", StrOf(as_)), Always("in", in_.element))
  }

  /** `$range(start, end, step?)`: a 2-element array, or 3 with the step. */
  function Range(start: Expr, end: Expr, step: Option<Expr>): (r: Expr)
    ensures IsOperator(r, "$range") && Operand(r).Arr?
    ensures |ArgsOf(r)| == if step.Some? then 3 else 2
    ensures ArgsOf(r)[..2] == [start.element, end.element]
    ensures step.Some? ==> ArgsOf(r)[2] == step.value.element
  {
    if step.Some? then Args("$range", [start, end, step.value])
    else Args("$range", [start, end])
  }

  /** `$reduce(input, initialValue, in)`: all three keys, in that order. */
  function Reduce(input: Expr, initialValue: Expr, in_: Expr): (r: Expr)
    ensures IsOperator(r, "$reduce") && Operand(r).Doc?
    ensures Lookup(r, "input") == Some(input.element)
    ensures Lookup(r, "initialValue") == Some(initialValue.element)
    ensures Lookup(r, "in") == Some(in_.element)
    ensures KeysInOrder(r, ["input", "initialValue", "in"])
  {
    Fields3("$reduce", Always("input", input.element), Always("initialValue", initialValue.element),
                       Always("in", in_.element))
  }

  /** `$slice(arr, n)`: `[arr, n]`. */
  function Slice(arr: Expr, n: Expr): (r: Expr)
    ensures IsOperator(r, "$slice") && Operand(r) == Arr([arr.element, n.element])
  {
    Args("$slice", [arr, n])
  }

  /** `$slice(arr, position, n)`: `[arr, position, n]`. */
  function SliceAt(arr: Expr, position: Expr, n: Expr): (r: Expr)
    ensures IsOperator(r, "$slice") && Operand(r) == Arr([arr.element, position.element, n.element])
  {
    Args("$slice", [arr, position, n])
  }

  /** `$sortArray(input, sortBy)`, both overloads: `{input, sortBy}`. */
  function SortArray(input: Expr, sortBy: Expr): (r: Expr)
    ensures IsOperator(r, "$sortArray") && Operand(r).Doc?
    ensures Lookup(r, "input") == Some(input.element)
    ensures Lookup(r, "sortBy") == Some(sortBy.element)
    ensures KeysInOrder(r, ["input", "sortBy"])
  {
    Fields2("$sortArray", Always("input", input.element), Always("sortBy", sortBy.element))
  }

  /** `$zip(inputs, useLongestLength?, defaults?)`, vararg and list forms: `inputs` is the
      array of the inputs in order; the other two keys appear only when given. */
  function Zip(inputs: seq<Expr>, useLongestLength: Option<Expr>, defaults: Option<Expr>): (r: Expr)
    ensures IsOperator(r, "$zip") && Operand(r).Doc?
    ensures Lookup(r, "inputs") == Some(Arr(Elements(inputs)))
    ensures Lookup(r, "useLongestLength") == ElementOf(useLongestLength)
    ensures Lookup(r, "defaults") == ElementOf(defaults)
    ensures KeysInOrder(r, ["inputs", "useLongestLength", "defaults"])
  {
    Fields3("$zip", Always("inputs", Arr(Elements(inputs))),
                    IfPresent("useLongestLength", ElementOf(useLongestLength)),
                    IfPresent("defaults", ElementOf(defaults)))
  }

  /** The two `$indexOfArray` overloads agree when the second is given no end. */
  lemma IndexOfArrayOverloads(arr: Expr, search: Expr, start: Expr)
    ensures IndexOfArrayRange(arr, search, start, None) == IndexOfArray(arr, search, Some(start))
  {
  }

  /** `$slice` with a position has one more argument, inserted between the array and `n`. */
  lemma SliceArities(arr: Expr, position: Expr, n: Expr)
    ensures Operand(SliceAt(arr, position, n)).items
         == Operand(Slice(arr, n)).items[..1] + [position.element] + Operand(Slice(arr, n)).items[1..]
  {
  }
}
