/** The set operators of the expression builder (expr/_Set.kt). */
module ExprSets {
  import opened Bson
  import opened Expressions

  /** `$allElementsTrue` and `$anyElementTrue`: the array wrapped in a one-element array. */
  datatype TestOperator = AllElementsTrue | AnyElementTrue

  function TestKey(op: TestOperator): string {
    match op
    case AllElementsTrue => "$allElementsTrue"
    case AnyElementTrue => "$anyElementTrue"
  }

  /** `$setDifference` and `$setIsSubset`: two arrays, in argument order. */
  datatype PairOperator = SetDifference | SetIsSubset

  function PairKey(op: PairOperator): string {
    match op
    case SetDifference => "$setDifference"
    case SetIsSubset => "$setIsSubset"
  }

  /** `$setEquals`, `$setIntersection` and `$setUnion`: a list of arrays (the vararg forms
      pass `asList()`). */
  datatype ListOperator = SetEquals | SetIntersection | SetUnion

  function ListKey(op: ListOperator): string {
    match op
    case SetEquals => "$setEquals"
    case SetIntersection => "$setIntersection"
    case SetUnion => "$setUnion"
  }

  function Test(op: TestOperator, e: Expr): (r: Expr)
    ensures IsOperator(r, TestKey(op)) && Operand(r) == Arr([e.element])
  {
    Args(TestKey(op), [e])
  }

  function Pair(op: PairOperator, a: Expr, b: Expr): (r: Expr)
    ensures IsOperator(r, PairKey(op)) && Operand(r) == Arr([a.element, b.element])
  {
    Args(PairKey(op), [a, b])
  }

  function List(op: ListOperator, es: seq<Expr>): (r: Expr)
    ensures IsOperator(r, ListKey(op)) && Operand(r).Arr?
    ensures |ArgsOf(r)| == |es|
    ensures forall i | 0 <= i < |es| :: ArgsOf(r)[i] == es[i].element
  {
    Args(ListKey(op), es)
  }

  /** `$setDifference` and `$setIsSubset` keep their argument order: swapping the arrays
      gives the same expression only when they are the same element. */
  lemma PairKeepsOrder(op: PairOperator, a: Expr, b: Expr)
    ensures Pair(op, a, b) == Pair(op, b, a) <==> a.element == b.element
  {
    if Pair(op, a, b) == Pair(op, b, a) {
      assert Operand(Pair(op, a, b)).items[0] == a.element;
    }
  }

  /** The list operators applied to two arrays build the same two-element array as the pair
      operators. */
  lemma ListOfTwo(op: ListOperator, pair: PairOperator, a: Expr, b: Expr)
    ensures Operand(List(op, [a, b])) == Operand(Pair(pair, a, b))
  {
    assert ArgsOf(List(op, [a, b])) == [a.element, b.element];
  }
}
