/** The miscellaneous operators of the expression builder (expr/_Miscellaneous.kt). */
module ExprMiscellaneous {
  import opened Wrappers
  import opened Bson
  import opened Slots
  import opened Expressions
  import DocumentBuilders

  /** `$getField(field, input?)`: `field` always, `input` only when given. */
  function GetField(field: Expr, input: Option<Expr>): (r: Expr)
    ensures IsOperator(r, "$getField") && Operand(r).Doc?
    ensures Lookup(r, "field") == Some(field.element)
    ensures Lookup(r, "input") == ElementOf(input)
    ensures KeysInOrder(r, ["field", "input"])
    ensures input.Some? ==> Names(Operand(r).fields) == ["field", "input"]
  {
    Fields2("$getField", Always("field", field.element), IfPresent("input", ElementOf(input)))
  }

  /** `$rand()`: `{$rand: {}}`. */
  function Rand(): (r: Expr)
    ensures IsOperator(r, "$rand") && Operand(r) == Doc([])
  {
    Operator("$rand", DocumentBuilders.Document([]))
  }

  /** `$toHashedIndexKey(stringToHash)`: `{$toHashedIndexKey: stringToHash}`. */
  function ToHashedIndexKey(stringToHash: Expr): (r: Expr)
    ensures IsOperator(r, "$toHashedIndexKey") && Operand(r) == stringToHash.element
  {
    Operator("$toHashedIndexKey", stringToHash.element)
  }

  /** Without `input`, `$getField` writes the single key `field`. */
  lemma GetFieldOfCurrent(field: Expr)
    ensures Operand(GetField(field, None)) == Doc([Field("field", field.element)])
  {
    var slots := [Always("field", field.element), IfPresent("input", None)];
    assert slots[1..] == [IfPresent("input", None)];
    assert slots[1..][1..] == [];
    assert Written(slots[1..]) == [];
    assert Written(slots) == [Field("field", field.element)];
    BuildWritten(slots);
  }
}
