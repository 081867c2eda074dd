/** The object operators of the expression builder (expr/_Object.kt). */
module ExprObjects {
  import opened Wrappers
  import opened Bson
  import opened Slots
  import opened Expressions

  /** `mergeObjects(documents)` and its vararg form: the documents in order. */
  function MergeObjects(documents: seq<Expr>): (r: Expr)
    ensures IsOperator(r, "$mergeObjects") && Operand(r).Arr?
    ensures |ArgsOf(r)| == |documents|
    ensures forall i | 0 <= i < |documents| :: ArgsOf(r)[i] == documents[i].element
  {
    Args("$mergeObjects", documents)
  }

  /** `setField(field, input, value)`: exactly the keys `field`, `input` and `value`, in that
      order, holding the arguments unchanged. */
  function SetField(field: Expr, input: Expr, value: Expr): (r: Expr)
    ensures IsOperator(r, "$setField") && Operand(r).Doc?
    ensures Names(Operand(r).fields) == ["field", "input", "value"]
    ensures Lookup(r, "field") == Some(field.element)
    ensures Lookup(r, "input") == Some(input.element)
    ensures Lookup(r, "value") == Some(value.element)
  {
    Fields3("$setField", Always("field", field.element), Always("input", input.element),
            Always("value", value.element))
  }

  /** The i-th key's value of `setField` is its i-th argument. */
  lemma SetFieldFields(field: Expr, input: Expr, value: Expr)
    ensures Operand(SetField(field, input, value)).fields
         == [Field("field", field.element), Field("input", input.element), Field("value", value.element)]
  {
    var fs := Operand(SetField(field, input, value)).fields;
    assert |fs| == 3;
    NamesSpec(fs);
    assert UniqueNames(fs);
    forall i | 0 <= i < 3
      ensures fs[i] == [Field("field", field.element), Field("input", input.element), Field("value", value.element)][i]
    {
      GetIndex(fs, i);
    }
  }
}
