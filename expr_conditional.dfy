/** The conditional operators (expr/_Conditional.kt) and `$let` (expr/_Variable.kt). */
module ExprConditionals {
  import opened Wrappers
  import opened Bson
  import opened Slots
  import opened Expressions
  import DocumentBuilders

  /** `cond(if, then, else)`: `{$cond: [if, then, else]}`. */
  function Cond(if_: Expr, then_: Expr, else_: Expr): (r: Expr)
    ensures IsOperator(r, "$cond") && Operand(r) == Arr([if_.element, then_.element, else_.element])
  {
    Args("$cond", [if_, then_, else_])
  }

  /** `ifNull(expressions)` and its vararg form: the operands in order. */
  function IfNull(es: seq<Expr>): (r: Expr)
    ensures IsOperator(r, "$ifNull") && Operand(r).Arr?
    ensures |ArgsOf(r)| == |es|
    ensures forall i | 0 <= i < |es| :: ArgsOf(r)[i] == es[i].element
  {
    Args("$ifNull", es)
  }

  /** The document `by { "case" by case.element; "then" by then.element }` appends. */
  function CaseThen(case_: Expr, then_: Expr): (r: Bson)
    ensures r.Doc? && |r.fields| == 2
    ensures r.fields[0] == Field("case", case_.element) && r.fields[1] == Field("then", then_.element)
  {
    var block := [Field("case", case_.element), Field("then", then_.element)];
    assert Names(block) == ["case", "then"];
    DocumentBuilders.DocumentOfDistinct(block);
    DocumentBuilders.Document(block)
  }

  /** `branches.forEach { (case, then) -> by { ... } }`: one document per branch, in order. */
  function Branches(branches: seq<(Expr, Expr)>): (r: seq<Bson>)
    ensures |r| == |branches|
    ensures forall i | 0 <= i < |branches| :: r[i] == CaseThen(branches[i].0, branches[i].1)
  {
    seq(|branches|, i requires 0 <= i < |branches| => CaseThen(branches[i].0, branches[i].1))
  }

  /** `switch(branches, default)` and its vararg form: `branches` holds one `{case, then}`
      document per pair, in order; `default` appears only when given. */
  function Switch(branches: seq<(Expr, Expr)>, default: Option<Expr>): (r: Expr)
    ensures IsOperator(r, "$switch") && Operand(r).Doc?
    ensures Lookup(r, "branches") == Some(Arr(Branches(branches)))
    ensures Lookup(r, "default") == ElementOf(default)
    ensures KeysInOrder(r, ["branches", "default"])
  {
    Fields2("$switch", Always("branches", Arr(Branches(branches))), IfPresent("default", ElementOf(default)))
  }

  /** `vars.forEach { (name, expression) -> by { name by expression.element } }`: one one-key
      document per variable, in order, even when two variables share a name. */
  function Vars(vars: seq<(string, Expr)>): (r: seq<Bson>)
    ensures |r| == |vars|
    ensures forall i | 0 <= i < |vars| :: r[i] == DocumentBuilders.OneField(vars[i].0, vars[i].1.element)
  {
    seq(|vars|, i requires 0 <= i < |vars| => DocumentBuilders.OneField(vars[i].0, vars[i].1.element))
  }

  /** `let(vars, in)` and its vararg form: exactly the keys `vars` (an array) and `in`. */
  function Let(vars: seq<(string, Expr)>, in_: Expr): (r: Expr)
    ensures IsOperator(r, "$let") && Operand(r).Doc?
    ensures Lookup(r, "vars") == Some(Arr(Vars(vars)))
    ensures Lookup(r, "in") == Some(in_.element)
    ensures KeysInOrder(r, ["vars", "in"])
  {
    Fields2("$let", Always("vars", Arr(Vars(vars))), Always("in", in_.element))
  }

  /** The i-th `{case, then}` document holds the i-th branch's condition and value. */
  lemma {:induction false} SwitchBranch(branches: seq<(Expr, Expr)>, default: Option<Expr>, i: nat)
    requires i < |branches|
    ensures var bs := Lookup(Switch(branches, default), "branches").value.items;
      |bs| == |branches| && Get(bs[i].fields, "case") == Some(branches[i].0.element)
      && Get(bs[i].fields, "then") == Some(branches[i].1.element)
  {
    var d := CaseThen(branches[i].0, branches[i].1);
    assert d.fields[1..] == [Field("then", branches[i].1.element)];
  }

  /** `$let` keeps every variable: two variables with the same name give two documents. */
  lemma LetKeepsDuplicates(name: string, a: Expr, b: Expr, in_: Expr)
    ensures var vs := Lookup(Let([(name, a), (name, b)], in_), "vars").value.items;
      |vs| == 2 && vs[0] == DocumentBuilders.OneField(name, a.element)
      && vs[1] == DocumentBuilders.OneField(name, b.element)
  {
  }
}
