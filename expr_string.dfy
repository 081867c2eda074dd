/** The string operators of the expression builder (expr/_String.kt). */
module ExprStrings {
  import opened Wrappers
  import opened Bson
  import opened Slots
  import opened Expressions

  /** `strLenBytes`, `strLenCP`, `toLower`, `toString` and `toUpper` embed their argument. */
  datatype UnaryOperator = StrLenBytes | StrLenCP | ToLower | ToString | ToUpper

  function UnaryKey(op: UnaryOperator): string {
    match op
    case StrLenBytes => "$strLenBytes"
    case StrLenCP => "$strLenCP"
    case ToLower => "$toLower"
    case ToString => "$toString"
    case ToUpper => "$toUpper"
  }

  /** `split(string, delimiter)` and `strcasecmp(a, b)`: two-element arrays. */
  datatype BinaryOperator = Split | Strcasecmp

  function BinaryKey(op: BinaryOperator): string {
    match op
    case Split => "$split"
    case Strcasecmp => "$strcasecmp"
  }

  /** `substr`, `substrBytes` and `substrCP`: three-element arrays. */
  datatype SubstringOperator = Substr | SubstrBytes | SubstrCP

  function SubstringKey(op: SubstringOperator): string {
    match op
    case Substr => "$substr"
    case SubstrBytes => "$substrBytes"
    case SubstrCP => "$substrCP"
  }

  /** `indexOfBytes` and `indexOfCP`. */
  datatype IndexOperator = IndexOfBytes | IndexOfCP

  function IndexKey(op: IndexOperator): string {
    match op
    case IndexOfBytes => "$indexOfBytes"
    case IndexOfCP => "$indexOfCP"
  }

  /** `trim`, `ltrim` and `rtrim`: `{input, chars?}`. */
  datatype TrimOperator = Trim | LTrim | RTrim

  function TrimKey(op: TrimOperator): string {
    match op
    case Trim => "$trim"
    case LTrim => "$ltrim"
    case RTrim => "$rtrim"
  }

  /** `regexFind`, `regexFindAll` and `regexMatch`: `{input, regex, options?}`. */
  datatype RegexOperator = RegexFind | RegexFindAll | RegexMatch

  function RegexKey(op: RegexOperator): string {
    match op
    case RegexFind => "$regexFind"
    case RegexFindAll => "$regexFindAll"
    case RegexMatch => "$regexMatch"
  }

  /** `replaceOne` and `replaceAll`: `{input, find, replacement}`. */
  datatype ReplaceOperator = ReplaceOne | ReplaceAll

  function ReplaceKey(op: ReplaceOperator): string {
    match op
    case ReplaceOne => "$replaceOne"
    case ReplaceAll => "$replaceAll"
  }

  /** `concat(expressions)` and its vararg form: the strings in order. */
  function Concat(es: seq<Expr>): (r: Expr)
    ensures IsOperator(r, "$concat") && Operand(r).Arr?
    ensures |ArgsOf(r)| == |es|
    ensures forall i | 0 <= i < |es| :: ArgsOf(r)[i] == es[i].element
  {
    Args("$concat", es)
  }

  function Unary(op: UnaryOperator, x: Expr): (r: Expr)
    ensures IsOperator(r, UnaryKey(op)) && Operand(r) == x.element
  {
    Operator(UnaryKey(op), x.element)
  }

  function Binary(op: BinaryOperator, a: Expr, b: Expr): (r: Expr)
    ensures IsOperator(r, BinaryKey(op)) && Operand(r) == Arr([a.element, b.element])
  {
    Args(BinaryKey(op), [a, b])
  }

  /** `substr(string, start, length)` and its siblings: the three arguments in order. */
  function Substring(op: SubstringOperator, s: Expr, start: Expr, count: Expr): (r: Expr)
    ensures IsOperator(r, SubstringKey(op)) && Operand(r) == Arr([s.element, start.element, count.element])
  {
    Args(SubstringKey(op), [s, start, count])
  }

  /** `indexOfBytes(string, substring, start?)`: `[string, substring]`, then `start`. */
  function IndexOf(op: IndexOperator, s: Expr, sub: Expr, start: Option<Expr>): (r: Expr)
    ensures IsOperator(r, IndexKey(op)) && Operand(r).Arr?
    ensures |ArgsOf(r)| == if start.Some? then 3 else 2
    ensures ArgsOf(r)[..2] == [s.element, sub.element]
    ensures start.Some? ==> ArgsOf(r)[2] == start.value.element
  {
    if start.Some? then Args(IndexKey(op), [s, sub, start.value])
    else Args(IndexKey(op), [s, sub])
  }

  /** `indexOfBytes(string, substring, start, end?)`: `[string, substring, start]`, then
      `end`. */
  function IndexOfRange(op: IndexOperator, s: Expr, sub: Expr, start: Expr, end: Option<Expr>): (r: Expr)
    ensures IsOperator(r, IndexKey(op)) && Operand(r).Arr?
    ensures |ArgsOf(r)| == if end.Some? then 4 else 3
    ensures ArgsOf(r)[..3] == [s.element, sub.element, start.element]
    ensures end.Some? ==> ArgsOf(r)[3] == end.value.element
  {
    if end.Some? then Args(IndexKey(op), [s, sub, start, end.value])
    else Args(IndexKey(op), [s, sub, start])
  }

  /** `trim(input, chars?)`: `input` always, `chars` only when given. */
  function TrimChars(op: TrimOperator, input: Expr, chars: Option<Expr>): (r: Expr)
    ensures IsOperator(r, TrimKey(op)) && Operand(r).Doc?
    ensures Lookup(r, "input") == Some(input.element)
    ensures Lookup(r, "chars") == ElementOf(chars)
    ensures KeysInOrder(r, ["input", "chars"])
  {
    Fields2(TrimKey(op), Always("input", input.element), IfPresent("chars", ElementOf(chars)))
  }

  /** `regexMatch(input, regex, options?)` and its siblings: `options` is a plain String,
      present only when given. */
  function Regex(op: RegexOperator, input: Expr, regex: Expr, options: Option<string>): (r: Expr)
    ensures IsOperator(r, RegexKey(op)) && Operand(r).Doc?
    ensures Lookup(r, "input") == Some(input.element)
    ensures Lookup(r, "regex") == Some(regex.element)
    ensures Lookup(r, "options") == StrOf(options)
    ensures KeysInOrder(r, ["input", "regex", "options"])
  {
    Fields3(RegexKey(op), Always("input", input.element), Always("regex", regex.element),
            IfPresent("options", StrOf(options)))
  }

  /** `replaceOne(input, find, replacement)` and `replaceAll`: all three keys, in order. */
  function Replace(op: ReplaceOperator, input: Expr, find: Expr, replacement: Expr): (r: Expr)
    ensures IsOperator(r, ReplaceKey(op)) && Operand(r).Doc?
    ensures Lookup(r, "input") == Some(input.element)
    ensures Lookup(r, "find") == Some(find.element)
    ensures Lookup(r, "replacement") == Some(replacement.element)
    ensures KeysInOrder(r, ["input", "find", "replacement"])
  {
    Fields3(ReplaceKey(op), Always("input", input.element), Always("find", find.element),
            Always("replacement", replacement.element))
  }

  /** The two `indexOf` overloads agree when the second is given no end. */
  lemma IndexOfOverloads(op: IndexOperator, s: Expr, sub: Expr, start: Expr)
    ensures IndexOfRange(op, s, sub, start, None) == IndexOf(op, s, sub, Some(start))
  {
  }

  /** With no options, the three regex operators differ only in their key. */
  lemma RegexDifferOnlyInKey(a: RegexOperator, b: RegexOperator, input: Expr, regex: Expr)
    ensures Operand(Regex(a, input, regex, None)) == Operand(Regex(b, input, regex, None))
  {
  }
}
