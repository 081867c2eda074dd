/** Evaluation query operators (filters/_Evaluation.kt): `$expr`, `$jsonSchema`, `$mod`,
    `$regex` and `$text`. */
module FilterEvaluations {
  import opened Ints
  import opened Bson
  import opened Wrappers
  import opened DocumentBuilders
  import opened Expressions

  /** `$expr(document)`: the aggregation expression given as a document. */
  method ExprDocument(b: DocumentBuilder, expression: seq<Field>)
    requires b.Valid()
    modifies b
    ensures b.Valid()
    ensures b.fields == Put(old(b.fields), "$expr", Doc(expression))
  {
    b.ByDocument("$expr", Some(expression));
  }

  /** `$expr(expression)`: the aggregation expression given as a typed expression; its element
      is written as is. */
  method ExprElement(b: DocumentBuilder, expression: Expr)
    requires b.Valid()
    modifies b
    ensures b.Valid()
    ensures b.fields == Put(old(b.fields), "$expr", expression.element)
  {
    b.ByElement("$expr", Some(expression.element));
  }

  /** `$jsonSchema(block)`: the schema document the block builds. */
  method JsonSchema(b: DocumentBuilder, expression: seq<Field>)
    requires b.Valid()
    modifies b
    ensures b.Valid()
    ensures b.fields == Put(old(b.fields), "$jsonSchema", Document(expression))
  {
    b.ByBlock("$jsonSchema", expression);
  }

  /** `$jsonSchema(document)`: the schema document as given. */
  method JsonSchemaDocument(b: DocumentBuilder, expression: seq<Field>)
    requires b.Valid()
    modifies b
    ensures b.Valid()
    ensures b.fields == Put(old(b.fields), "$jsonSchema", Doc(expression))
  {
    b.ByDocument("$jsonSchema", Some(expression));
  }

  /** A block that assigns each schema keyword once gives the same `$jsonSchema` as the
      document with those fields; a block that assigns one twice keeps only the last value. */
  lemma JsonSchemaOverloadsAgree(expression: seq<Field>)
    ensures UniqueNames(expression) ==> Document(expression) == Doc(expression)
    ensures forall n :: Get(Document(expression).fields, n) == LastGet(expression, n)
  {
    if UniqueNames(expression) {
      DocumentOfDistinct(expression);
    }
  }

  /** `$mod(divisor: Int, remainder: Int)`: a two-element array of Int32. */
  method Mod(b: DocumentBuilder, divisor: i32, remainder: i32)
    requires b.Valid()
    modifies b
    ensures b.Valid()
    ensures b.fields == Put(old(b.fields), "$mod", Arr([Int32(divisor), Int32(remainder)]))
  {
    b.Set("$mod", Array([Int32(divisor), Int32(remainder)]));
  }

  /** `$mod(divisor: Long, remainder: Long)`: a two-element array of Int64. */
  method ModLong(b: DocumentBuilder, divisor: i64, remainder: i64)
    requires b.Valid()
    modifies b
    ensures b.Valid()
    ensures b.fields == Put(old(b.fields), "$mod", Arr([Int64(divisor), Int64(remainder)]))
  {
    b.Set("$mod", Array([Int64(divisor), Int64(remainder)]));
  }

  /** The two `$mod` overloads never write the same value: the width of the arguments is kept. */
  lemma ModWidthKept(d: i32, r: i32, dl: i64, rl: i64)
    ensures Arr([Int32(d), Int32(r)]) != Arr([Int64(dl), Int64(rl)])
  {
    assert Arr([Int32(d), Int32(r)]).items[0].Int32?;
  }

  /** The pattern `$regex` takes: a String, or a `BsonRegExp` (kept opaque). */
  datatype Pattern = Source(source: string) | Compiled(token: int)

  function PatternValue(p: Pattern): (r: Bson)
    ensures p.Source? ==> r == Str(p.source)
    ensures p.Compiled? ==> r.Opaque? && r.kind == RegExp && r.token == p.token
  {
    match p
    case Source(s) => Str(s)
    case Compiled(t) => Opaque(RegExp, t)
  }

  /** Operator form `$regex(regex, options)`: `$regex` holds the pattern, then `$options` is
      written only when options are given. */
  method Regex(b: DocumentBuilder, regex: Pattern, options: Option<string>)
    requires b.Valid()
    modifies b
    ensures b.Valid()
    ensures options.None? ==> b.fields == Put(old(b.fields), "$regex", PatternValue(regex))
    ensures options.Some? ==>
      b.fields == Put(Put(old(b.fields), "$regex", PatternValue(regex)), "$options", Str(options.value))
  {
    match regex {
      case Source(s) =>
        b.ByString("$regex", Some(s));
      case Compiled(t) =>
        b.ByElement("$regex", Some(Opaque(RegExp, t)));
    }
    if options.Some? {
      b.ByString("$options", options);
    }
  }

  /** Query form `field $regex regex`: no options can be given. */
  method RegexQuery(b: DocumentBuilder, field: string, regex: Pattern)
    requires b.Valid()
    modifies b
    ensures b.Valid()
    ensures b.fields == Put(old(b.fields), field, OneField("$regex", PatternValue(regex)))
  {
    var d := new DocumentBuilder();
    Regex(d, regex, None);
    DocumentOfOne("$regex", PatternValue(regex));
    b.ByBlock(field, d.fields);
  }

  /** In a fresh operator block `$regex` with options gives `{"$regex": p, "$options": o}`, in
      that order; without options the block has the pattern alone, so an `$options` written
      earlier in the same block is kept. */
  lemma {:induction false} RegexBlock(fs: seq<Field>, p: Pattern, o: string)
    ensures Put(Put([], "$regex", PatternValue(p)), "$options", Str(o))
         == [Field("$regex", PatternValue(p)), Field("$options", Str(o))]
    ensures Get(Put(fs, "$regex", PatternValue(p)), "$options") == Get(fs, "$options")
  {
    PutAbsent([], "$regex", PatternValue(p));
    PutAbsent([Field("$regex", PatternValue(p))], "$options", Str(o));
  }

  /** `if (value != null) name by value` on a map that does not hold `name` yet. */
  function PutIfPresent(fs: seq<Field>, name: string, value: Option<Bson>): (r: seq<Field>)
    requires UniqueNames(fs) && name !in Names(fs)
    ensures UniqueNames(r)
    ensures Get(r, name) == value
    ensures forall n | n != name :: Get(r, n) == Get(fs, n)
    ensures Names(r) == Names(fs) + (if value.Some? then [name] else [])
  {
    GetNames(fs, name);
    if value.None? then fs
    else
      PutUnique(fs, name, value.value);
      Put(fs, name, value.value)
  }

  /** `if (b != null) nb by b; if (c != null) nc by c; if (d != null) nd by d` on a map that
      holds none of the three names. */
  function Settings(fs: seq<Field>, nb: string, b: Option<Bson>, nc: string, c: Option<Bson>,
                    nd: string, d: Option<Bson>): (r: seq<Field>)
    requires UniqueNames(fs) && nb !in Names(fs) && nc !in Names(fs) && nd !in Names(fs)
    requires nb != nc && nb != nd && nc != nd
    ensures UniqueNames(r)
    ensures Get(r, nb) == b && Get(r, nc) == c && Get(r, nd) == d
    ensures forall n | n != nb && n != nc && n != nd :: Get(r, n) == Get(fs, n)
    ensures Names(r) == Names(fs) + (if b.Some? then [nb] else []) + (if c.Some? then [nc] else [])
                                  + (if d.Some? then [nd] else [])
  {
    var f1 := PutIfPresent(fs, nb, b);
    var f2 := PutIfPresent(f1, nc, c);
    PutIfPresent(f2, nd, d)
  }

  /** The `$text` operand: `$search` first, then each optional setting that is given, in the
      order `$language`, `$caseSensitive`, `$diacriticSensitive`. */
  function TextFields(search: string, language: Option<string>, caseSensitive: Option<bool>,
                      diacriticSensitive: Option<bool>): (r: seq<Field>)
    ensures UniqueNames(r)
    ensures Get(r, "$search") == Some(Str(search))
    ensures Get(r, "$language") == StrOf(language)
    ensures Get(r, "$caseSensitive") == BoolOf(caseSensitive)
    ensures Get(r, "$diacriticSensitive") == BoolOf(diacriticSensitive)
    ensures forall n | n !in ["$search", "$language", "$caseSensitive", "$diacriticSensitive"] :: Get(r, n) == None
  {
    TextKeysDistinct();
    var head := [Field("$search", Str(search))];
    assert Names(head) == ["$search"];
    Settings(head, "$language", StrOf(language), "$caseSensitive", BoolOf(caseSensitive),
             "$diacriticSensitive", BoolOf(diacriticSensitive))
  }

  /** The `$text` settings appear in the order the source writes them, `$search` first. */
  lemma TextFieldsOrder(search: string, language: Option<string>, caseSensitive: Option<bool>,
                        diacriticSensitive: Option<bool>)
    ensures Names(TextFields(search, language, caseSensitive, diacriticSensitive))
         == ["$search"]
            + (if language.Some? then ["$language"] else [])
            + (if caseSensitive.Some? then ["$caseSensitive"] else [])
            + (if diacriticSensitive.Some? then ["$diacriticSensitive"] else [])
  {
    TextKeysDistinct();
    var head := [Field("$search", Str(search))];
    assert Names(head) == ["$search"];
    assert TextFields(search, language, caseSensitive, diacriticSensitive)
        == Settings(head, "$language", StrOf(language), "$caseSensitive", BoolOf(caseSensitive),
                    "$diacriticSensitive", BoolOf(diacriticSensitive));
  }

  lemma TextKeysDistinct()
    ensures "$search" != "$language" && "$search" != "$caseSensitive" && "$search" != "$diacriticSensitive"
    ensures "$language" != "$caseSensitive" && "$language" != "$diacriticSensitive"
    ensures "$caseSensitive" != "$diacriticSensitive"
  {
    var ns := ["$search", "$language", "$caseSensitive", "$diacriticSensitive"];
    assert ns[0][1] != ns[1][1] && ns[0][1] != ns[2][1] && ns[0][1] != ns[3][1];
    assert ns[1][1] != ns[2][1] && ns[1][1] != ns[3][1] && ns[2][1] != ns[3][1];
  }

  /** `if (value != null) name by value` on a builder that does not hold `name` yet. */
  method SetIfPresent(d: DocumentBuilder, name: string, value: Option<Bson>)
    requires d.Valid() && name !in Names(d.fields)
    modifies d
    ensures d.Valid()
    ensures d.fields == PutIfPresent(old(d.fields), name, value)
  {
    if value.Some? {
      d.Set(name, value.value);
    }
  }

  /** The three guarded writes of a block, in order, on a builder that holds none of their
      names. */
  method SetSettings(d: DocumentBuilder, nb: string, b: Option<Bson>, nc: string, c: Option<Bson>,
                     nd: string, e: Option<Bson>)
    requires d.Valid() && nb !in Names(d.fields) && nc !in Names(d.fields) && nd !in Names(d.fields)
    requires nb != nc && nb != nd && nc != nd
    modifies d
    ensures d.Valid()
    ensures d.fields == Settings(old(d.fields), nb, b, nc, c, nd, e)
  {
    SetIfPresent(d, nb, b);
    SetIfPresent(d, nc, c);
    SetIfPresent(d, nd, e);
  }

  /** The block `$text` nests: `$search`, then each setting that is given. */
  method TextOperand(search: string, language: Option<string>, caseSensitive: Option<bool>,
                     diacriticSensitive: Option<bool>) returns (d: DocumentBuilder)
    ensures fresh(d) && d.Valid()
    ensures d.fields == TextFields(search, language, caseSensitive, diacriticSensitive)
  {
    d := new DocumentBuilder();
    d.ByString("$search", Some(search));
    ghost var head := [Field("$search", Str(search))];
    assert d.fields == head && Names(head) == ["$search"];
    TextKeysDistinct();
    SetSettings(d, "$language", StrOf(language), "$caseSensitive", BoolOf(caseSensitive),
                "$diacriticSensitive", BoolOf(diacriticSensitive));
  }

  /** `$text(search, language, caseSensitive, diacriticSensitive)`: `$text` holds the document
      built by writing `$search` and then each given setting. */
  method Text(b: DocumentBuilder, search: string, language: Option<string>,
              caseSensitive: Option<bool>, diacriticSensitive: Option<bool>)
    requires b.Valid()
    modifies b
    ensures b.Valid()
    ensures b.fields == Put(old(b.fields), "$text", Doc(TextFields(search, language, caseSensitive, diacriticSensitive)))
  {
    var d := TextOperand(search, language, caseSensitive, diacriticSensitive);
    DocumentOfDistinct(d.fields);
    b.ByBlock("$text", d.fields);
  }
}
