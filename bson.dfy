/** The BSON tree the DSLs build. A document is an insertion-ordered map from names to values
    (the builder is a Kotlin `LinkedHashMap`), modelled as a sequence of fields; an array is a
    sequence of values. */
module Bson {
  import opened Ints
  import ObjectIds
  import opened Wrappers

  /** The element kinds whose content the model does not interpret. */
  datatype OpaqueKind = Double | Decimal128 | DateTime | RegExp

  datatype Bson =
    | Null
    | Bool(b: bool)
    | Int32(i: i32)
    | Int64(l: i64)
    | Str(s: string)
    | ObjId(oid: ObjectIds.ObjectId)
    | Binary(subtype: i8, data: seq<i8>)
    | Timestamp(value: i64)
    | Doc(fields: seq<Field>)
    | Arr(items: seq<Bson>)
    /** A Double, Decimal128, DateTime or RegExp, identified by an uninterpreted token. */
    | Opaque(kind: OpaqueKind, token: int)

  datatype Field = Field(name: string, value: Bson)

  /** The names of the fields, in order. */
  function Names(fs: seq<Field>): (ns: seq<string>)
    ensures |ns| == |fs|
  {
    if fs == [] then [] else [fs[0].name] + Names(fs[1..])
  }

  /** No string occurs twice. */
  predicate Distinct(ss: seq<string>) {
    forall i, j | 0 <= i < j < |ss| :: ss[i] != ss[j]
  }

  /** Dropping the first string keeps the rest distinct, and the first is not among them. */
  lemma DistinctTail(ss: seq<string>)
    requires Distinct(ss) && ss != []
    ensures Distinct(ss[1..]) && ss[0] !in ss[1..]
  {
    forall i, j | 0 <= i < j < |ss| - 1 ensures ss[1..][i] != ss[1..][j] {
      assert ss[1..][i] == ss[i + 1] && ss[1..][j] == ss[j + 1];
    }
    forall i | 0 <= i < |ss| - 1 ensures ss[1..][i] != ss[0] {
      assert ss[1..][i] == ss[i + 1];
    }
  }

  /** Dropping the last string keeps the rest distinct, and the last is not among them. */
  lemma DistinctInit(ss: seq<string>)
    requires Distinct(ss) && ss != []
    ensures Distinct(ss[..|ss| - 1]) && ss[|ss| - 1] !in ss[..|ss| - 1]
  {
    var init := ss[..|ss| - 1];
    forall i | 0 <= i < |init| ensures init[i] != ss[|ss| - 1] {
      assert init[i] == ss[i];
    }
  }

  /** A string that is not among distinct strings can be put in front of them. */
  lemma DistinctCons(x: string, ss: seq<string>)
    requires Distinct(ss) && x !in ss
    ensures Distinct([x] + ss)
  {
    var r := [x] + ss;
    forall i, j | 0 <= i < j < |r| ensures r[i] != r[j] {
      assert r[j] == ss[j - 1];
      if i > 0 {
        assert r[i] == ss[i - 1];
      }
    }
  }

  /** A map never holds the same key twice. */
  predicate UniqueNames(fs: seq<Field>) {
    Distinct(Names(fs))
  }

  /** `map[name]`: the value stored under `name`, if any. */
  function Get(fs: seq<Field>, name: string): Option<Bson> {
    if fs == [] then None
    else if fs[0].name == name then Some(fs[0].value)
    else Get(fs[1..], name)
  }

  /** `map[name] = value` on a `LinkedHashMap`: an existing key keeps its position and gets the
      new value; a new key is appended at the end. */
  function Put(fs: seq<Field>, name: string, value: Bson): (r: seq<Field>)
    ensures Get(r, name) == Some(value)
    ensures forall n | n != name :: Get(r, n) == Get(fs, n)
    ensures Names(r) == if Get(fs, name).Some? then Names(fs) else Names(fs) + [name]
  {
    if fs == [] then [Field(name, value)]
    else if fs[0].name == name then [Field(name, value)] + fs[1..]
    else
      var rest := Put(fs[1..], name, value);
      assert ([fs[0]] + rest)[1..] == rest;
      [fs[0]] + rest
  }

  /** The value of the last assignment to `name` in a sequence of assignments. */
  function LastGet(assigns: seq<Field>, name: string): Option<Bson> {
    if assigns == [] then None
    else if assigns[|assigns| - 1].name == name then Some(assigns[|assigns| - 1].value)
    else LastGet(assigns[..|assigns| - 1], name)
  }

  /** Performs the assignments in order: `map += other`, and in general the effect of a block
      of `name by value` statements on a builder. */
  function PutAll(fs: seq<Field>, assigns: seq<Field>): (r: seq<Field>)
    ensures forall n :: Get(r, n) == if LastGet(assigns, n).Some? then LastGet(assigns, n) else Get(fs, n)
    ensures Names(fs) <= Names(r)
  {
    if assigns == [] then fs
    else
      var last := assigns[|assigns| - 1];
      Put(PutAll(fs, assigns[..|assigns| - 1]), last.name, last.value)
  }

  /** The document a block of assignments builds on a fresh builder (`BsonDocument(block)`). */
  function Build(block: seq<Field>): (r: seq<Field>)
    ensures UniqueNames(r)
    ensures forall n :: Get(r, n) == LastGet(block, n)
  {
    PutAllUnique([], block);
    PutAll([], block)
  }

  /** `null.bson`, and the `?: null.bson` lifting: an absent value becomes `BsonNull`. */
  function OrNull(v: Option<Bson>): (r: Bson)
    ensures v.None? ==> r == Null
    ensures v.Some? ==> r == v.value
  {
    if v.Some? then v.value else Null
  }

  /** `String?.bson` */
  function StrOrNull(v: Option<string>): (r: Bson)
    ensures v.None? ==> r == Null
    ensures v.Some? ==> r == Str(v.value)
  {
    if v.Some? then Str(v.value) else Null
  }

  /** `Boolean?.bson` */
  function BoolOrNull(v: Option<bool>): (r: Bson)
    ensures v.None? ==> r == Null
    ensures v.Some? ==> r == Bool(v.value)
  {
    if v.Some? then Bool(v.value) else Null
  }

  /** `ObjectId?.bson` */
  function ObjIdOrNull(v: Option<ObjectIds.ObjectId>): (r: Bson)
    ensures v.None? ==> r == Null
    ensures v.Some? ==> r == ObjId(v.value)
  {
    if v.Some? then ObjId(v.value) else Null
  }

  /** `Double?.bson`, `Decimal128?.bson` and `Instant?.bson`: an opaque element of the given kind. */
  function OpaqueOrNull(kind: OpaqueKind, v: Option<int>): (r: Bson)
    ensures v.None? ==> r == Null
    ensures v.Some? ==> r == Opaque(kind, v.value)
  {
    if v.Some? then Opaque(kind, v.value) else Null
  }

  /** `"prefix.name"`, the key `flatBy` writes. */
  function Dotted(prefix: string, name: string): (r: string)
    ensures |r| > |prefix| && r[..|prefix|] == prefix && r[|prefix|] == '.'
  {
    prefix + "." + name
  }

  /** The entries of `m` with their names prefixed. */
  function Flatten(prefix: string, m: seq<Field>): (r: seq<Field>)
    ensures |r| == |m|
    ensures forall i | 0 <= i < |m| :: r[i] == Field(Dotted(prefix, m[i].name), m[i].value)
  {
    seq(|m|, i requires 0 <= i < |m| => Field(Dotted(prefix, m[i].name), m[i].value))
  }

  /** Flattening one more entry appends its dotted field. */
  lemma FlattenSnoc(prefix: string, m: seq<Field>, i: nat)
    requires i < |m|
    ensures Flatten(prefix, m[..i + 1]) == Flatten(prefix, m[..i]) + [Field(Dotted(prefix, m[i].name), m[i].value)]
  {
    var l := Flatten(prefix, m[..i + 1]);
    var r := Flatten(prefix, m[..i]) + [Field(Dotted(prefix, m[i].name), m[i].value)];
    forall k | 0 <= k < |l| ensures l[k] == r[k] {
      assert m[..i + 1][k] == m[k];
      if k < i {
        assert m[..i][k] == m[k];
      }
    }
  }

  /** A key is present exactly when it is among the names. */
  lemma {:induction false} GetNames(fs: seq<Field>, name: string)
    ensures Get(fs, name).Some? <==> name in Names(fs)
  {
    if fs != [] {
      GetNames(fs[1..], name);
    }
  }

  lemma {:induction false} NamesIndex(fs: seq<Field>, i: nat)
    requires i < |fs|
    ensures Names(fs)[i] == fs[i].name
  {
    if i > 0 {
      NamesIndex(fs[1..], i - 1);
    }
  }

  /** The i-th name is the name of the i-th field. */
  lemma NamesSpec(fs: seq<Field>)
    ensures forall i | 0 <= i < |fs| :: Names(fs)[i] == fs[i].name
  {
    forall i | 0 <= i < |fs|
      ensures Names(fs)[i] == fs[i].name
    {
      NamesIndex(fs, i);
    }
  }

  /** In a map, the i-th field is what a lookup of its name finds. */
  lemma {:induction false} GetIndex(fs: seq<Field>, i: nat)
    requires UniqueNames(fs) && i < |fs|
    ensures Get(fs, fs[i].name) == Some(fs[i].value)
  {
    NamesSpec(fs);
    if i > 0 {
      assert fs[0].name != fs[i].name;
      NamesSpec(fs[1..]);
      GetIndex(fs[1..], i - 1);
    }
  }

  /** A name is assigned somewhere exactly when it is among the names assigned. */
  lemma {:induction false} LastGetNames(assigns: seq<Field>, name: string)
    ensures LastGet(assigns, name).Some? <==> name in Names(assigns)
  {
    if assigns != [] {
      var init := assigns[..|assigns| - 1];
      var last := assigns[|assigns| - 1];
      assert init + [last] == assigns;
      NamesAppend(init, [last]);
      assert Names([last]) == [last.name];
      LastGetNames(init, name);
    }
  }

  /** The names of a concatenation are the names of its parts, in order. */
  lemma {:induction false} NamesAppend(a: seq<Field>, b: seq<Field>)
    ensures Names(a + b) == Names(a) + Names(b)
  {
    if a != [] {
      assert (a + b)[1..] == a[1..] + b;
      NamesAppend(a[1..], b);
    } else {
      assert a + b == b;
    }
  }


  /** A write keeps the keys distinct. */
  lemma PutUnique(fs: seq<Field>, name: string, value: Bson)
    requires UniqueNames(fs)
    ensures UniqueNames(Put(fs, name, value))
  {
    GetNames(fs, name);
  }

  /** Any sequence of writes keeps the keys distinct. */
  lemma {:induction false} PutAllUnique(fs: seq<Field>, assigns: seq<Field>)
    requires UniqueNames(fs)
    ensures UniqueNames(PutAll(fs, assigns))
  {
    if assigns != [] {
      var last := assigns[|assigns| - 1];
      PutAllUnique(fs, assigns[..|assigns| - 1]);
      PutUnique(PutAll(fs, assigns[..|assigns| - 1]), last.name, last.value);
    }
  }

  /** Writing a key that is absent appends one field. */
  lemma {:induction false} PutAbsent(fs: seq<Field>, name: string, value: Bson)
    requires name !in Names(fs)
    ensures Put(fs, name, value) == fs + [Field(name, value)]
  {
    if fs != [] {
      assert Names(fs) == [fs[0].name] + Names(fs[1..]);
      assert fs[0].name != name;
      PutAbsent(fs[1..], name, value);
      assert Put(fs, name, value) == [fs[0]] + (fs[1..] + [Field(name, value)]);
      assert fs == [fs[0]] + fs[1..];
    }
  }

  /** Writing a key that is present replaces its field where it stands and changes no other. */
  lemma {:induction false} PutPresent(fs: seq<Field>, i: nat, value: Bson)
    requires UniqueNames(fs) && i < |fs|
    ensures Put(fs, fs[i].name, value) == fs[i := Field(fs[i].name, value)]
  {
    var x := Field(fs[i].name, value);
    if i == 0 {
      assert Put(fs, fs[0].name, value) == [x] + fs[1..];
    } else {
      var ns := Names(fs);
      assert ns == [fs[0].name] + Names(fs[1..]);
      DistinctTail(ns);
      assert ns[1..] == Names(fs[1..]);
      NamesIndex(fs, 0);
      NamesIndex(fs, i);
      assert fs[0].name != fs[i].name;
      assert fs[1..][i - 1] == fs[i];
      PutPresent(fs[1..], i - 1, value);
      assert Put(fs, fs[i].name, value) == [fs[0]] + fs[1..][i - 1 := x];
      ConsUpdate(fs, i, x);
    }
  }

  lemma ConsUpdate(fs: seq<Field>, i: nat, x: Field)
    requires 0 < i < |fs|
    ensures [fs[0]] + fs[1..][i - 1 := x] == fs[i := x]
  {
    var l := [fs[0]] + fs[1..][i - 1 := x];
    forall k | 0 <= k < |fs| ensures l[k] == fs[i := x][k] {
      if k > 0 {
        assert l[k] == fs[1..][i - 1 := x][k - 1];
      }
    }
  }

  /** Assigning the same key twice keeps only the second value, at the first one's position. */
  lemma {:induction false} PutPut(fs: seq<Field>, name: string, a: Bson, b: Bson)
    ensures Put(Put(fs, name, a), name, b) == Put(fs, name, b)
  {
    if fs != [] && fs[0].name != name {
      PutPut(fs[1..], name, a, b);
    }
  }

  /** Writes to different keys do not interfere: the order in which they are made does not
      change any lookup. */
  lemma PutCommutes(fs: seq<Field>, n: string, a: Bson, m: string, b: Bson, k: string)
    requires n != m
    ensures Get(Put(Put(fs, n, a), m, b), k) == Get(Put(Put(fs, m, b), n, a), k)
  {
  }

  /** A block whose names are all distinct builds exactly its own fields, in order. */
  lemma {:induction false} BuildDistinct(block: seq<Field>)
    requires UniqueNames(block)
    ensures Build(block) == block
  {
    if block != [] {
      var init := block[..|block| - 1];
      var last := block[|block| - 1];
      assert init + [last] == block;
      NamesAppend(init, [last]);
      assert Names([last]) == [last.name];
      var ns := Names(block);
      assert ns == Names(init) + [last.name];
      DistinctInit(ns);
      assert ns[..|ns| - 1] == Names(init);
      BuildDistinct(init);
      PutAbsent(init, last.name, last.value);
      assert Build(block) == Put(Build(init), last.name, last.value);
    }
  }

  /** For a map (distinct keys) the last assignment to a key is the only one. */
  lemma {:induction false} LastGetUnique(m: seq<Field>, name: string)
    requires UniqueNames(m)
    ensures LastGet(m, name) == Get(m, name)
  {
    BuildDistinct(m);
  }

  /** Extending a sequence of assignments performs one more assignment. */
  lemma PutAllSnoc(fs: seq<Field>, assigns: seq<Field>, f: Field)
    ensures PutAll(fs, assigns + [f]) == Put(PutAll(fs, assigns), f.name, f.value)
  {
    assert (assigns + [f])[..|assigns|] == assigns;
  }

  /** Prefixing keeps distinct names distinct. */
  lemma DottedInjective(prefix: string, a: string, b: string)
    requires Dotted(prefix, a) == Dotted(prefix, b)
    ensures a == b
  {
    var k := |prefix| + 1;
    assert a == Dotted(prefix, a)[k..];
    assert b == Dotted(prefix, b)[k..];
  }

  /** The dotted keys of a map are distinct, and none of them is the prefix itself. */
  lemma FlattenNames(prefix: string, m: seq<Field>)
    requires UniqueNames(m)
    ensures UniqueNames(Flatten(prefix, m))
    ensures prefix !in Names(Flatten(prefix, m))
  {
    var r := Flatten(prefix, m);
    NamesSpec(m);
    NamesSpec(r);
    forall i, j | 0 <= i < j < |r|
      ensures r[i].name != r[j].name
    {
      if r[i].name == r[j].name {
        DottedInjective(prefix, m[i].name, m[j].name);
      }
    }
  }
}
