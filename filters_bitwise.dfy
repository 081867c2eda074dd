/** Bitwise query operators (filters/_Bitwise.kt): `$bitsAllClear`, `$bitsAllSet`,
    `$bitsAnyClear` and `$bitsAnySet`, each taking a numeric mask, a binary mask or a list of
    bit positions. */
module FilterBitwise {
  import opened Ints
  import opened Bson
  import opened Wrappers
  import opened DocumentBuilders
  import ArrayBuilders

  datatype BitsOperator = AllClear | AllSet | AnyClear | AnySet

  function Key(op: BitsOperator): string
  {
    match op
    case AllClear => "$bitsAllClear"
    case AllSet => "$bitsAllSet"
    case AnyClear => "$bitsAnyClear"
    case AnySet => "$bitsAnySet"
  }

  /** The three argument kinds: a Long mask, a `BsonBinary` mask, or a list of bit positions. */
  datatype Mask = Numeric(mask: i64) | BinaryMask(subtype: i8, data: seq<i8>) | Positions(positions: seq<i32>)

  /** The value the operator key holds for each argument kind. */
  function MaskValue(m: Mask): (r: Bson)
    ensures m.Numeric? ==> r == Int64(m.mask)
    ensures m.BinaryMask? ==> r == Binary(m.subtype, m.data)
    ensures m.Positions? ==> r.Arr? && |r.items| == |m.positions|
                             && forall i | 0 <= i < |m.positions| :: r.items[i] == Int32(m.positions[i])
  {
    match m
    case Numeric(x) => Int64(x)
    case BinaryMask(s, d) => Binary(s, d)
    case Positions(ps) => Arr(ArrayBuilders.Int32s(ps))
  }

  /** Operator form `bitsAllClear(mask)`, ...: the operator key holds the mask. */
  method Bits(b: DocumentBuilder, op: BitsOperator, m: Mask)
    requires b.Valid()
    modifies b
    ensures b.Valid()
    ensures b.fields == Put(old(b.fields), Key(op), MaskValue(m))
  {
    match m {
      case Numeric(x) =>
        b.ByLong(Key(op), Some(x));
      case BinaryMask(s, d) =>
        b.ByElement(Key(op), Some(Binary(s, d)));
      case Positions(ps) =>
        var items := ArrayBuilders.ArrayOfInts(ps);
        b.Set(Key(op), Array(items));
    }
  }

  /** Query form `field bitsAllClear mask`, ...: the field holds `{op: mask}`. */
  method BitsQuery(b: DocumentBuilder, field: string, op: BitsOperator, m: Mask)
    requires b.Valid()
    modifies b
    ensures b.Valid()
    ensures b.fields == Put(old(b.fields), field, OneField(Key(op), MaskValue(m)))
  {
    var d := new DocumentBuilder();
    Bits(d, op, m);
    DocumentOfOne(Key(op), MaskValue(m));
    b.ByBlock(field, d.fields);
  }

  lemma KeyInjective(a: BitsOperator, c: BitsOperator)
    ensures Key(a) == Key(c) <==> a == c
  {
  }

  /** The written value determines the mask: the three argument kinds never collide, and
      positions are kept in order. */
  lemma {:induction false} MaskValueInjective(m: Mask, n: Mask)
    ensures MaskValue(m) == MaskValue(n) <==> m == n
  {
    if MaskValue(m) == MaskValue(n) && m.Positions? && n.Positions? {
      assert |m.positions| == |n.positions|;
      forall i | 0 <= i < |m.positions| ensures m.positions[i] == n.positions[i] {
        assert MaskValue(m).items[i] == Int32(m.positions[i]);
        assert MaskValue(n).items[i] == Int32(n.positions[i]);
      }
    }
  }
}
