/** Blocks of guarded assignments. Many builders write a fixed list of keys, each one either
    always (`"input" by input.element`) or only when its argument is non-null
    (`if (chars != null) "chars" by chars.element`). Such a block is a list of slots; this
    module proves once what every such block builds. */
module Slots {
  import opened Wrappers
  import opened Bson

  /** One assignment of a block: `value` is `None` when the guard skips it. */
  datatype Slot = Slot(name: string, value: Option<Bson>)

  /** A key that is always written. */
  function Always(name: string, value: Bson): Slot {
    Slot(name, Some(value))
  }

  /** A key written only when its argument is non-null. */
  function IfPresent(name: string, value: Option<Bson>): Slot {
    Slot(name, value)
  }

  function SlotNames(slots: seq<Slot>): (ns: seq<string>)
    ensures |ns| == |slots|
  {
    if slots == [] then [] else [slots[0].name] + SlotNames(slots[1..])
  }

  /** The fields the block writes, in the order of its statements. */
  function Written(slots: seq<Slot>): seq<Field> {
    if slots == [] then []
    else
      (if slots[0].value.Some? then [Field(slots[0].name, slots[0].value.value)] else [])
      + Written(slots[1..])
  }

  /** The argument of the first slot called `name`, `None` when there is no such slot. */
  function SlotValue(slots: seq<Slot>, name: string): Option<Bson> {
    if slots == [] then None
    else if slots[0].name == name then slots[0].value
    else SlotValue(slots[1..], name)
  }

  /** `xs` is `ys` with some elements left out. */
  predicate IsSubsequence(xs: seq<string>, ys: seq<string>)
    decreases |ys|
  {
    if ys == [] then xs == []
    else (xs != [] && xs[0] == ys[0] && IsSubsequence(xs[1..], ys[1..])) || IsSubsequence(xs, ys[1..])
  }

  lemma {:induction false} SubsequenceMembers(xs: seq<string>, ys: seq<string>)
    requires IsSubsequence(xs, ys)
    ensures forall x | x in xs :: x in ys
    decreases |ys|
  {
    if ys != [] {
      if xs != [] && xs[0] == ys[0] && IsSubsequence(xs[1..], ys[1..]) {
        SubsequenceMembers(xs[1..], ys[1..]);
        assert forall x | x in xs :: x == xs[0] || x in xs[1..];
      } else {
        SubsequenceMembers(xs, ys[1..]);
      }
    }
  }

  lemma {:induction false} GetAppend(a: seq<Field>, b: seq<Field>, n: string)
    ensures Get(a + b, n) == if Get(a, n).Some? then Get(a, n) else Get(b, n)
  {
    if a != [] {
      assert (a + b)[1..] == a[1..] + b;
      GetAppend(a[1..], b, n);
    } else {
      assert a + b == b;
    }
  }

  /** A block of guarded assignments to distinct keys writes each key exactly when its slot is
      set, with the slot's value, never twice, and in the order of the statements. */
  lemma {:induction false} WrittenSpec(slots: seq<Slot>)
    requires Distinct(SlotNames(slots))
    ensures UniqueNames(Written(slots))
    ensures forall n :: Get(Written(slots), n) == SlotValue(slots, n)
    ensures IsSubsequence(Names(Written(slots)), SlotNames(slots))
  {
    if slots != [] {
      var s := slots[0];
      var rest := slots[1..];
      var head := if s.value.Some? then [Field(s.name, s.value.value)] else [];
      var w := Written(rest);
      assert Written(slots) == head + w;
      assert SlotNames(slots) == [s.name] + SlotNames(rest);
      DistinctTail(SlotNames(slots));
      assert SlotNames(slots)[1..] == SlotNames(rest);
      WrittenSpec(rest);
      NamesAppend(head, w);
      SubsequenceMembers(Names(w), SlotNames(rest));
      assert s.name !in Names(w);
      GetNames(w, s.name);
      forall n
        ensures Get(Written(slots), n) == SlotValue(slots, n)
      {
        GetAppend(head, w, n);
      }
      if s.value.Some? {
        assert Names(Written(slots)) == [s.name] + Names(w);
        DistinctCons(s.name, Names(w));
        assert Names(Written(slots))[1..] == Names(w);
      } else {
        assert Written(slots) == w;
      }
    }
  }

  /** The i-th name of a block is the name of its i-th statement. */
  lemma {:induction false} SlotNamesIndex(slots: seq<Slot>)
    ensures forall i | 0 <= i < |slots| :: SlotNames(slots)[i] == slots[i].name
  {
    if slots != [] {
      SlotNamesIndex(slots[1..]);
      assert forall i | 1 <= i < |slots| :: SlotNames(slots)[i] == SlotNames(slots[1..])[i - 1];
    }
  }

  /** In a block that names each key once, a key's argument is that of the statement naming it. */
  lemma {:induction false} SlotValueAt(slots: seq<Slot>, i: nat)
    requires Distinct(SlotNames(slots))
    requires i < |slots|
    ensures SlotValue(slots, slots[i].name) == slots[i].value
  {
    SlotNamesIndex(slots);
    if i > 0 {
      assert SlotNames(slots)[0] != SlotNames(slots)[i];
      SlotNamesIndex(slots[1..]);
      assert Distinct(SlotNames(slots[1..])) by {
        forall k, l | 0 <= k < l < |slots| - 1
          ensures SlotNames(slots[1..])[k] != SlotNames(slots[1..])[l]
        {
          assert SlotNames(slots)[k + 1] != SlotNames(slots)[l + 1];
        }
      }
      SlotValueAt(slots[1..], i - 1);
    }
  }

  /** A key no statement names has no argument. */
  lemma {:induction false} SlotValueAbsent(slots: seq<Slot>, name: string)
    requires name !in SlotNames(slots)
    ensures SlotValue(slots, name) == None
  {
    if slots != [] {
      assert SlotNames(slots) == [slots[0].name] + SlotNames(slots[1..]);
      SlotValueAbsent(slots[1..], name);
    }
  }

  /** A block whose every statement writes writes every key, in statement order. */
  lemma {:induction false} WrittenAllPresent(slots: seq<Slot>)
    ensures (forall i | 0 <= i < |slots| :: slots[i].value.Some?) ==> Names(Written(slots)) == SlotNames(slots)
  {
    if slots != [] && forall i | 0 <= i < |slots| :: slots[i].value.Some? {
      assert forall i | 0 <= i < |slots| - 1 :: slots[1..][i] == slots[i + 1];
      WrittenAllPresent(slots[1..]);
      var head := [Field(slots[0].name, slots[0].value.value)];
      assert Written(slots) == head + Written(slots[1..]);
      NamesAppend(head, Written(slots[1..]));
    }
  }

  /** A block that writes each key once builds exactly the fields it writes. */
  lemma BuildWritten(slots: seq<Slot>)
    requires Distinct(SlotNames(slots))
    ensures Build(Written(slots)) == Written(slots)
  {
    WrittenSpec(slots);
    BuildDistinct(Written(slots));
  }
}
