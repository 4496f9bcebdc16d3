/** What value equality means, stated on the values alone, and with it the map's laws and the
    codec's unique keys. */
module Equality {
  import opened Basics
  import opened Words
  import opened Values
  import opened Wire
  import opened WireTheorems
  import opened Maps

  // ---- floats ----

  /** The fields of an IEEE 754 double: 11 bits of exponent, all ones, over 52 bits of
      fraction, not all zero. */
  lemma NaNFields(bits: u64)
    ensures IsNaN(bits) <==>
            bits / 0x10_0000_0000_0000 % 0x800 == 0x7FF && bits % 0x10_0000_0000_0000 != 0
  {
    var low := bits % 0x8000_0000_0000_0000;
    var (e, f) := (low / 0x10_0000_0000_0000, low % 0x10_0000_0000_0000);
    assert low == 0x10_0000_0000_0000 * e + f && e < 0x800;
    assert bits / 0x10_0000_0000_0000 % 0x800 == e;
    assert bits % 0x10_0000_0000_0000 == f;
  }

  // ---- equality ----

  /** Nothing inside is unequal to everything: no NaN, no pledge reference, no stray tag. */
  predicate Comparable(v: Value)
    decreases Nodes(v), 0
  {
    NodesKids(v);
    && (v.Float? ==> !IsNaN(v.bits)) && !v.PledgeRef? && !v.Stray?
    && ComparableAll(Kids(v))
  }

  predicate ComparableAll(xs: seq<Value>)
    decreases NodesAll(xs), 1 + |xs|
  {
    xs == [] || (Comparable(xs[0]) && ComparableAll(xs[1..]))
  }

  /** v with its own variant tag cleared. */
  function Untagged(v: Value): Value {
    match v
    case Unit(_) => Unit(0)
    case Int(_, i) => Int(0, i)
    case UInt(_, u) => UInt(0, u)
    case Float(_, bits) => Float(0, bits)
    case Bool(_, b) => Bool(0, b)
    case Byte(_, b) => Byte(0, b)
    case Char(_, ch) => Char(0, ch)
    case Str(_, text) => Str(0, text)
    case List(_, e, xs) => List(0, e, xs)
    case Map(_, k, xs) => Map(0, k, xs)
    case Tuple(_, xs) => Tuple(0, xs)
    case Record(_, xs) => Record(0, xs)
    case Sum(_, xs) => Sum(0, xs)
    case Opt(_, x) => Opt(0, x)
    case Res(_, x) => Res(0, x)
    case PledgeRef(_) => PledgeRef(0)
    case Instance(_, h) => Instance(0, h)
    case Stray(_, ty) => Stray(0, ty)
  }

  /** v without what equality does not see: a scalar's variant tag and the sign of a zero. */
  function Plainly(v: Value): Value
    decreases Nodes(v), 0
  {
    NodesKids(v);
    match v
    case Float(_, bits) => Float(0, if bits == 0x8000_0000_0000_0000 then 0 else bits)
    case List(_, _, _) => List(v.tag, 0, PlainlyAll(v.items))
    case Map(_, _, _) => Map(v.tag, 0, PlainlyAll(v.slots))
    case Tuple(_, _) => Tuple(v.tag, PlainlyAll(v.fields))
    case Record(_, _) => Record(v.tag, PlainlyAll(v.fields))
    case Sum(_, _) => Sum(v.tag, PlainlyAll(v.fields))
    case Opt(_, None) => v
    case Opt(_, Some(x)) => Opt(v.tag, Some(Plainly(x)))
    case Res(_, None) => v
    case Res(_, Some(x)) => Res(v.tag, Some(Plainly(x)))
    case _ => Untagged(v)
  }

  function PlainlyAll(xs: seq<Value>): (ys: seq<Value>)
    ensures |ys| == |xs|
    decreases NodesAll(xs), 1 + |xs|
  {
    if xs == [] then [] else [Plainly(xs[0])] + PlainlyAll(xs[1..])
  }

  predicate Holder(v: Value) {
    Container(v) || v.Opt? || v.Res?
  }

  lemma HoldersExactly(a: Value, b: Value)
    requires Holder(a) && Ty(a) == Ty(b)
    ensures Plainly(a) == Plainly(b) <==> a.tag == b.tag && PlainlyAll(Kids(a)) == PlainlyAll(Kids(b))
  {
    BoxExactly(a);
    BoxExactly(b);
  }

  lemma BoxExactly(v: Value)
    ensures (v.Opt? || v.Res?) && v.box.Some? ==> PlainlyAll(Kids(v)) == [Plainly(v.box.value)]
    ensures Ty(Plainly(v)) == Ty(v)
  {
    if (v.Opt? || v.Res?) && v.box.Some? {
      assert Kids(v)[1..] == [];
    }
  }

  lemma ScalarsExactly(a: Value, b: Value)
    requires !Holder(a) && Ty(a) == Ty(b)
    ensures ValueEq(a, b) <==> Comparable(a) && Plainly(a) == Plainly(b)
  {
  }

  /** Two values are equal exactly when nothing inside is unequal to everything and they are
      one value once what equality does not see is cleared. */
  lemma {:induction false} ValueEqExactly(a: Value, b: Value)
    ensures ValueEq(a, b) <==> Comparable(a) && Plainly(a) == Plainly(b)
    decreases Nodes(a), 0
  {
    hide PlainlyAll, ComparableAll, ValueEqAll, IsNaN, FloatEq;
    NodesKids(a);
    BoxExactly(a);
    BoxExactly(b);
    if Ty(a) == Ty(b) {
      if Holder(a) {
        ValueEqAllExactly(Kids(a), Kids(b));
        HoldersExactly(a, b);
        hide Plainly;
      } else {
        ScalarsExactly(a, b);
        hide ValueEq, Plainly, Comparable;
      }
    }
  }

  lemma {:induction false} ValueEqAllExactly(xs: seq<Value>, ys: seq<Value>)
    ensures ValueEqAll(xs, ys) <==> ComparableAll(xs) && PlainlyAll(xs) == PlainlyAll(ys)
    decreases NodesAll(xs), 1 + |xs|
  {
    hide ValueEq, Plainly, Comparable;
    if |xs| == |ys| && xs != [] {
      ValueEqExactly(xs[0], ys[0]);
      ValueEqAllExactly(xs[1..], ys[1..]);
      assert PlainlyAll(xs)[1..] == PlainlyAll(xs[1..]) && PlainlyAll(ys)[1..] == PlainlyAll(ys[1..]);
      assert PlainlyAll(xs)[0] == Plainly(xs[0]) && PlainlyAll(ys)[0] == Plainly(ys[0]);
    }
  }

  // ---- keys ----

  /** Keys are equal exactly when they are one value but for their variant tags; and keys
      that may cross the wire, exactly when they are the same, and exactly when their
      bytes are. */
  lemma KeyEqExactly(a: Value, b: Value)
    requires Keyable(Ty(a))
    ensures ValueEq(a, b) <==> Untagged(a) == Untagged(b)
    ensures NodeOk(a) && NodeOk(b) ==> (ValueEq(a, b) <==> a == b)
  {
  }

  lemma KeyBytesApart(a: Value, b: Value)
    requires Keyable(Ty(a)) && Keyable(Ty(b)) && NodeOk(a) && NodeOk(b) && Fits(a) && Fits(b)
    ensures ValueEq(a, b) <==> Enc(a) == Enc(b)
  {
    hide Enc, DecodeRec, UniqueKeys, Fits;
    KeyEqExactly(a, b);
    KeyLegal(a);
    KeyLegal(b);
    RoundTrip(a, 1, []);
    RoundTrip(b, 1, []);
  }

  lemma KeyLegal(v: Value)
    requires Keyable(Ty(v)) && NodeOk(v)
    ensures Legal(v, 1) && UniqueKeys(v)
  {
    assert Kids(v) == [];
  }

  // ---- the map's laws ----

  /** What was set under a key is found under that key, whatever its tag, and under no other
      key has anything changed. */
  lemma SetFindsKey(slots: seq<Value>, k: Value, v: Value, q: Value)
    requires |slots| % 2 == 0 && Keyable(Ty(k))
    ensures Lookup(SetSlots(slots, k, v), q) ==
            if Untagged(k) == Untagged(q) then Some(v) else Lookup(slots, q)
  {
    hide ValueEq, Lookup;
    SetThenLookup(slots, k, v, q);
    KeyEqExactly(k, q);
  }

  /** A lookup in a map with its keys apart answers the value beside that very key. */
  lemma LookupFindsKey(keyTy: u32, slots: seq<Value>, q: Value, i: nat)
    requires Interleaved(keyTy, slots) && Keyable(keyTy) && i % 2 == 0 && i < |slots|
    requires Apart(slots) && Untagged(slots[i]) == Untagged(q)
    ensures Lookup(slots, q) == Some(slots[i + 1])
  {
    hide ValueEq, FindSlot;
    assert Ty(slots[i]) == keyTy;
    KeyEqExactly(slots[i], q);
    FindMisses(slots, q, 0);
    FindHits(slots, q, 0);
    var at := FindSlot(slots, q, 0);
    assert at < |slots|;
    assert Ty(slots[at - 1]) == keyTy;
    KeyEqExactly(slots[at - 1], q);
  }

  lemma LookupMisses(keyTy: u32, slots: seq<Value>, q: Value)
    requires Interleaved(keyTy, slots) && Keyable(keyTy)
    requires forall i | 0 <= i < |slots| && i % 2 == 0 :: Untagged(slots[i]) != Untagged(q)
    ensures Lookup(slots, q) == None
  {
    hide ValueEq, FindSlot;
    FindHits(slots, q, 0);
    var at := FindSlot(slots, q, 0);
    if at < |slots| {
      assert Ty(slots[at - 1]) == keyTy;
      KeyEqExactly(slots[at - 1], q);
    }
  }

  /** No two keys are one value but for their tags. */
  predicate Apart(slots: seq<Value>) {
    forall j, i | 0 <= j < i < |slots| && j % 2 == 0 && i % 2 == 0 :: Untagged(slots[j]) != Untagged(slots[i])
  }

  lemma ApartIs(keyTy: u32, slots: seq<Value>)
    requires Interleaved(keyTy, slots) && Keyable(keyTy)
    ensures KeysApartFrom(slots, 0) <==> Apart(slots)
  {
    hide ValueEq;
    forall j, i | 0 <= j < i < |slots| && j % 2 == 0 && i % 2 == 0
      ensures ValueEq(slots[j], slots[i]) <==> Untagged(slots[j]) == Untagged(slots[i])
    {
      KeyEqExactly(slots[j], slots[i]);
    }
  }

  // ---- the codec's condition ----

  /** In every map anywhere inside v no key occurs twice. */
  predicate Distinct(v: Value)
    decreases Nodes(v), 0
  {
    NodesKids(v);
    && (v.Map? ==> forall j, i | 0 <= j < i < |v.slots| && j % 2 == 0 && i % 2 == 0 :: v.slots[j] != v.slots[i])
    && DistinctAll(Kids(v))
  }

  predicate DistinctAll(xs: seq<Value>)
    decreases NodesAll(xs), 1 + |xs|
  {
    xs == [] || (Distinct(xs[0]) && DistinctAll(xs[1..]))
  }

  lemma {:induction false} UniqueIsDistinct(v: Value, depth: nat)
    requires Legal(v, depth)
    ensures UniqueKeys(v) <==> Distinct(v)
    decreases Nodes(v), 0
  {
    hide ValueEq;
    NodesKids(v);
    UniqueIsDistinctAll(Kids(v), depth + 1);
    if v.Map? {
      LegalEach(v.slots, depth + 1);
      forall j, i | 0 <= j < i < |v.slots| && j % 2 == 0 && i % 2 == 0
        ensures ValueEq(v.slots[j], v.slots[i]) <==> v.slots[j] == v.slots[i]
      {
        assert KidTyOk(v, j, v.slots[j]) && KidTyOk(v, i, v.slots[i]);
        KeyEqExactly(v.slots[j], v.slots[i]);
      }
    }
  }

  lemma {:induction false} UniqueIsDistinctAll(xs: seq<Value>, depth: nat)
    requires LegalAll(xs, depth)
    ensures UniqueKeysAll(xs) <==> DistinctAll(xs)
    decreases NodesAll(xs), 1 + |xs|
  {
    hide UniqueKeys, Distinct, Legal;
    if xs != [] {
      UniqueIsDistinct(xs[0], depth);
      UniqueIsDistinctAll(xs[1..], depth);
    }
  }

  lemma {:induction false} LegalEach(xs: seq<Value>, depth: nat)
    requires LegalAll(xs, depth)
    ensures forall i | 0 <= i < |xs| :: Legal(xs[i], depth) && NodeOk(xs[i])
    decreases |xs|
  {
    if xs != [] {
      LegalEach(xs[1..], depth);
    }
  }

  /** The round trip, with its condition on the values alone: the bytes of an encodable
      value, followed by anything, are read back as that value and no more is consumed, if
      and only if no key in any map of it occurs twice. */
  lemma RoundTripDistinct(v: Value, depth: nat, tail: seq<u8>)
    requires Legal(v, depth) && Fits(v)
    ensures DecodeRec(Enc(v) + tail, depth).val == if Distinct(v) then Some(v) else None
    ensures Distinct(v) ==> DecodeRec(Enc(v) + tail, depth).used == |Enc(v)|
  {
    hide Legal, DecodeRec, Enc, UniqueKeys, Distinct;
    UniqueIsDistinct(v, depth);
    RoundTrip(v, depth, tail);
  }

  /** What the decoder refuses of a map's next element: the wrong key tag, or a key already
      there. */
  lemma KidOkDistinct(shell: Value, prior: seq<Value>, kid: Value)
    requires shell.Map? && Keyable(shell.keyTy) && NodeOk(kid)
    requires forall j | 0 <= j < |prior| :: NodeOk(prior[j])
    requires forall j | 0 <= j < |prior| && j % 2 == 0 :: Ty(prior[j]) == shell.keyTy
    ensures |prior| % 2 == 0 ==>
              (KidOk(shell, prior, kid) <==>
               Ty(kid) == shell.keyTy && forall j | 0 <= j < |prior| && j % 2 == 0 :: prior[j] != kid)
    ensures |prior| % 2 == 1 ==> KidOk(shell, prior, kid)
  {
    hide ValueEq;
    forall j | 0 <= j < |prior| && j % 2 == 0 ensures ValueEq(prior[j], kid) <==> prior[j] == kid {
      KeyEqExactly(prior[j], kid);
    }
  }
}
