/** The map arm: interleaved key and value slots in insertion order, found by a linear
    scan and grown by doubling; and the deep copy every map and frame slot goes through. */
module Maps {
  import opened Basics
  import opened Words
  import opened Values
  import opened Wire

  // ---- deep copy ----

  /** No tag past the enum anywhere inside, the one thing deep copy refuses. */
  predicate Copyable(v: Value)
    decreases Nodes(v), 0
  {
    NodesKids(v);
    !v.Stray? && CopyableAll(Kids(v))
  }

  predicate CopyableAll(xs: seq<Value>)
    decreases NodesAll(xs), 1 + |xs|
  {
    xs == [] || (Copyable(xs[0]) && CopyableAll(xs[1..]))
  }

  lemma {:induction false} CopyableMember(xs: seq<Value>, i: nat)
    requires i < |xs| && CopyableAll(xs)
    ensures Copyable(xs[i])
    decreases |xs|
  {
    if i > 0 {
      CopyableMember(xs[1..], i - 1);
    }
  }

  lemma {:induction false} CopyableEach(xs: seq<Value>)
    requires forall i | 0 <= i < |xs| :: Copyable(xs[i])
    ensures CopyableAll(xs)
    decreases |xs|
  {
    if xs != [] {
      CopyableEach(xs[1..]);
    }
  }

  /** w is v, or somewhere inside it. */
  predicate Within(w: Value, v: Value)
    decreases Nodes(v), 0
  {
    NodesKids(v);
    w == v || WithinAny(w, Kids(v))
  }

  predicate WithinAny(w: Value, xs: seq<Value>)
    decreases NodesAll(xs), 1 + |xs|
  {
    xs != [] && (Within(w, xs[0]) || WithinAny(w, xs[1..]))
  }

  /** What a copy refuses is exactly a stray tag somewhere inside. */
  lemma {:induction false} CopyableIff(v: Value)
    ensures Copyable(v) <==> forall w | Within(w, v) :: !w.Stray?
    decreases Nodes(v), 0
  {
    NodesKids(v);
    CopyableAllIff(Kids(v));
    assert Within(v, v);
    forall w ensures Within(w, v) <==> w == v || WithinAny(w, Kids(v)) {
    }
  }

  lemma {:induction false} CopyableAllIff(xs: seq<Value>)
    ensures CopyableAll(xs) <==> forall w | WithinAny(w, xs) :: !w.Stray?
    decreases NodesAll(xs), 1 + |xs|
  {
    hide Copyable, Within;
    if xs != [] {
      CopyableIff(xs[0]);
      CopyableAllIff(xs[1..]);
      forall w ensures WithinAny(w, xs) <==> Within(w, xs[0]) || WithinAny(w, xs[1..]) {
      }
    }
  }

  /** What the copy of a value is: the value again, but that a string is made anew and comes
      back without its variant tag. */
  function Copied(v: Value): (c: Value)
    ensures Ty(c) == Ty(v)
    decreases Nodes(v), 0
  {
    NodesKids(v);
    if v.Str? then Str(0, v.text) else WithKids(v, CopiedAll(Kids(v)))
  }

  function CopiedAll(xs: seq<Value>): (cs: seq<Value>)
    ensures |cs| == |xs|
    decreases NodesAll(xs), 1 + |xs|
  {
    if xs == [] then [] else [Copied(xs[0])] + CopiedAll(xs[1..])
  }

  lemma {:induction false} CopiedEach(xs: seq<Value>)
    ensures forall i | 0 <= i < |xs| :: CopiedAll(xs)[i] == Copied(xs[i])
    decreases |xs|
  {
    hide Copied;
    if xs != [] {
      CopiedEach(xs[1..]);
    }
  }

  lemma CopiedKids(v: Value)
    ensures Kids(Copied(v)) == CopiedAll(Kids(v))
  {
    if v.Opt? || v.Res? {
      assert |CopiedAll(Kids(v))| <= 1;
    }
  }

  /** Equality cannot tell a copy from its original, on either side. */
  lemma {:induction false} CopiedKeepsEq(a: Value, b: Value)
    ensures ValueEq(Copied(a), b) == ValueEq(a, b)
    ensures ValueEq(b, Copied(a)) == ValueEq(b, a)
    decreases Nodes(a), 0
  {
    NodesKids(a);
    CopiedKids(a);
    CopiedIs(a);
    CopiedKeepsEqAll(Kids(a), Kids(b));
    hide CopiedAll, ValueEqAll, Copied;
  }

  lemma {:induction false} CopiedKeepsEqAll(xs: seq<Value>, ys: seq<Value>)
    ensures ValueEqAll(CopiedAll(xs), ys) == ValueEqAll(xs, ys)
    ensures ValueEqAll(ys, CopiedAll(xs)) == ValueEqAll(ys, xs)
    decreases NodesAll(xs), 1 + |xs|
  {
    hide ValueEq, Copied;
    if xs != [] && ys != [] {
      CopiedKeepsEq(xs[0], ys[0]);
      CopiedKeepsEqAll(xs[1..], ys[1..]);
      assert CopiedAll(xs)[1..] == CopiedAll(xs[1..]);
    }
  }

  /** A copy has unique keys exactly when the original has. */
  lemma {:induction false} CopiedKeepsUnique(v: Value)
    ensures UniqueKeys(Copied(v)) == UniqueKeys(v)
    decreases Nodes(v), 0
  {
    hide ValueEq, CopiedAll;
    NodesKids(v);
    CopiedKids(v);
    CopiedKeepsUniqueAll(Kids(v));
    if v.Map? {
      CopiedKeepsApart(v.slots);
    }
  }

  lemma {:induction false} CopiedKeepsUniqueAll(xs: seq<Value>)
    ensures UniqueKeysAll(CopiedAll(xs)) == UniqueKeysAll(xs)
    decreases NodesAll(xs), 1 + |xs|
  {
    hide UniqueKeys, Copied;
    if xs != [] {
      CopiedKeepsUnique(xs[0]);
      CopiedKeepsUniqueAll(xs[1..]);
      assert CopiedAll(xs)[1..] == CopiedAll(xs[1..]);
    }
  }

  lemma CopiedKeepsApart(slots: seq<Value>)
    ensures KeysApartFrom(CopiedAll(slots), 0) == KeysApartFrom(slots, 0)
  {
    hide ValueEq, CopiedAll, Copied;
    CopiedEach(slots);
    forall j, i | 0 <= j < i < |slots|
      ensures ValueEq(CopiedAll(slots)[j], CopiedAll(slots)[i]) == ValueEq(slots[j], slots[i])
    {
      CopiedKeepsEq(slots[j], Copied(slots[i]));
      CopiedKeepsEq(slots[i], slots[j]);
    }
  }

  /** No string anywhere inside v carries a variant tag. */
  predicate PlainText(v: Value)
    decreases Nodes(v), 0
  {
    NodesKids(v);
    (v.Str? ==> v.tag == 0) && PlainTextAll(Kids(v))
  }

  predicate PlainTextAll(xs: seq<Value>)
    decreases NodesAll(xs), 1 + |xs|
  {
    xs == [] || (PlainText(xs[0]) && PlainTextAll(xs[1..]))
  }

  /** A copy is the very same value exactly when no string in it carries a tag. */
  lemma {:induction false} CopiedSameIff(v: Value)
    ensures Copied(v) == v <==> PlainText(v)
    decreases Nodes(v), 0
  {
    hide CopiedAll;
    NodesKids(v);
    CopiedKids(v);
    CopiedSameIffAll(Kids(v));
    RebuildSame(v);
  }

  lemma {:induction false} CopiedSameIffAll(xs: seq<Value>)
    ensures CopiedAll(xs) == xs <==> PlainTextAll(xs)
    decreases NodesAll(xs), 1 + |xs|
  {
    hide Copied, PlainText;
    if xs != [] {
      CopiedSameIff(xs[0]);
      CopiedSameIffAll(xs[1..]);
      assert xs == [xs[0]] + xs[1..];
      assert CopiedAll(xs)[0] == Copied(xs[0]) && CopiedAll(xs)[1..] == CopiedAll(xs[1..]);
    }
  }

  /** What may cross the wire is copied unchanged. */
  lemma {:induction false} LegalCopies(v: Value, depth: nat)
    requires Legal(v, depth)
    ensures PlainText(v) && Copied(v) == v
    decreases Nodes(v), 0
  {
    NodesKids(v);
    LegalAllCopies(Kids(v), depth + 1);
    CopiedSameIff(v);
  }

  lemma {:induction false} LegalAllCopies(xs: seq<Value>, depth: nat)
    requires LegalAll(xs, depth)
    ensures PlainTextAll(xs)
    decreases NodesAll(xs), 1 + |xs|
  {
    if xs != [] {
      LegalCopies(xs[0], depth);
      LegalAllCopies(xs[1..], depth);
    }
  }

  /** A string with a tag may not, but its copy may. */
  lemma TaggedTextCopies(t: u32, text: seq<u8>)
    requires t != 0
    ensures !Legal(Str(t, text), 1) && Legal(Copied(Str(t, text)), 1)
  {
  }

  /** geas_value_deep_copy: rebuilds the value part by part. */
  method DeepCopy(v: Value) returns (r: Result<Value>)
    ensures r == if Copyable(v) then Ok(Copied(v)) else Err(ErrType)
    decreases Nodes(v)
  {
    hide WithKids, Kids, Copied;
    NodesKids(v);
    CopiedIs(v);
    if v.Stray? {
      return Err(ErrType);
    }
    if v.Str? {
      return Ok(Str(0, v.text));
    }
    var kids := Kids(v);
    var data := new Value[|kids|];
    var i := 0;
    while i < |kids|
      invariant i <= |kids|
      invariant forall j | 0 <= j < i :: data[j] == Copied(kids[j])
      invariant forall j | 0 <= j < i :: Copyable(kids[j])
    {
      NodesMember(kids, i);
      var part := DeepCopy(kids[i]);
      if part.Err? {
        if CopyableAll(kids) {
          CopyableMember(kids, i);
        }
        return part;
      }
      data[i] := part.value;
      i := i + 1;
    }
    CopyableEach(kids);
    CopiedEach(kids);
    assert data[..] == CopiedAll(kids);
    r := Ok(WithKids(v, data[..]));
  }

  lemma CopiedIs(v: Value)
    ensures Copied(v) == if v.Str? then Str(0, v.text) else WithKids(v, CopiedAll(Kids(v)))
    ensures Ty(Copied(v)) == Ty(v)
    ensures v.Str? ==> Copyable(v)
  {
  }

  // ---- what a map is ----

  /** Keys sit at even slots, each followed by its value, and carry the map's key tag. */
  predicate Interleaved(keyTy: u32, slots: seq<Value>) {
    && |slots| % 2 == 0
    && forall i | 0 <= i < |slots| && i % 2 == 0 :: Ty(slots[i]) == keyTy
  }

  /** map_find: the index of k's value slot, or the slot count on a miss. */
  function FindSlot(slots: seq<Value>, k: Value, from: nat): (at: nat)
    requires |slots| % 2 == 0 && from % 2 == 0 && from <= |slots|
    ensures at == |slots| || (from < at < |slots| && at % 2 == 1)
    decreases |slots| - from
  {
    if from == |slots| then |slots|
    else if ValueEq(slots[from], k) then from + 1
    else FindSlot(slots, k, from + 2)
  }

  /** A key is found where its copy is. */
  lemma {:induction false} CopiedFound(slots: seq<Value>, k: Value, from: nat)
    requires |slots| % 2 == 0 && from % 2 == 0 && from <= |slots|
    ensures FindSlot(slots, Copied(k), from) == FindSlot(slots, k, from)
    decreases |slots| - from
  {
    hide ValueEq, Copied;
    if from < |slots| {
      CopiedKeepsEq(k, slots[from]);
      CopiedFound(slots, k, from + 2);
    }
  }

  lemma {:induction false} FindMisses(slots: seq<Value>, k: Value, from: nat)
    requires |slots| % 2 == 0 && from % 2 == 0 && from <= |slots|
    ensures FindSlot(slots, k, from) == |slots| ==>
              forall j | from <= j < |slots| && j % 2 == 0 :: !ValueEq(slots[j], k)
    decreases |slots| - from
  {
    hide ValueEq;
    if from < |slots| && !ValueEq(slots[from], k) {
      FindMisses(slots, k, from + 2);
    }
  }

  lemma {:induction false} FindHits(slots: seq<Value>, k: Value, from: nat)
    requires |slots| % 2 == 0 && from % 2 == 0 && from <= |slots|
    ensures var at := FindSlot(slots, k, from); at < |slots| ==> ValueEq(slots[at - 1], k)
    decreases |slots| - from
  {
    hide ValueEq;
    if from < |slots| && !ValueEq(slots[from], k) {
      FindHits(slots, k, from + 2);
    }
  }

  /** An update keeps the key's place; a new key goes last. */
  function SetSlots(slots: seq<Value>, k: Value, v: Value): seq<Value>
    requires |slots| % 2 == 0
  {
    var at := FindSlot(slots, k, 0);
    if at < |slots| then slots[at := v] else slots + [k, v]
  }

  function Lookup(slots: seq<Value>, k: Value): Option<Value>
    requires |slots| % 2 == 0
  {
    var at := FindSlot(slots, k, 0);
    if at < |slots| then Some(slots[at]) else None
  }

  function KeysOf(slots: seq<Value>): (ks: seq<Value>)
    requires |slots| % 2 == 0
    ensures |ks| == |slots| / 2
  {
    seq(|slots| / 2, i requires 0 <= i < |slots| / 2 => slots[2 * i])
  }

  /** On the keyable scalars geas_value_eq is an equivalence. */
  lemma KeyEqEquivalence(a: Value, b: Value, c: Value)
    requires Keyable(Ty(a))
    ensures ValueEq(a, a)
    ensures ValueEq(a, b) ==> ValueEq(b, a)
    ensures ValueEq(a, b) && ValueEq(b, c) ==> ValueEq(a, c)
  {
  }

  lemma {:induction false} FindAgrees(slots: seq<Value>, k: Value, k': Value, from: nat)
    requires |slots| % 2 == 0 && from % 2 == 0 && from <= |slots|
    requires Keyable(Ty(k)) && ValueEq(k, k')
    ensures FindSlot(slots, k, from) == FindSlot(slots, k', from)
    decreases |slots| - from
  {
    if from < |slots| {
      if ValueEq(slots[from], k) {
        KeyEqEquivalence(k, k', k);
        KeyEqTransfer(slots[from], k, k');
      } else {
        if ValueEq(slots[from], k') {
          KeyEqEquivalence(k, k', k);
          KeyEqTransfer(slots[from], k', k);
        }
        FindAgrees(slots, k, k', from + 2);
      }
    }
  }

  lemma KeyEqTransfer(x: Value, k: Value, k': Value)
    requires Keyable(Ty(k)) && ValueEq(x, k) && ValueEq(k, k')
    ensures ValueEq(x, k')
  {
  }

  /** A search in changed slots goes as before while every key slot on its way is the
      same. */
  lemma {:induction false} FindSameKeys(a: seq<Value>, b: seq<Value>, k: Value, from: nat)
    requires |a| % 2 == 0 && |b| % 2 == 0 && from % 2 == 0 && from <= |a| <= |b|
    requires forall j | from <= j < |a| && j % 2 == 0 :: a[j] == b[j]
    ensures FindSlot(a, k, from) < |a| ==> FindSlot(b, k, from) == FindSlot(a, k, from)
    ensures FindSlot(a, k, from) == |a| ==> FindSlot(b, k, from) == FindSlot(b, k, |a|)
    decreases |a| - from
  {
    if from < |a| && !ValueEq(a[from], k) {
      FindSameKeys(a, b, k, from + 2);
    }
  }

  /** Changing a value slot changes no search. */
  lemma {:induction false} UpdateKeepsSearch(slots: seq<Value>, at: nat, v: Value, q: Value, from: nat)
    requires |slots| % 2 == 0 && at % 2 == 1 && at < |slots| && from % 2 == 0 && from <= |slots|
    ensures FindSlot(slots[at := v], q, from) == FindSlot(slots, q, from)
    decreases |slots| - from
  {
    hide ValueEq;
    if from < |slots| {
      UpdateKeepsSearch(slots, at, v, q, from + 2);
    }
  }

  /** Unequal keys are found in different places, equal ones in the same. */
  lemma SameSlotSameKey(slots: seq<Value>, k: Value, q: Value)
    requires |slots| % 2 == 0 && Keyable(Ty(k)) && FindSlot(slots, k, 0) < |slots|
    ensures FindSlot(slots, k, 0) == FindSlot(slots, q, 0) <==> ValueEq(k, q)
  {
    hide ValueEq, Keyable, FindSlot;
    var at := FindSlot(slots, k, 0);
    if ValueEq(k, q) {
      FindAgrees(slots, k, q, 0);
    } else if FindSlot(slots, q, 0) == at {
      FindHits(slots, k, 0);
      FindHits(slots, q, 0);
      KeyEqBothWays(slots[at - 1], k, q);
    }
  }

  lemma UpdateThenLookup(slots: seq<Value>, k: Value, v: Value, q: Value, at: nat)
    requires |slots| % 2 == 0 && Keyable(Ty(k)) && FindSlot(slots, k, 0) == at < |slots|
    ensures Lookup(slots[at := v], q) == if ValueEq(k, q) then Some(v) else Lookup(slots, q)
  {
    hide ValueEq, Keyable, FindSlot;
    UpdateKeepsSearch(slots, at, v, q, 0);
    SameSlotSameKey(slots, k, q);
  }

  lemma FindLastPair(slots: seq<Value>, q: Value)
    requires |slots| % 2 == 0 && |slots| >= 2
    ensures FindSlot(slots, q, |slots| - 2) == if ValueEq(slots[|slots| - 2], q) then |slots| - 1 else |slots|
  {
  }

  lemma AppendThenLookup(slots: seq<Value>, k: Value, v: Value, q: Value)
    requires |slots| % 2 == 0 && Keyable(Ty(k)) && FindSlot(slots, k, 0) == |slots|
    ensures Lookup(slots + [k, v], q) == if ValueEq(k, q) then Some(v) else Lookup(slots, q)
  {
    hide ValueEq, Keyable, FindSlot;
    var after := slots + [k, v];
    FindSameKeys(slots, after, q, 0);
    FindLastPair(after, q);
    assert after[|slots|] == k && after[|slots| + 1] == v;
    if ValueEq(k, q) {
      FindAgrees(slots, k, q, 0);
    }
  }

  /** The two laws of a keyed store: what was set is found, and nothing else moved. */
  lemma SetThenLookup(slots: seq<Value>, k: Value, v: Value, q: Value)
    requires |slots| % 2 == 0 && Keyable(Ty(k))
    ensures Lookup(SetSlots(slots, k, v), q) == if ValueEq(k, q) then Some(v) else Lookup(slots, q)
  {
    hide ValueEq, Keyable, Lookup;
    if FindSlot(slots, k, 0) < |slots| {
      UpdateThenLookup(slots, k, v, q, FindSlot(slots, k, 0));
    } else {
      AppendThenLookup(slots, k, v, q);
    }
  }

  lemma KeyEqBothWays(x: Value, k: Value, q: Value)
    requires Keyable(Ty(k)) && ValueEq(x, k) && ValueEq(x, q)
    ensures ValueEq(k, q)
  {
  }

  /** Insertion order: an update leaves the keys as they are, a new key joins at the
      end, and in both cases the map stays well formed with its keys apart. */
  lemma SetKeepsOrder(keyTy: u32, slots: seq<Value>, k: Value, v: Value)
    requires Interleaved(keyTy, slots) && KeysApartFrom(slots, 0) && Ty(k) == keyTy
    ensures var after := SetSlots(slots, k, v);
            && Interleaved(keyTy, after)
            && KeysApartFrom(after, 0)
            && KeysOf(after) == KeysOf(slots) + (if Lookup(slots, k).Some? then [] else [k])
  {
    hide ValueEq, Keyable;
    FindMisses(slots, k, 0);
    var after := SetSlots(slots, k, v);
    assert forall j | 0 <= j < |slots| && j % 2 == 0 :: after[j] == slots[j];
    var ks := KeysOf(slots) + (if Lookup(slots, k).Some? then [] else [k]);
    assert |ks| == |after| / 2;
    assert forall i | 0 <= i < |slots| / 2 :: KeysOf(after)[i] == after[2 * i] == slots[2 * i];
  }

  lemma {:induction false} UniqueKeysAllEach(xs: seq<Value>)
    ensures UniqueKeysAll(xs) <==> forall i | 0 <= i < |xs| :: UniqueKeys(xs[i])
    decreases |xs|
  {
    if xs != [] {
      UniqueKeysAllEach(xs[1..]);
    }
  }

  /** A map value stays fit for the wire's unique key hypothesis through every set. */
  lemma SetKeepsUnique(tag: u32, keyTy: u32, slots: seq<Value>, k: Value, v: Value)
    requires Interleaved(keyTy, slots) && Ty(k) == keyTy && Keyable(keyTy)
    requires UniqueKeys(Map(tag, keyTy, slots)) && UniqueKeys(v)
    ensures UniqueKeys(Map(tag, keyTy, SetSlots(slots, k, v)))
  {
    var after := SetSlots(slots, k, v);
    SetKeepsOrder(keyTy, slots, k, v);
    UniqueKeysAllEach(slots);
    UniqueKeysAllEach(after);
    assert UniqueKeys(k);
    forall i | 0 <= i < |after|
      ensures UniqueKeys(after[i])
    {
      assert after[i] == v || (i < |slots| && after[i] == slots[i]) || after[i] == k;
    }
  }

  /** The slots left by a run of sets on a fresh map. */
  function Built(sets: seq<(Value, Value)>): (slots: seq<Value>)
    ensures |slots| % 2 == 0
  {
    if sets == [] then []
    else
      var (k, v) := sets[|sets| - 1];
      SetSlots(Built(sets[..|sets| - 1]), k, v)
  }

  /** Every map the runtime builds by setting meets the codec's hypothesis. */
  lemma {:induction false} BuiltIsUnique(keyTy: u32, sets: seq<(Value, Value)>)
    requires Keyable(keyTy)
    requires forall i | 0 <= i < |sets| :: Ty(sets[i].0) == keyTy && UniqueKeys(sets[i].1)
    ensures Interleaved(keyTy, Built(sets)) && UniqueKeys(Map(0, keyTy, Built(sets)))
    decreases |sets|
  {
    hide Keyable;
    if sets == [] {
      assert UniqueKeysAll([]);
    } else {
      var front := sets[..|sets| - 1];
      var (k, v) := sets[|sets| - 1];
      BuiltIsUnique(keyTy, front);
      SetKeepsOrder(keyTy, Built(front), k, v);
      SetKeepsUnique(0, keyTy, Built(front), k, v);
    }
  }

  // ---- the map in memory ----

  /** A GeasValue of type map: `len` live slots in a block of `data.Length`. */
  class GeasMap {
    const keyTy: u32
    var data: array<Value>
    var len: nat

    ghost predicate Valid()
      reads this, data
    {
      && len <= data.Length
      && Interleaved(keyTy, data[..len])
      && KeysApartFrom(data[..len], 0)
    }

    ghost function Slots(): seq<Value>
      requires len <= data.Length
      reads this, data
    {
      data[..len]
    }

    /** geas_map_new: an empty map holds no block worth having. */
    constructor (keyTy: u32)
      ensures Valid() && Slots() == [] && this.keyTy == keyTy && fresh(data)
    {
      this.keyTy := keyTy;
      data := new Value[0];
      len := 0;
    }

    lemma EvenLength()
      requires Valid()
      ensures len % 2 == 0
    {
    }

    method Find(k: Value) returns (at: int)
      requires Valid()
      ensures at == (if FindSlot(Slots(), k, 0) < len then FindSlot(Slots(), k, 0) else -1)
    {
      hide ValueEq;
      var i := 0;
      while i + 1 < len
        invariant 0 <= i <= len && i % 2 == 0
        invariant FindSlot(Slots(), k, 0) == FindSlot(Slots(), k, i)
      {
        if ValueEq(data[i], k) {
          return i + 1;
        }
        i := i + 2;
      }
      at := -1;
    }

    /** geas_map_get. */
    method Get(k: Value) returns (r: Option<Value>)
      requires Valid()
      ensures r == if Ty(k) == keyTy then Lookup(Slots(), k) else None
    {
      if Ty(k) != keyTy {
        return None;
      }
      var at := Find(k);
      r := if at < 0 then None else Some(data[at]);
    }

    /** geas_map_set: both halves are copied before anything is committed; a full block
        is doubled, from nothing to 8, which always leaves room for one more pair. What is
        stored is the copies, found and kept apart as the originals would be. */
    method Set(k: Value, v: Value) returns (st: Status)
      requires Valid()
      modifies this, data
      ensures Valid() && (data == old(data) || fresh(data))
      ensures st == if Ty(k) == keyTy && Copyable(v) && (Lookup(old(Slots()), k).Some? || Copyable(k)) then OK
        else ErrType
      ensures Slots() == if st == OK then SetSlots(old(Slots()), Copied(k), Copied(v)) else old(Slots())
    {
      hide ValueEq, KeysApartFrom, Interleaved, Copyable, Copied;
      if Ty(k) != keyTy {
        return ErrType;
      }
      var vc := DeepCopy(v);
      if vc.Err? {
        return vc.status;
      }
      assert Ty(Copied(k)) == keyTy by {
        CopiedIs(k);
      }
      SetKeepsOrder(keyTy, Slots(), Copied(k), Copied(v));
      EvenLength();
      CopiedFound(Slots(), k, 0);
      ghost var after := SetSlots(Slots(), Copied(k), Copied(v));
      var hit := Find(k);
      if hit >= 0 {
        data[hit] := vc.value;
        assert data[..len] == after;
        return OK;
      }
      var kc := DeepCopy(k);
      if kc.Err? {
        return kc.status;
      }
      Append(kc.value, vc.value);
      st := OK;
    }

    method Append(k: Value, v: Value)
      requires len <= data.Length && len % 2 == 0
      modifies this, data
      ensures len <= data.Length && Slots() == old(Slots()) + [k, v]
      ensures data == old(data) || fresh(data)
    {
      if len + 2 > data.Length {
        Grow();
      }
      data[len], data[len + 1] := k, v;
      len := len + 2;
    }

    method Grow()
      requires len <= data.Length < len + 2 && len % 2 == 0
      modifies this`data
      ensures fresh(data) && len + 2 <= data.Length && Slots() == old(Slots())
      ensures data.Length == if old(data.Length) == 0 then 8 else 2 * old(data.Length)
    {
      var cap := if data.Length != 0 then data.Length * 2 else 8;
      var grown := new Value[cap];
      forall i | 0 <= i < len {
        grown[i] := data[i];
      }
      data := grown;
    }
  }
}
