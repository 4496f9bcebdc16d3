/** The registry of mangled names: one sorted array, searched by halving, grown by
    doubling, and put back as it was when a registration fails half way. */
module Inames {
  import opened Basics
  import opened Words

  type Name = seq<u8>

  datatype Entry = Entry(mangled: Name, contract: Name, symbol: Option<Name>, hash: u64, version: u32, nargs: u32)

  datatype Pledge = Pledge(name: Name, mangled: Option<Name>, nargs: u32)

  /** A contract descriptor; `mangled` is the name the runtime synthesizes for it. */
  datatype Desc = Desc(name: Name, mangled: Name, hash: u64, version: u32, pledges: seq<Pledge>)

  const MAX_CONTRACT_TYPES: nat := 64

  // ---- the order ----

  /** strcmp on two strings: below zero, zero or above. */
  function StrCmp(a: Name, b: Name): int {
    if a == [] then if b == [] then 0 else -1
    else if b == [] then 1
    else if a[0] != b[0] then a[0] - b[0]
    else StrCmp(a[1..], b[1..])
  }

  predicate Less(a: Name, b: Name) {
    StrCmp(a, b) < 0
  }

  lemma {:induction false} StrCmpFlips(a: Name, b: Name)
    ensures StrCmp(a, b) == 0 <==> a == b
    ensures StrCmp(a, b) < 0 <==> StrCmp(b, a) > 0
    decreases |a|
  {
    if a != [] && b != [] {
      assert a == [a[0]] + a[1..] && b == [b[0]] + b[1..];
      StrCmpFlips(a[1..], b[1..]);
    }
  }

  lemma {:induction false} LessTrans(a: Name, b: Name, c: Name)
    requires Less(a, b) && Less(b, c)
    ensures Less(a, c)
    decreases |a|
  {
    if a != [] && b != [] && c != [] && a[0] == b[0] && b[0] == c[0] {
      LessTrans(a[1..], b[1..], c[1..]);
    }
  }

  /** The order is the lexicographic one on bytes: at the first difference the lower byte
      goes first, and a prefix before what it begins. */
  lemma {:induction false} LessIs(a: Name, b: Name)
    ensures Less(a, b) <==>
            exists k :: 0 <= k <= |a| && k < |b| && a[..k] == b[..k] && (k == |a| || a[k] < b[k])
    decreases |a|
  {
    if a == [] && b != [] {
      assert a[..0] == b[..0];
    } else if a != [] && b != [] && a[0] != b[0] {
      assert a[..0] == b[..0];
      forall k | 1 <= k <= |a| && k < |b| ensures a[..k] != b[..k] {
        assert a[..k][0] != b[..k][0];
      }
    } else if a != [] && b != [] {
      LessIs(a[1..], b[1..]);
      forall k | 1 <= k <= |a| && k < |b| ensures a[..k] == b[..k] <==> a[1..][..k - 1] == b[1..][..k - 1] {
        assert a[..k] == [a[0]] + a[1..][..k - 1] && b[..k] == [b[0]] + b[1..][..k - 1];
      }
      if k :| && 0 <= k <= |a| - 1 && k < |b| - 1 && a[1..][..k] == b[1..][..k]
              && (k == |a| - 1 || a[1..][k] < b[1..][k]) {
        assert a[..k + 1] == b[..k + 1];
      }
      if k :| 0 <= k <= |a| && k < |b| && a[..k] == b[..k] && (k == |a| || a[k] < b[k]) {
        assert k > 0 && a[1..][..k - 1] == b[1..][..k - 1];
      }
    }
  }

  predicate Sorted(t: seq<Entry>) {
    forall i, j | 0 <= i < j < |t| :: Less(t[i].mangled, t[j].mangled)
  }

  /** p splits a sorted table at m: all before it lower, all from it on higher. */
  predicate SplitsAt(t: seq<Entry>, m: Name, p: nat) {
    && p <= |t|
    && (forall i | 0 <= i < p :: Less(t[i].mangled, m))
    && (forall i | p <= i < |t| :: Less(m, t[i].mangled))
  }

  predicate Names(t: seq<Entry>, m: Name) {
    exists i | 0 <= i < |t| :: t[i].mangled == m
  }

  /** Where m goes: after every lower name. */
  function Place(t: seq<Entry>, m: Name): (p: nat)
    ensures p <= |t|
  {
    if t == [] || !Less(t[0].mangled, m) then 0 else 1 + Place(t[1..], m)
  }

  lemma {:induction false} PlaceIs(t: seq<Entry>, m: Name, p: nat)
    requires SplitsAt(t, m, p)
    ensures Place(t, m) == p && !Names(t, m)
    decreases |t|
  {
    forall i | 0 <= i < |t| ensures t[i].mangled != m && (Less(t[i].mangled, m) <==> i < p) {
      StrCmpFlips(t[i].mangled, m);
    }
    if p > 0 {
      PlaceIs(t[1..], m, p - 1);
    }
  }

  function Inserted(t: seq<Entry>, e: Entry): seq<Entry> {
    var p := Place(t, e.mangled);
    t[..p] + [e] + t[p..]
  }

  lemma InsertedSorted(t: seq<Entry>, e: Entry, p: nat)
    requires Sorted(t) && SplitsAt(t, e.mangled, p)
    ensures Sorted(Inserted(t, e)) && Inserted(t, e) == t[..p] + [e] + t[p..]
  {
    PlaceIs(t, e.mangled, p);
  }

  /** What is left of a table without one contract's entries. */
  function Without(t: seq<Entry>, contract: Name): (r: seq<Entry>)
    ensures |r| <= |t|
  {
    if t == [] then []
    else
      var last := t[|t| - 1];
      Without(t[..|t| - 1], contract) + if last.contract == contract then [] else [last]
  }

  lemma {:induction false} WithoutSplit(a: seq<Entry>, b: seq<Entry>, contract: Name)
    ensures Without(a + b, contract) == Without(a, contract) + Without(b, contract)
    decreases |b|
  {
    if b == [] {
      assert a + b == a;
    } else {
      assert (a + b)[..|a + b| - 1] == a + b[..|b| - 1];
      WithoutSplit(a, b[..|b| - 1], contract);
    }
  }

  /** Taking out a contract's entries undoes putting one in. */
  lemma WithoutInserted(t: seq<Entry>, e: Entry)
    ensures Without(Inserted(t, e), e.contract) == Without(t, e.contract)
  {
    assert Without([e], e.contract) == [];
    hide Without, Place;
    var p := Place(t, e.mangled);
    WithoutMiddle(t[..p], [e], t[p..], e.contract);
    assert t == t[..p] + t[p..];
  }

  lemma WithoutMiddle(a: seq<Entry>, b: seq<Entry>, c: seq<Entry>, contract: Name)
    requires Without(b, contract) == []
    ensures Without(a + b + c, contract) == Without(a + c, contract)
  {
    hide Without;
    WithoutSplit(a + b, c, contract);
    WithoutSplit(a, b, contract);
    WithoutSplit(a, c, contract);
    assert Without(a, contract) + [] == Without(a, contract);
  }

  predicate Owns(t: seq<Entry>, contract: Name) {
    exists i | 0 <= i < |t| :: t[i].contract == contract
  }

  /** A table loses nothing exactly when the contract has no entry in it. */
  lemma {:induction false} WithoutSameIff(t: seq<Entry>, contract: Name)
    ensures Without(t, contract) == t <==> !Owns(t, contract)
    ensures Owns(t, contract) ==> |Without(t, contract)| < |t|
    decreases |t|
  {
    if t != [] {
      var front := t[..|t| - 1];
      WithoutSameIff(front, contract);
      assert t == front + [t[|t| - 1]];
      assert Owns(t, contract) <==> Owns(front, contract) || t[|t| - 1].contract == contract by {
        if Owns(front, contract) {
          var i :| 0 <= i < |front| && front[i].contract == contract;
          assert t[i].contract == contract;
        }
      }
    }
  }

  lemma {:induction false} WithoutMembers(t: seq<Entry>, contract: Name, e: Entry)
    ensures e in Without(t, contract) <==> e in t && e.contract != contract
    decreases |t|
  {
    if t != [] {
      WithoutMembers(t[..|t| - 1], contract, e);
      assert t == t[..|t| - 1] + [t[|t| - 1]];
    }
  }

  lemma {:induction false} WithoutSorted(t: seq<Entry>, contract: Name)
    requires Sorted(t)
    ensures Sorted(Without(t, contract))
    decreases |t|
  {
    if t != [] {
      var front := t[..|t| - 1];
      WithoutSorted(front, contract);
      forall i | 0 <= i < |Without(front, contract)|
        ensures Less(Without(front, contract)[i].mangled, t[|t| - 1].mangled)
      {
        var x := Without(front, contract)[i];
        WithoutMembers(front, contract, x);
        var k :| 0 <= k < |front| && front[k] == x;
      }
    }
  }

  // ---- one registration ----

  function ContractEntry(d: Desc): Entry {
    Entry(d.mangled, d.name, None, d.hash, d.version, 0)
  }

  /** The pledges that carry a mangled name. */
  function PledgeEntries(d: Desc, n: nat): seq<Entry>
    requires n <= |d.pledges|
  {
    if n == 0 then []
    else
      var p := d.pledges[n - 1];
      PledgeEntries(d, n - 1)
      + match p.mangled case None => [] case Some(m) => [Entry(m, d.name, Some(p.name), d.hash, d.version, p.nargs)]
  }

  function Entries(d: Desc): seq<Entry> {
    [ContractEntry(d)] + PledgeEntries(d, |d.pledges|)
  }

  function InsertedAll(t: seq<Entry>, es: seq<Entry>): seq<Entry> {
    if es == [] then t else Inserted(InsertedAll(t, es[..|es| - 1]), es[|es| - 1])
  }

  lemma {:induction false} EntriesOwned(d: Desc, n: nat)
    requires n <= |d.pledges|
    ensures forall e | e in PledgeEntries(d, n) :: e.contract == d.name
  {
    if n > 0 {
      EntriesOwned(d, n - 1);
    }
  }

  lemma {:induction false} RollbackLeaves(t: seq<Entry>, es: seq<Entry>, contract: Name)
    requires forall e | e in es :: e.contract == contract
    ensures Without(InsertedAll(t, es), contract) == Without(t, contract)
    decreases |es|
  {
    if es != [] {
      RollbackLeaves(t, es[..|es| - 1], contract);
      WithoutInserted(InsertedAll(t, es[..|es| - 1]), es[|es| - 1]);
    }
  }

  /** Rolling back whatever a registration got in restores the table exactly when no entry
      of the contract's was there before: what the name uniqueness check is for. */
  lemma RollbackRestoresIff(t: seq<Entry>, d: Desc, n: nat)
    requires n <= |d.pledges|
    ensures var es := [ContractEntry(d)] + PledgeEntries(d, n);
            Without(InsertedAll(t, es), d.name) == t <==> !Owns(t, d.name)
  {
    EntriesOwned(d, n);
    var es := [ContractEntry(d)] + PledgeEntries(d, n);
    RollbackLeaves(t, es, d.name);
    WithoutSameIff(t, d.name);
  }

  // ---- what a registration adds ----

  lemma {:induction false} InsertedMembers(t: seq<Entry>, es: seq<Entry>, e: Entry)
    ensures e in InsertedAll(t, es) <==> e in t || e in es
    decreases |es|
  {
    if es != [] {
      hide Place;
      var (less, last) := (InsertedAll(t, es[..|es| - 1]), es[|es| - 1]);
      InsertedMembers(t, es[..|es| - 1], e);
      var p := Place(less, last.mangled);
      assert less == less[..p] + less[p..];
      assert es == es[..|es| - 1] + [last];
    }
  }

  /** An entry of the contract itself. */
  predicate OfContract(e: Entry, d: Desc) {
    && e.mangled == d.mangled && e.contract == d.name && e.hash == d.hash && e.version == d.version
    && e.symbol == None && e.nargs == 0
  }

  /** An entry of one pledge of it. */
  predicate OfPledge(e: Entry, d: Desc, p: Pledge) {
    && p.mangled == Some(e.mangled) && e.contract == d.name && e.hash == d.hash && e.version == d.version
    && e.symbol == Some(p.name) && e.nargs == p.nargs
  }

  /** A registration adds the contract's entry and one for each pledge with a mangled name,
      each with the contract's hash and version, and nothing else; what was there stays. */
  lemma RegistersAll(t: seq<Entry>, d: Desc, e: Entry)
    ensures e in InsertedAll(t, Entries(d)) <==>
            e in t || OfContract(e, d) || exists p | p in d.pledges :: OfPledge(e, d, p)
  {
    InsertedMembers(t, Entries(d), e);
    EntriesAre(d, |d.pledges|, e);
    assert d.pledges[..|d.pledges|] == d.pledges;
  }

  lemma {:induction false} EntriesAre(d: Desc, n: nat, e: Entry)
    requires n <= |d.pledges|
    ensures e in PledgeEntries(d, n) <==> exists p | p in d.pledges[..n] :: OfPledge(e, d, p)
  {
    if n > 0 {
      EntriesAre(d, n - 1, e);
      assert d.pledges[..n] == d.pledges[..n - 1] + [d.pledges[n - 1]];
      var (p, now) := (d.pledges[n - 1], PledgeEntries(d, n));
      assert p in d.pledges[..n];
      if OfPledge(e, d, p) {
        assert e in now;
      }
      assert e in now ==> e in PledgeEntries(d, n - 1) || OfPledge(e, d, p);
    }
  }
}
