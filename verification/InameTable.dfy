/** The name registry as the runtime holds it: a sorted array moved and compacted in
    place, beside the list of registered contracts. */
module InameTables {
  import opened Basics
  import opened Inames

  /** Every entry a registration adds is new where it goes in. */
  ghost predicate AllNew(t: seq<Entry>, es: seq<Entry>) {
    forall k | 0 <= k < |es| :: !Names(InsertedAll(t, es[..k]), es[k].mangled)
  }

  ghost predicate Registered(descs: seq<Desc>, contract: Name) {
    exists i | 0 <= i < |descs| :: descs[i].name == contract
  }

  class Registry {
    var inames: array<Entry>
    var n: nat
    var descs: seq<Desc>
    var frozen: bool

    ghost function Table(): seq<Entry>
      requires n <= inames.Length
      reads this, inames
    {
      inames[..n]
    }

    /** The array holds a strictly sorted table. */
    ghost predicate Valid()
      reads this, inames
    {
      n <= inames.Length && Sorted(Table())
    }

    /** No two contracts share a name, and every entry is some registered contract's. */
    ghost predicate Owned()
      requires n <= inames.Length
      reads this, inames
    {
      && (forall i, j | 0 <= i < j < |descs| :: descs[i].name != descs[j].name)
      && (forall k | 0 <= k < n :: Registered(descs, inames[k].contract))
    }

    constructor ()
      ensures Valid() && Table() == [] && Owned() && descs == [] && !frozen && fresh(inames)
    {
      inames := new Entry[0];
      n, descs, frozen := 0, [], false;
    }

    /** strcmp, byte by byte. */
    method Compare(a: Name, b: Name) returns (c: int)
      ensures c == StrCmp(a, b)
    {
      var i := 0;
      while i < |a| && i < |b| && a[i] == b[i]
        invariant i <= |a| && i <= |b|
        invariant StrCmp(a, b) == StrCmp(a[i..], b[i..])
      {
        assert a[i..][1..] == a[i + 1..] && b[i..][1..] == b[i + 1..];
        i := i + 1;
      }
      if i < |a| && i < |b| {
        var x: int, y: int := a[i], b[i];
        c := x - y;
      } else {
        c := if i < |a| then 1 else if i < |b| then -1 else 0;
      }
    }

    /** Halves the table down to m or to where it would go. */
    method Find(m: Name) returns (found: bool, pos: nat)
      requires Valid()
      ensures found <==> Names(Table(), m)
      ensures found ==> pos < n && inames[pos].mangled == m
      ensures !found ==> SplitsAt(Table(), m, pos)
    {
      var lo, hi := 0, n;
      while lo < hi
        invariant 0 <= lo <= hi <= n
        invariant forall i | 0 <= i < lo :: Less(Table()[i].mangled, m)
        invariant forall i | hi <= i < n :: Less(m, Table()[i].mangled)
      {
        var mid := lo + (hi - lo) / 2;
        var cmp := Compare(inames[mid].mangled, m);
        StrCmpFlips(inames[mid].mangled, m);
        StrCmpFlips(m, inames[mid].mangled);
        if cmp == 0 {
          assert Table()[mid].mangled == m;
          return true, mid;
        }
        if cmp < 0 {
          Lower(mid, m);
          lo := mid + 1;
        } else {
          Higher(mid, m);
          hi := mid;
        }
      }
      PlaceIs(Table(), m, lo);
      return false, lo;
    }

    lemma Lower(mid: nat, m: Name)
      requires Valid() && mid < n && Less(inames[mid].mangled, m)
      ensures forall i | 0 <= i <= mid :: Less(Table()[i].mangled, m)
    {
      forall i | 0 <= i < mid ensures Less(Table()[i].mangled, m) {
        LessTrans(Table()[i].mangled, Table()[mid].mangled, m);
      }
    }

    lemma Higher(mid: nat, m: Name)
      requires Valid() && mid < n && Less(m, inames[mid].mangled)
      ensures forall i | mid <= i < n :: Less(m, Table()[i].mangled)
    {
      forall i | mid < i < n ensures Less(m, Table()[i].mangled) {
        LessTrans(m, Table()[mid].mangled, Table()[i].mangled);
      }
    }

    /** Doubles the array, or starts it at 16; the entries stay. */
    method Grow()
      requires n <= inames.Length
      modifies `inames
      ensures fresh(inames) && inames.Length == (if old(inames.Length) == 0 then 16 else 2 * old(inames.Length))
      ensures n <= inames.Length && Table() == old(Table())
    {
      var cap := if inames.Length == 0 then 16 else inames.Length * 2;
      var grown := new Entry[cap];
      for i := 0 to n
        modifies grown
        invariant grown[..i] == inames[..i]
      {
        grown[i] := inames[i];
      }
      inames := grown;
    }

    /** memmove of the tail one slot up, then the entry in the gap. */
    method ShiftIn(pos: nat, e: Entry)
      requires pos <= n < inames.Length
      modifies inames, `n
      ensures n == old(n) + 1 && n <= inames.Length
      ensures Table() == old(Table())[..pos] + [e] + old(Table())[pos..]
    {
      ghost var t := Table();
      var j := n;
      while j > pos
        modifies inames
        invariant pos <= j <= n
        invariant forall k | 0 <= k < j :: inames[k] == t[k]
        invariant forall k | j <= k < n :: inames[k + 1] == t[k]
      {
        inames[j] := inames[j - 1];
        j := j - 1;
      }
      inames[pos] := e;
      n := n + 1;
      Shifted(t, Table(), pos, e);
    }

    static lemma Shifted(t: seq<Entry>, a: seq<Entry>, pos: nat, e: Entry)
      requires pos <= |t| && |a| == |t| + 1 && a[pos] == e
      requires (forall k | 0 <= k < pos :: a[k] == t[k]) && (forall k | pos <= k < |t| :: a[k + 1] == t[k])
      ensures a == t[..pos] + [e] + t[pos..]
    {
      assert a[pos + 1..] == t[pos..];
    }

    /** iname_insert; `grows` says whether a needed reallocation succeeds. */
    method Insert(e: Entry, grows: bool) returns (st: Status)
      requires Valid()
      modifies this`inames, this`n, inames
      ensures Valid() && (fresh(inames) || inames == old(inames))
      ensures st == if Names(old(Table()), e.mangled) then ErrName
                    else if old(n == inames.Length) && !grows then ErrOom else OK
      ensures Table() == if st == OK then Inserted(old(Table()), e) else old(Table())
    {
      var found, pos := Find(e.mangled);
      if found {
        return ErrName;
      }
      InsertedSorted(Table(), e, pos);
      if n == inames.Length {
        if !grows {
          return ErrOom;
        }
        Grow();
      }
      ShiftIn(pos, e);
      st := OK;
    }

    /** Compacts the table over one contract's entries. */
    method RemoveContract(contract: Name)
      requires Valid()
      modifies inames, `n
      ensures Valid() && Table() == Without(old(Table()), contract)
    {
      hide Without, Sorted;
      ghost var t := Table();
      WithoutSorted(t, contract);
      WithoutNone(t, contract);
      var w := 0;
      for r := 0 to n
        modifies inames
        invariant w <= r && inames[..w] == Without(t[..r], contract)
        invariant forall k | r <= k < n :: inames[k] == t[k]
      {
        WithoutNext(t, r, contract);
        if inames[r].contract != contract {
          inames[w] := inames[r];
          w := w + 1;
          assert inames[..w] == inames[..w - 1] + [t[r]];
        }
      }
      assert t[..n] == t;
      n := w;
    }

    static lemma WithoutNone(t: seq<Entry>, contract: Name)
      ensures Without(t[..0], contract) == []
    {
    }

    static lemma WithoutNext(t: seq<Entry>, r: nat, contract: Name)
      requires r < |t|
      ensures Without(t[..r + 1], contract)
              == Without(t[..r], contract) + if t[r].contract == contract then [] else [t[r]]
    {
      assert t[..r + 1][..r] == t[..r];
    }

    /** iname_register: the contract's entry, then its pledges', or none of them. */
    method RegisterNames(d: Desc, grows: seq<bool>) returns (st: Status)
      requires Valid() && !Owns(Table(), d.name) && |grows| == 1 + |d.pledges|
      modifies this`inames, this`n, inames
      ensures Valid() && (fresh(inames) || inames == old(inames))
      ensures Table() == if st == OK then InsertedAll(old(Table()), Entries(d)) else old(Table())
      ensures st == OK ==> AllNew(old(Table()), Entries(d))
      ensures (forall g | g in grows :: g) ==> (st == OK <==> AllNew(old(Table()), Entries(d)))
      ensures st in {OK, ErrName, ErrOom}
    {
      hide Inserted, Without, Sorted, AllNew, Place;
      ghost var t := Table();
      ghost var es := [];
      FirstIn(d, t);
      assert grows[0] in grows;
      st := Insert(ContractEntry(d), grows[0]);
      if st != OK {
        return;
      }
      es := [ContractEntry(d)];
      for i := 0 to |d.pledges|
        invariant Valid() && (fresh(inames) || inames == old(inames))
        invariant es == [ContractEntry(d)] + PledgeEntries(d, i)
        invariant Table() == InsertedAll(t, es)
        invariant AllNew(t, es)
      {
        var p := d.pledges[i];
        if p.mangled.None? {
          continue;
        }
        var e := Entry(p.mangled.value, d.name, Some(p.name), d.hash, d.version, p.nargs);
        StepsIn(d, i, es, e, t);
        assert grows[i + 1] in grows;
        st := Insert(e, grows[i + 1]);
        if st != OK {
          RemoveContract(d.name);
          RollbackRestoresIff(t, d, i);
          return;
        }
        es := es + [e];
      }
      st := OK;
    }

    static lemma FirstIn(d: Desc, t: seq<Entry>)
      ensures InsertedAll(t, [ContractEntry(d)]) == Inserted(t, ContractEntry(d))
      ensures if Names(t, ContractEntry(d).mangled) then !AllNew(t, Entries(d)) else AllNew(t, [ContractEntry(d)])
    {
      var one := [ContractEntry(d)];
      assert one[..0] == [] && Entries(d)[..0] == [];
      assert Entries(d)[0] == ContractEntry(d);
    }

    /** The next pledge's entry is the next of the registration's. */
    static lemma StepsIn(d: Desc, i: nat, es: seq<Entry>, e: Entry, t: seq<Entry>)
      requires i < |d.pledges| && es == [ContractEntry(d)] + PledgeEntries(d, i)
      requires d.pledges[i].mangled.Some?
      requires e == Entry(d.pledges[i].mangled.value, d.name, Some(d.pledges[i].name), d.hash, d.version,
        d.pledges[i].nargs)
      requires AllNew(t, es)
      ensures es + [e] == [ContractEntry(d)] + PledgeEntries(d, i + 1)
      ensures InsertedAll(t, es + [e]) == Inserted(InsertedAll(t, es), e)
      ensures if Names(InsertedAll(t, es), e.mangled) then !AllNew(t, Entries(d)) else AllNew(t, es + [e])
    {
      hide Inserted, Names;
      PledgesGrow(d, i + 1, |d.pledges|);
      assert es + [e] <= Entries(d);
      assert Entries(d)[..|es|] == es && Entries(d)[|es|] == e;
      OneMore(t, es, e);
    }

    static lemma OneMore(t: seq<Entry>, es: seq<Entry>, e: Entry)
      requires AllNew(t, es)
      ensures InsertedAll(t, es + [e]) == Inserted(InsertedAll(t, es), e)
      ensures AllNew(t, es + [e]) <==> !Names(InsertedAll(t, es), e.mangled)
    {
      hide Inserted, Names;
      var more := es + [e];
      assert more[..|es|] == es && more[|es|] == e;
      assert forall k | 0 <= k < |es| :: more[..k] == es[..k] && more[k] == es[k];
    }

    static lemma {:induction false} PledgesGrow(d: Desc, i: nat, n: nat)
      requires i <= n <= |d.pledges|
      ensures PledgeEntries(d, i) <= PledgeEntries(d, n)
    {
      if i < n {
        PledgesGrow(d, i, n - 1);
      }
    }

    /** geas_register_contract: all of it, or nothing at all. */
    method Register(d: Desc, grows: seq<bool>) returns (st: Status)
      requires Valid() && Owned() && |grows| == 1 + |d.pledges|
      modifies this`inames, this`n, this`descs, inames
      ensures Valid() && Owned()
      ensures st == OK ==> descs == old(descs) + [d] && Table() == InsertedAll(old(Table()), Entries(d))
      ensures st != OK ==> descs == old(descs) && Table() == old(Table())
      ensures frozen ==> st == ErrState
      ensures st == OK ==> !Registered(old(descs), d.name)
      ensures (&& !frozen && |old(descs)| < MAX_CONTRACT_TYPES && !Registered(old(descs), d.name)
               && forall g | g in grows :: g)
              ==> (st == OK <==> AllNew(old(Table()), Entries(d)))
    {
      hide InsertedAll, AllNew, Sorted, Entries;
      if frozen {
        return ErrState;
      }
      if |descs| == MAX_CONTRACT_TYPES {
        return ErrOom;
      }
      for i := 0 to |descs|
        invariant forall j | 0 <= j < i :: descs[j].name != d.name
      {
        if descs[i].name == d.name {
          return ErrName;
        }
      }
      NotOwned(d.name);
      ghost var t := Table();
      st := RegisterNames(d, grows);
      if st == OK {
        descs := descs + [d];
        StillOwned(old(descs), t, d);
      }
    }

    lemma NotOwned(contract: Name)
      requires n <= inames.Length && Owned() && !Registered(descs, contract)
      ensures !Owns(Table(), contract)
    {
    }

    lemma StillOwned(before: seq<Desc>, t: seq<Entry>, d: Desc)
      requires n <= inames.Length && descs == before + [d] && Table() == InsertedAll(t, Entries(d))
      requires forall e | e in t :: Registered(before, e.contract)
      requires (forall i, j | 0 <= i < j < |before| :: before[i].name != before[j].name) && !Registered(before, d.name)
      ensures Owned()
    {
      EntriesOwned(d, |d.pledges|);
      forall k | 0 <= k < n ensures Registered(descs, inames[k].contract) {
        var e := Table()[k];
        InsertedMembers(t, Entries(d), e);
        if e in t {
          var i :| 0 <= i < |before| && before[i].name == e.contract;
          assert descs[i].name == e.contract;
        } else {
          assert descs[|before|].name == e.contract;
        }
      }
    }
  }
}
