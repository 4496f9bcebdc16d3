/** The bridge's session table: server issued ids, and a removal only its first caller
    wins. Each method is one critical section under the table's lock. */
module InstanceTables {
  import opened Basics
  import opened Bridge

  class InstanceTable {
    var nextId: nat
    var live: map<nat, Session>

    ghost predicate Valid()
      reads this
    {
      nextId >= 1 && forall id | id in live :: 1 <= id < nextId
    }

    /** The table as one server's part of the protocol. */
    ghost function On(w: World, r: Rid): World
      reads this
    {
      With(w, r, Rep(w, r).(live := live, nextId := nextId))
    }

    constructor ()
      ensures Valid() && nextId == FRESH.nextId && live == FRESH.live
    {
      nextId, live := 1, map[];
    }

    /** An id no entry has ever had. */
    method Insert(s: Session) returns (id: nat)
      requires Valid()
      modifies this
      ensures Valid() && id == old(nextId) && nextId == id + 1
      ensures id !in old(live) && live == old(live)[id := s]
    {
      id := nextId;
      nextId := nextId + 1;
      live := live[id := s];
    }

    method Get(id: nat) returns (s: Option<Session>)
      ensures s == if id in live then Some(live[id]) else None
    {
      s := if id in live then Some(live[id]) else None;
    }

    /** dict.pop: the entry, to its first caller; the pop of the protocol exactly when it
        answers one. */
    method Remove(id: nat) returns (s: Option<Session>)
      requires Valid()
      modifies `live
      ensures Valid()
      ensures s == (if id in old(live) then Some(old(live)[id]) else None) && live == old(live) - {id}
      ensures forall w: World, r: Rid ::
                (DoPop(old(On(w, r)), r, id).Some? <==> s.Some?)
                && (s.Some? ==> Rep(DoPop(old(On(w, r)), r, id).value, r).live == live)
    {
      s := if id in live then Some(live[id]) else None;
      live := live - {id};
    }

    method Count() returns (n: nat)
      ensures n == |live|
    {
      n := |live|;
    }

    /** Every entry, once, and an empty table. */
    method Drain() returns (out: seq<(nat, Session)>)
      modifies `live
      ensures live == map[]
      ensures |out| == |old(live)|
      ensures forall id | id in old(live) :: (id, old(live)[id]) in out
      ensures forall e | e in out :: e.0 in old(live) && old(live)[e.0] == e.1
    {
      out := [];
      var left := live.Keys;
      while left != {}
        invariant left <= live.Keys && |out| + |left| == |live.Keys|
        invariant forall id | id in live && id !in left :: (id, live[id]) in out
        invariant forall e | e in out :: e.0 in live && live[e.0] == e.1
        decreases |left|
      {
        var id :| id in left;
        out := out + [(id, live[id])];
        left := left - {id};
      }
      live := map[];
    }
  }
}
