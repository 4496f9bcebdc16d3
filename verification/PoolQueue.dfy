/** The structures the protocol runs on, updated in place: one future's fields, the pool's
    intrusive queue and an instance's intrusive list of futures. */
module PoolQueue {
  import opened Basics
  import F = Futures

  class GeasFuture {
    var done: bool
    var waited: bool
    var status: Status
    var value: int
    var pointers: bool
    var hasRefs: bool
    /** Whether the body left every ref slot its declared type. */
    var slotsOk: bool
    var refcnt: nat
    var next: GeasFuture?
    var qnext: GeasFuture?
    /** What no field holds: who made it, who holds it, and its history. */
    ghost var rest: F.Fut

    /** The future of the step system these fields stand for. */
    ghost function Model(): F.Fut
      reads `done, `waited, `status, `value, `pointers, `hasRefs, `slotsOk, `refcnt, `rest
    {
      rest.(out := F.Outcome(done, waited, status, value, rest.out.pub, rest.out.deliveries),
            hold := rest.hold.(refcnt := refcnt), pointers := pointers, hasRefs := hasRefs, slotsOk := slotsOk)
    }

    constructor (ghost c: F.Iid, ghost sync: bool, ghost maker: F.Tid)
      ensures Model() == F.Fresh(c, sync, maker) && next == null && qnext == null
    {
      done, waited, status, value := false, false, OK, 0;
      pointers, hasRefs, slotsOk := false, false, true;
      refcnt := 1;
      next, qnext := null, null;
      rest := F.Fresh(c, sync, maker);
    }

    method Finish(st: Status, val: Option<int>)
      modifies this`done, this`status, this`value, this`rest
      ensures Model() == F.Finish(old(Model()), st, if val.Some? then val.value else old(value))
    {
      if !done {
        status := st;
        if val.Some? {
          value := val.value;
        }
        done := true;
        rest := rest.(out := rest.out.(pub := Some(F.Published(status, value))));
      }
    }

    method Forfeit()
      modifies this`done, this`status, this`value, this`pointers, this`hasRefs
      ensures Model() == F.Forfeit(old(Model()))
    {
      if !waited {
        status := ErrState;
        value := 0;
        pointers := false;
        hasRefs := false;
        done := true;
      }
    }

    /** geas_future_wait past its condition variable: the first wait takes the outcome,
        with a write back when there are slots to write; every later one is refused. */
    method Deliver() returns (st: Status, out: Option<int>, took: bool)
      requires done
      modifies this`waited, this`rest
      ensures Model() == if old(waited) then old(Model()) else F.Take(old(Model()))
      ensures (st, out, took) ==
              if old(waited) then (ErrState, None, false)
              else if status == OK && hasRefs && pointers && !slotsOk then (ErrType, None, true)
              else (status, Some(value), true)
    {
      if waited {
        return ErrState, None, false;
      }
      waited := true;
      rest := rest.(out := rest.out.(deliveries := rest.out.deliveries + 1));
      took := true;
      if status == OK && hasRefs && pointers {
        if !slotsOk {
          return ErrType, None, true;
        }
      }
      st, out := status, Some(value);
    }

    /** Tells whether the struct is to be freed. */
    method Unref() returns (last: bool)
      requires refcnt > 0
      modifies this`refcnt, this`rest
      ensures Model() == old(Model()).(hold := F.Unref(old(Model()).hold))
      ensures last <==> Model().hold.frees == old(Model()).hold.frees + 1
    {
      refcnt := refcnt - 1;
      last := refcnt == 0;
      rest := rest.(hold := rest.hold.(frees := rest.hold.frees + (if last then 1 else 0)));
    }

    method Free()
      modifies this`refcnt, this`rest
      ensures Model() == old(Model()).(hold := F.Reap(old(Model()).hold))
    {
      refcnt := 0;
      rest := rest.(hold := rest.hold.(rcpt := F.Gone, frees := rest.hold.frees + 1));
    }
  }

  ghost predicate Distinct(items: seq<GeasFuture>) {
    forall i, j | 0 <= i < j < |items| :: items[i] != items[j]
  }

  /** The queue the workers drain, first in first out. */
  class Pool {
    var qhead: GeasFuture?
    var qtail: GeasFuture?
    ghost var items: seq<GeasFuture>

    ghost predicate Valid()
      reads this, items`qnext
    {
      && Distinct(items)
      && (if items == [] then qhead == null && qtail == null
          else qhead == items[0] && qtail == items[|items| - 1] && items[|items| - 1].qnext == null)
      && forall i | 0 <= i < |items| - 1 :: items[i].qnext == items[i + 1]
    }

    constructor ()
      ensures Valid() && items == []
    {
      qhead, qtail, items := null, null, [];
    }

    method Enqueue(f: GeasFuture)
      requires Valid() && f !in items
      modifies this, f`qnext, items`qnext
      ensures Valid() && items == old(items) + [f]
    {
      f.qnext := null;
      if qtail != null {
        qtail.qnext := f;
      } else {
        qhead := f;
      }
      qtail := f;
      items := items + [f];
    }

    method Dequeue() returns (f: GeasFuture?)
      requires Valid()
      modifies this
      ensures Valid()
      ensures if old(items) == [] then f == null && items == [] else f == old(items)[0] && items == old(items)[1..]
    {
      f := qhead;
      if f != null {
        qhead := f.qnext;
        if qhead == null {
          qtail := null;
        }
        items := items[1..];
      }
    }
  }

  function Without<T(==)>(s: seq<T>, x: T): (r: seq<T>)
    ensures x !in r && forall k | 0 <= k < |s| && s[k] != x :: s[k] in r
  {
    if s == [] then [] else if s[0] == x then Without(s[1..], x) else [s[0]] + Without(s[1..], x)
  }

  lemma {:induction false} WithoutAt<T>(s: seq<T>, k: nat)
    requires k < |s| && (forall i, j | 0 <= i < j < |s| :: s[i] != s[j])
    ensures Without(s, s[k]) == s[..k] + s[k + 1..]
  {
    if k == 0 {
      WithoutAbsent(s[1..], s[0]);
    } else {
      WithoutAt(s[1..], k - 1);
      assert s[..k] + s[k + 1..] == [s[0]] + (s[1..][..k - 1] + s[1..][k..]);
    }
  }

  lemma {:induction false} WithoutAbsent<T>(s: seq<T>, x: T)
    requires x !in s
    ensures Without(s, x) == s
  {
    if s != [] {
      WithoutAbsent(s[1..], x);
    }
  }

  lemma CutAt(s: seq<GeasFuture>, k: nat) returns (r: seq<GeasFuture>)
    requires k < |s| && Distinct(s)
    ensures r == Without(s, s[k]) && Distinct(r) && |r| == |s| - 1
    ensures forall i {:trigger r[i]} | 0 <= i < |r| :: r[i] == (if i < k then s[i] else s[i + 1])
    ensures k > 0 ==> forall i {:trigger r[i]} | 0 <= i < |r| && i != k - 1 :: r[i] != s[k - 1]
  {
    WithoutAt(s, k);
    r := s[..k] + s[k + 1..];
  }

  /** The futures of one instance, newest first. */
  class FutureList {
    var head: GeasFuture?
    ghost var items: seq<GeasFuture>

    ghost predicate Valid()
      reads `head, `items, items`next
    {
      && Distinct(items)
      && (if items == [] then head == null else head == items[0] && items[|items| - 1].next == null)
      && forall i {:trigger items[i].next} | 0 <= i < |items| - 1 :: items[i].next == items[i + 1]
    }

    constructor ()
      ensures Valid() && items == []
    {
      head, items := null, [];
    }

    method Link(f: GeasFuture)
      requires Valid() && f !in items
      modifies this, f`next
      ensures Valid() && items == [f] + old(items)
    {
      ghost var was := items;
      f.next := head;
      head := f;
      items := [f] + items;
      assert items[1..] == was;
    }

    /** The walk to f: where it is, or past the end, and what points there. */
    method Locate(f: GeasFuture) returns (prev: GeasFuture?, p: GeasFuture?, ghost k: nat)
      requires Valid()
      ensures k <= |items| && f !in items[..k]
      ensures p == (if k < |items| then items[k] else null) && (p == null || p == f)
      ensures prev == (if k == 0 then null else items[k - 1])
    {
      prev, p, k := null, head, 0;
      while p != null && p != f
        invariant 0 <= k <= |items|
        invariant p == (if k < |items| then items[k] else null)
        invariant prev == (if k == 0 then null else items[k - 1])
        invariant f !in items[..k]
        decreases |items| - k
      {
        prev := p;
        p := p.next;
        k := k + 1;
      }
    }

    /** Off the list, wherever it is; a future not on it changes nothing. */
    method Unlink(f: GeasFuture)
      requires Valid()
      modifies `head, `items, items`next
      ensures Valid() && items == Without(old(items), f)
    {
      hide Without, Distinct;
      var prev, p, k := Locate(f);
      if p == null {
        assert items[..k] == items;
        WithoutAbsent(items, f);
      } else {
        ghost var left := CutAt(items, k);
        if prev == null {
          head := p.next;
        } else {
          prev.next := p.next;
        }
        items := left;
      }
    }

    /** Break's walk: every future on the list is forfeited, and no other. */
    method ForfeitAll()
      requires Valid()
      modifies items`done, items`status, items`value, items`pointers, items`hasRefs
      ensures Valid()
      ensures forall f | f in items :: f.Model() == F.Forfeit(old(f.Model()))
    {
      hide GeasFuture.Model;
      var f := head;
      ghost var k := 0;
      while f != null
        invariant Valid() && 0 <= k <= |items|
        invariant f == (if k < |items| then items[k] else null)
        invariant forall i | 0 <= i < k :: items[i].Model() == F.Forfeit(old(items[i].Model()))
        invariant forall i | k <= i < |items| :: items[i].Model() == old(items[i].Model())
        decreases |items| - k
      {
        assert forall i | 0 <= i < |items| && i != k :: items[i] != f;
        f.Forfeit();
        f := f.next;
        k := k + 1;
      }
    }

    /** Shutdown's walk: each future still linked is freed once more, whatever its count. */
    method FreeAll()
      requires Valid()
      modifies items`refcnt, items`rest
      ensures forall f | f in items :: f.Model() == old(f.Model()).(hold := F.Reap(old(f.Model()).hold))
    {
      hide GeasFuture.Model;
      var f := head;
      ghost var k := 0;
      while f != null
        invariant Valid() && 0 <= k <= |items|
        invariant f == (if k < |items| then items[k] else null)
        invariant forall i | 0 <= i < k ::
                    items[i].Model() == old(items[i].Model()).(hold := F.Reap(old(items[i].Model()).hold))
        invariant forall i | k <= i < |items| :: items[i].Model() == old(items[i].Model())
        decreases |items| - k
      {
        assert forall i | 0 <= i < |items| && i != k :: items[i] != f;
        var next := f.next;
        assert next == (if k + 1 < |items| then items[k + 1] else null);
        f.Free();
        f := next;
        k := k + 1;
      }
    }
  }
}
