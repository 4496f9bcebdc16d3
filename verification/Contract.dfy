/** The instance as the runtime holds it: fields and arrays updated in place, each method
    doing to them what the episode functions say. */
module Contracts {
  import opened Basics
  import opened Values
  import opened Requirements
  import opened PolicyRuns
  import E = Episodes

  class Contract {
    const d: Desc
    const transactional: seq<bool>
    var life: Life
    const latches: array<Latch>
    const errs: array<Value>
    const txn: array<E.Txn>
    var conn: E.Conn
    var connected: bool
    ghost var written: seq<E.Write>
    ghost var committed: seq<nat>

    ghost predicate Valid() {
      && latches.Length == errs.Length == |d.subOf|
      && txn.Length == |d.subs| == |transactional|
    }

    ghost function State(): (x: E.Inst)
      requires Valid()
      reads this, latches, errs, txn
      ensures E.Shaped(x)
    {
      E.Inst(d, transactional, life, latches[..], errs[..], txn[..], conn, connected, written, committed)
    }

    /** geas_contract_sign, with or without a store bound. */
    constructor (d: Desc, transactional: seq<bool>, store: bool)
      requires |transactional| == |d.subs|
      ensures Valid() && fresh(latches) && fresh(errs) && fresh(txn)
      ensures State() == E.Sign(d, transactional, store)
    {
      this.d, this.transactional := d, transactional;
      life := Signed;
      latches := new Latch[|d.subOf|](_ => Pending);
      errs := new Value[|d.subOf|](_ => E.ZERO);
      txn := new E.Txn[|d.subs|](_ => E.Unopened);
      conn, connected := E.Conn([], None), store;
      written, committed := [], [];
      new;
      assert latches[..] == AllPending(|d.subOf|) && errs[..] == E.Zeros(|d.subOf|);
      assert txn[..] == E.Sign(d, transactional, store).txn;
    }

    method PledgeTxnSub(p: nat) returns (s: Option<nat>)
      requires Valid()
      ensures s == E.TxnSub(State(), p)
    {
      if p >= latches.Length {
        return None;
      }
      var sub := d.subOf[p];
      if sub < 0 || sub >= |d.subs| {
        return None;
      }
      return if transactional[sub] then Some(sub) else None;
    }

    method TxnBefore(p: nat, beginOk: bool) returns (st: Status)
      requires Valid()
      modifies `conn, txn
      ensures E.TxnBefore(old(State()), p, beginOk)
              == if st == OK then Ok(State()) else Err(st)
      ensures st != OK ==> State() == old(State())
    {
      var s := PledgeTxnSub(p);
      if s.None? || !connected {
        return OK;
      }
      match txn[s.value] {
        case Done => return ErrState;
        case Unopened =>
          var begun := E.Begin(conn, beginOk);
          if begun.None? {
            return ErrStore;
          }
          conn := begun.value;
          txn[s.value] := E.Open;
        case Open =>
      }
      return OK;
    }

    method LatchPledge(p: nat, out: Value)
      requires Valid()
      modifies latches, errs
      ensures State() == E.LatchPledge(old(State()), p, out)
    {
      if p >= latches.Length || latches[p] != Pending {
        return;
      }
      if out.Res? && out.tag == 1 {
        latches[p] := Failed;
        if out.box.Some? {
          errs[p] := out.box.value;
        }
      } else {
        latches[p] := Kept;
      }
    }

    method Judge()
      requires Valid()
      modifies `life
      ensures State() == E.Judge(old(State()))
    {
      life := EvalPolicy(d, life, latches[..]);
    }

    method TxnAfter(p: nat, st: Status, out: Value, commitOk: bool) returns (r: Status)
      requires Valid()
      modifies `conn, `committed, txn
      ensures (State(), r) == E.TxnAfter(old(State()), p, st, out, commitOk)
    {
      var s := PledgeTxnSub(p);
      if s.None? || !connected || txn[s.value] != E.Open {
        return st;
      }
      if st != OK || (out.Res? && out.tag == 1) {
        conn := E.Rollback(conn);
        txn[s.value] := E.Done;
        return st;
      }
      r := CommitIfComplete(s.value, st, commitOk);
    }

    method CommitIfComplete(s: nat, st: Status, commitOk: bool) returns (r: Status)
      requires Valid() && s < txn.Length
      modifies `conn, `committed, txn
      ensures (State(), r) == E.CommitIfComplete(old(State()), s, st, commitOk)
    {
      var complete := SubAllLoop(d, latches[..], s, Kept);
      if complete {
        txn[s] := E.Done;
        var after := E.Commit(conn, commitOk);
        if after.None? {
          conn := E.Rollback(conn);
          return ErrStore;
        }
        conn := after.value;
        committed := committed + [s];
      }
      return st;
    }

    method Write(id: int, ok: bool)
      requires Valid()
      modifies `conn, `written
      ensures State() == E.Store1(old(State()), id, ok)
    {
      if connected && ok {
        ghost var w := E.Write(id, E.OpenEpisode(State()));
        var episode := E.OpenAt(txn[..], txn.Length);
        conn := E.Put(conn, E.Write(id, episode));
        written := written + [w];
      }
    }

    /** run_task's critical section, and fulfill_inline's: the same walk. */
    method RunTask(call: E.Act) returns (st: Status)
      requires Valid() && call.Call?
      modifies `life, `conn, `written, `committed, latches, errs, txn
      ensures (State(), st) == E.Fulfil(old(State()), call)
      decreases call
    {
      hide E.TxnBefore, E.TxnAfter, E.LatchPledge, E.Judge;
      if !Takes(life) {
        return ErrState;
      }
      if call.p >= latches.Length {
        return ErrName;
      }
      var gate := TxnBefore(call.p, call.beginOk);
      if gate != OK {
        return gate;
      }
      RunBody(call.acts);
      if call.st == OK {
        LatchPledge(call.p, call.out);
        Judge();
      }
      st := TxnAfter(call.p, call.st, call.out, call.commitOk);
    }

    method RunBody(acts: seq<E.Act>)
      requires Valid()
      modifies `life, `conn, `written, `committed, latches, errs, txn
      ensures State() == E.Body(old(State()), acts)
      decreases acts
    {
      if acts != [] {
        match acts[0] {
          case Store(id, ok) => Write(id, ok);
          case Call(_, _, _, _, _, _) => var st := RunTask(acts[0]);
        }
        RunBody(acts[1..]);
      }
    }

    /** geas_contract_break, once no thunk holds the instance. */
    method Break() returns (st: Status)
      requires Valid()
      modifies `life, `conn, `connected, errs
      ensures State() == E.Break(old(State()))
      ensures st == if old(life) == Unsigned then ErrState else OK
    {
      if life == Unsigned {
        return ErrState;
      }
      for i := 0 to errs.Length
        modifies errs
        invariant forall j | 0 <= j < i :: errs[j] == E.ZERO
      {
        errs[i] := E.ZERO;
      }
      assert errs[..] == E.Zeros(errs.Length) && latches[..] == old(latches[..]) && txn[..] == old(txn[..]);
      conn := E.Rollback(conn);
      connected := false;
      life := Broken;
      st := OK;
    }
  }
}
