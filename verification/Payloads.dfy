/** What an instance reports: the latch and the payload of each pledge are those of its first
    outcome, a call's answer is its body's unless it was refused, and every write granted is
    on record. */
module Payloads {
  import opened Basics
  import opened Values
  import opened Requirements
  import opened PolicyRuns
  import opened Episodes
  import opened T = EpisodeTheorems
  import opened EpisodeEnds

  /** The first outcome of pledge p among these ends: a call that failed in its backend has
      none. */
  function First(ends: seq<Ending>, p: nat): Option<Value> {
    if ends == [] then None
    else
      var call := ends[0].call;
      if call.Call? && call.p == p && call.st == OK then Some(call.out) else First(ends[1..], p)
  }

  lemma {:induction false} FirstConcat(a: seq<Ending>, b: seq<Ending>, p: nat)
    ensures First(a + b, p) == if First(a, p).Some? then First(a, p) else First(b, p)
    decreases |a|
  {
    if a == [] {
      assert a + b == b;
    } else {
      assert (a + b)[1..] == a[1..] + b;
      FirstConcat(a[1..], b, p);
    }
  }

  /** What one outcome makes of a pending pledge; any other stays as it is. */
  function Told(l: Latch, payload: Value, first: Option<Value>): (Latch, Value) {
    if l != Pending then (l, payload)
    else
      match first
      case Some(Res(1, Some(v))) => (Failed, v)
      case Some(Res(1, None)) => (Failed, payload)
      case Some(_) => (Kept, payload)
      case None => (Pending, payload)
  }

  lemma ToldTwice(l: Latch, payload: Value, f: Option<Value>, g: Option<Value>)
    ensures var (l', payload') := Told(l, payload, f);
            Told(l', payload', g) == Told(l, payload, if f.Some? then f else g)
  {
  }

  predicate Tells(x: Inst, y: Inst, first: Option<Value>, p: nat) {
    && p < |x.latches| == |x.errs| && |y.latches| == |y.errs| == |x.latches|
    && (y.latches[p], y.errs[p]) == Told(x.latches[p], x.errs[p], first)
  }

  lemma TellsTwice(x: Inst, y: Inst, z: Inst, f: Option<Value>, g: Option<Value>, p: nat)
    requires Tells(x, y, f, p) && Tells(y, z, g, p)
    ensures Tells(x, z, if f.Some? then f else g, p)
  {
    ToldTwice(x.latches[p], x.errs[p], f, g);
  }

  lemma TxnKeepsReport(x: Inst, p: nat, ok: bool, st: Status, out: Value)
    requires Shaped(x)
    ensures TxnBefore(x, p, ok).Ok? ==>
              TxnBefore(x, p, ok).value.latches == x.latches && TxnBefore(x, p, ok).value.errs == x.errs
    ensures TxnAfter(x, p, st, out, ok).0.latches == x.latches && TxnAfter(x, p, st, out, ok).0.errs == x.errs
  {
  }

  lemma LatchTells(x: Inst, q: nat, out: Value, p: nat)
    requires Shaped(x) && p < |x.latches|
    ensures Tells(x, Judge(LatchPledge(x, q, out)), if q == p then Some(out) else None, p)
  {
  }

  lemma {:induction false} FulfilTells(x: Inst, call: Act, p: nat)
    requires Shaped(x) && call.Call? && p < |x.latches|
    ensures Tells(x, Fulfil(x, call).0, First(Ends(x, call), p), p)
    decreases call
  {
    hide TxnAfter, TxnBefore, Fulfil, LatchPledge, Judge, Told;
    FulfilIs(x, call);
    if Admitted(x, call) {
      TxnKeepsReport(x, call.p, call.beginOk, call.st, call.out);
      var x1 := TxnBefore(x, call.p, call.beginOk).value;
      BodyTells(x1, call.acts, p);
      var x2 := Body(x1, call.acts);
      BodyLater(x1, call.acts);
      LatchTells(x2, call.p, call.out, p);
      StaysTold(x2, p);
      var e := Ending(Closing(x1, call), call);
      var one := if call.st == OK && call.p == p then Some(call.out) else None;
      FirstOne(e, p);
      TellsTwice(x1, x2, e.x, First(BodyEnds(x1, call.acts), p), one, p);
      FirstConcat(BodyEnds(x1, call.acts), [e], p);
      TxnKeepsReport(e.x, call.p, call.commitOk, call.st, call.out);
    } else {
      StaysTold(x, p);
    }
  }

  lemma FirstOne(e: Ending, p: nat)
    requires e.call.Call?
    ensures First([e], p) == if e.call.st == OK && e.call.p == p then Some(e.call.out) else None
  {
    assert [e][1..] == [];
  }

  lemma StaysTold(x: Inst, p: nat)
    requires Shaped(x) && p < |x.latches|
    ensures Tells(x, x, None, p)
  {
  }

  lemma {:induction false} BodyTells(x: Inst, acts: seq<Act>, p: nat)
    requires Shaped(x) && p < |x.latches|
    ensures Tells(x, Body(x, acts), First(BodyEnds(x, acts), p), p)
    decreases acts
  {
    hide Fulfil, Ends, Told;
    StaysTold(x, p);
    if acts != [] {
      if acts[0].Store? {
        BodyTells(Store1(x, acts[0].id, acts[0].ok), acts[1..], p);
      } else {
        var y := Fulfil(x, acts[0]).0;
        FulfilTells(x, acts[0], p);
        BodyTells(y, acts[1..], p);
        TellsTwice(x, y, Body(y, acts[1..]), First(Ends(x, acts[0]), p), First(BodyEnds(y, acts[1..]), p), p);
        FirstConcat(Ends(x, acts[0]), BodyEnds(y, acts[1..]), p);
      }
    }
  }

  /** Over every run without an explicit break, nested calls included: a pledge's latch and
      payload are what the first outcome it had in the run makes of those it started with. */
  lemma {:induction false} RunTells(x: Inst, es: seq<T.Event>, p: nat)
    requires Shaped(x) && p < |x.latches| && Teardown !in es
    ensures Tells(x, Lives(x, es), First(RunEnds(x, es), p), p)
    decreases |es|
  {
    hide Fulfil, Ends, Told;
    StaysTold(x, p);
    if es != [] {
      var y := React(x, es[0]);
      var first := if es[0].call.Call? then Ends(x, es[0].call) else [];
      if es[0].call.Call? {
        FulfilTells(x, es[0].call, p);
      }
      RunTells(y, es[1..], p);
      TellsTwice(x, y, Lives(y, es[1..]), First(first, p), First(RunEnds(y, es[1..]), p), p);
      FirstConcat(first, RunEnds(y, es[1..]), p);
    }
  }

  /** For a signed instance: the payload of a failed pledge is the value its first outcome
      boxed, and that of any other the zero value. */
  lemma SignedTells(d: Desc, transactional: seq<bool>, connected: bool, es: seq<T.Event>, p: nat)
    requires |transactional| == |d.subs| && p < |d.subOf| && Teardown !in es
    ensures var x0 := Sign(d, transactional, connected);
            var (y, first) := (Lives(x0, es), First(RunEnds(x0, es), p));
            && |y.latches| == |y.errs| == |d.subOf|
            && (y.latches[p] == Pending <==> first.None?)
            && (y.latches[p] == Failed <==> first.Some? && first.value.Res? && first.value.tag == 1)
            && y.errs[p] == (if y.latches[p] == Failed && first.value.box.Some? then first.value.box.value else ZERO)
  {
    hide Lives, RunEnds;
    RunTells(Sign(d, transactional, connected), es, p);
  }

  /** An explicit break zeroes every payload, for good, and leaves the latches. */
  lemma {:induction false} TornTells(x: Inst, es: seq<T.Event>)
    requires Shaped(x) && x.life != Unsigned
    ensures var y := Lives(Break(x), es); y.latches == x.latches && y.errs == Zeros(|x.errs|)
    decreases |es|
  {
    hide Fulfil;
    TornStays(Break(x), es);
  }

  lemma {:induction false} TornStays(x: Inst, es: seq<T.Event>)
    requires Shaped(x) && x.life == Broken && x.errs == Zeros(|x.errs|)
    ensures var y := Lives(x, es); y.latches == x.latches && y.errs == x.errs
    decreases |es|
  {
    if es != [] {
      TornStays(React(x, es[0]), es[1..]);
    }
  }

  // ---- answers ----

  /** A call that did not run changed nothing and says why; one that ran answers its body's
      status, or ErrStore when it completed its episode and the commit was refused. */
  lemma AnswerIs(x: Inst, call: Act)
    requires Inv(x) && Shaped(x) && call.Call?
    ensures var ((y, st), ends) := (Fulfil(x, call), Ends(x, call));
            if ends == [] then
              && y == x
              && st == (if !Takes(x.life) then ErrState else if call.p >= |x.latches| then ErrName
                        else if TxnSub(x, call.p).Some? && x.txn[TxnSub(x, call.p).value] == Done then ErrState
                        else ErrStore)
            else
              var e := ends[|ends| - 1];
              && e.call == call
              && st == if !call.commitOk && !Failing(call) && EndsWhole(e) then ErrStore else call.st
  {
    hide Body, Policy, SubAll;
    if Admitted(x, call) {
      TxnBeforeKeeps(x, call.p, call.beginOk);
      var x1 := TxnBefore(x, call.p, call.beginOk).value;
      ShapeOf(x1);
      ClosingKeeps(x1, call);
      var e := Ending(Closing(x1, call), call);
      ShapeOf(e.x);
      var s := TxnSub(e.x, call.p);
      if s.Some? {
        EndBuffers(e, s.value);
      }
      AnswerAfter(e);
      hide TxnAfter, Closing;
    }
  }

  /** The call leaves its transactional subcontract complete with the episode open. */
  predicate EndsWhole(e: Ending) {
    && e.call.Call? && Shaped(e.x)
    && var s := TxnSub(e.x, e.call.p); s.Some? && OnOpen(e, s.value) && Complete(e.x, s.value)
  }

  lemma AnswerAfter(e: Ending)
    requires e.call.Call? && Shaped(e.x)
    requires forall s | TxnSub(e.x, e.call.p) == Some(s) && OnOpen(e, s) :: e.x.conn.buffer.Some?
    ensures TxnAfter(e.x, e.call.p, e.call.st, e.call.out, e.call.commitOk).1 ==
            if !e.call.commitOk && !Failing(e.call) && EndsWhole(e) then ErrStore else e.call.st
  {
    hide SubAll;
  }

  // ---- writes ----

  function Ids(ws: seq<Write>): seq<int> {
    seq(|ws|, i requires 0 <= i < |ws| => ws[i].id)
  }

  /** The writes the backend granted, in the order they were made, by bodies that ran. */
  function Granted(x: Inst, call: Act): seq<int>
    requires Shaped(x) && call.Call?
    decreases call
  {
    if !Admitted(x, call) then []
    else BodyGranted(TxnBefore(x, call.p, call.beginOk).value, call.acts)
  }

  function BodyGranted(x: Inst, acts: seq<Act>): seq<int>
    requires Shaped(x)
    decreases acts
  {
    if acts == [] then []
    else
      match acts[0]
      case Store(id, ok) => (if ok then [id] else []) + BodyGranted(Store1(x, id, ok), acts[1..])
      case Call(_, _, _, _, _, _) => Granted(x, acts[0]) + BodyGranted(Fulfil(x, acts[0]).0, acts[1..])
  }

  function RunGranted(x: Inst, es: seq<T.Event>): seq<int>
    requires Shaped(x)
    decreases |es|
  {
    if es == [] then []
    else
      (if es[0].Fulfilment? && es[0].call.Call? then Granted(x, es[0].call) else [])
      + RunGranted(React(x, es[0]), es[1..])
  }

  lemma IdsConcat(a: seq<Write>, w: Write)
    ensures Ids(a + [w]) == Ids(a) + [w.id]
  {
  }

  lemma StoreRecords(x: Inst, id: int, ok: bool)
    requires x.connected
    ensures var y := Store1(x, id, ok); y.connected && Ids(y.written) == Ids(x.written) + if ok then [id] else []
  {
    IdsConcat(x.written, Write(id, OpenEpisode(x)));
  }

  lemma TxnKeepsWritten(x: Inst, p: nat, ok: bool, st: Status, out: Value)
    requires Shaped(x)
    ensures TxnBefore(x, p, ok).Ok? ==>
              TxnBefore(x, p, ok).value.written == x.written && TxnBefore(x, p, ok).value.connected == x.connected
    ensures TxnAfter(x, p, st, out, ok).0.written == x.written && TxnAfter(x, p, st, out, ok).0.connected == x.connected
    ensures Judge(LatchPledge(x, p, out)).written == x.written && Judge(LatchPledge(x, p, out)).connected == x.connected
  {
  }

  lemma {:induction false} FulfilRecords(x: Inst, call: Act)
    requires Shaped(x) && call.Call? && x.connected
    ensures var y := Fulfil(x, call).0; y.connected && Ids(y.written) == Ids(x.written) + Granted(x, call)
    decreases call
  {
    hide TxnAfter, TxnBefore, Fulfil, LatchPledge, Judge, Ids;
    FulfilIs(x, call);
    if Admitted(x, call) {
      TxnKeepsWritten(x, call.p, call.beginOk, call.st, call.out);
      var x1 := TxnBefore(x, call.p, call.beginOk).value;
      BodyRecords(x1, call.acts);
      TxnKeepsWritten(Body(x1, call.acts), call.p, call.commitOk, call.st, call.out);
      TxnKeepsWritten(Closing(x1, call), call.p, call.commitOk, call.st, call.out);
    }
  }

  lemma {:induction false} BodyRecords(x: Inst, acts: seq<Act>)
    requires Shaped(x) && x.connected
    ensures var y := Body(x, acts); y.connected && Ids(y.written) == Ids(x.written) + BodyGranted(x, acts)
    decreases acts
  {
    hide Fulfil, Ids, Granted;
    if acts != [] {
      if acts[0].Store? {
        StoreRecords(x, acts[0].id, acts[0].ok);
        BodyRecords(Store1(x, acts[0].id, acts[0].ok), acts[1..]);
      } else {
        FulfilRecords(x, acts[0]);
        BodyRecords(Fulfil(x, acts[0]).0, acts[1..]);
      }
    }
  }

  /** Over every run of a connected instance without an explicit break, the record holds
      every write granted, each once and in order: with AllOrNothing, what became of it. */
  lemma {:induction false} RunRecords(x: Inst, es: seq<T.Event>)
    requires Shaped(x) && x.connected && Teardown !in es
    ensures Ids(Lives(x, es).written) == Ids(x.written) + RunGranted(x, es)
    decreases |es|
  {
    hide Fulfil, Ids, Granted;
    if es != [] {
      if es[0].call.Call? {
        FulfilRecords(x, es[0].call);
      }
      RunRecords(React(x, es[0]), es[1..]);
    }
  }
}
