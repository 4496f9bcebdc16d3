/** How episodes end: a complete subcontract commits exactly when none of its calls failed
    under the open transaction and its commit was granted; and which policies let a commit
    land in an instance they have already broken. */
module EpisodeEnds {
  import opened Basics
  import opened Values
  import opened Requirements
  import opened PolicyRuns
  import opened Episodes
  import opened T = EpisodeTheorems

  // ---- the ends of calls ----

  /** A call that ran, about to settle its transaction: its body is over, its outcome
      latched and judged. */
  datatype Ending = Ending(x: Inst, call: Act)

  function Closing(x1: Inst, call: Act): (x3: Inst)
    requires Shaped(x1) && call.Call?
    ensures Shaped(x3) && x3.d == x1.d
  {
    var x2 := Body(x1, call.acts);
    if call.st == OK then Judge(LatchPledge(x2, call.p, call.out)) else x2
  }

  predicate Admitted(x: Inst, call: Act)
    requires Shaped(x) && call.Call?
  {
    Takes(x.life) && call.p < |x.latches| && TxnBefore(x, call.p, call.beginOk).Ok?
  }

  lemma FulfilIs(x: Inst, call: Act)
    requires Shaped(x) && call.Call?
    ensures Fulfil(x, call).0 ==
            if Admitted(x, call) then
              TxnAfter(Closing(TxnBefore(x, call.p, call.beginOk).value, call), call.p, call.st, call.out,
                       call.commitOk).0
            else x
  {
  }

  /** The ends of a call's nested calls, in order, and its own. */
  function Ends(x: Inst, call: Act): (es: seq<Ending>)
    requires Shaped(x) && call.Call?
    decreases call
  {
    if !Admitted(x, call) then []
    else
      var x1 := TxnBefore(x, call.p, call.beginOk).value;
      BodyEnds(x1, call.acts) + [Ending(Closing(x1, call), call)]
  }

  function BodyEnds(x: Inst, acts: seq<Act>): (es: seq<Ending>)
    requires Shaped(x)
    decreases acts
  {
    if acts == [] then []
    else
      match acts[0]
      case Store(id, ok) => BodyEnds(Store1(x, id, ok), acts[1..])
      case Call(_, _, _, _, _, _) => Ends(x, acts[0]) + BodyEnds(Fulfil(x, acts[0]).0, acts[1..])
  }

  /** The ends of every call of a run, nested ones included. */
  function RunEnds(x: Inst, es: seq<T.Event>): (ends: seq<Ending>)
    requires Shaped(x)
    decreases |es|
  {
    if es == [] then []
    else
      (if es[0].Fulfilment? && es[0].call.Call? then Ends(x, es[0].call) else []) + RunEnds(React(x, es[0]), es[1..])
  }

  // ---- what an end does to an episode ----

  /** The call is one of subcontract s, and ran while its episode was open. */
  predicate OnOpen(e: Ending, s: nat) {
    && e.call.Call? && Shaped(e.x) && TxnSub(e.x, e.call.p) == Some(s)
    && e.x.connected && e.x.txn[s] == Open
  }

  predicate Failing(call: Act)
    requires call.Call?
  {
    call.st != OK || (call.out.Res? && call.out.tag == 1)
  }

  predicate Complete(x: Inst, s: nat)
    requires Shaped(x)
  {
    SubAll(x.d, x.latches, s, Kept)
  }

  /** The call failed, or completed s and was refused the commit. */
  predicate Fault(e: Ending, s: nat) {
    OnOpen(e, s) && (Failing(e.call) || (Complete(e.x, s) && !e.call.commitOk))
  }

  predicate Commits(e: Ending, s: nat) {
    OnOpen(e, s) && !Failing(e.call) && Complete(e.x, s) && e.call.commitOk
  }

  /** What settling does to s at such an end: a commit makes the buffer durable, a fault drops
      it, and either way the episode is over; otherwise nothing changes. */
  lemma EndSettles(e: Ending, s: nat)
    requires Inv(e.x) && OnOpen(e, s)
    ensures var y := TxnAfter(e.x, e.call.p, e.call.st, e.call.out, e.call.commitOk).0;
            && (Commits(e, s) ==>
                  y == e.x.(conn := Conn(e.x.conn.durable + Buffered(e.x.conn), None), txn := e.x.txn[s := Done],
                            committed := e.x.committed + [s]))
            && (Fault(e, s) ==> y == e.x.(conn := Conn(e.x.conn.durable, None), txn := e.x.txn[s := Done]))
            && (!Commits(e, s) && !Fault(e, s) ==> y == e.x)
  {
    hide Inv, SubAll;
    EndBuffers(e, s);
    SettlesSo(e, s);
  }

  lemma SettlesSo(e: Ending, s: nat)
    requires OnOpen(e, s) && e.x.conn.buffer.Some?
    ensures var y := TxnAfter(e.x, e.call.p, e.call.st, e.call.out, e.call.commitOk).0;
            && (Commits(e, s) ==>
                  y == e.x.(conn := Conn(e.x.conn.durable + Buffered(e.x.conn), None), txn := e.x.txn[s := Done],
                            committed := e.x.committed + [s]))
            && (Fault(e, s) ==> y == e.x.(conn := Conn(e.x.conn.durable, None), txn := e.x.txn[s := Done]))
            && (!Commits(e, s) && !Fault(e, s) ==> y == e.x)
  {
    hide SubAll;
  }

  predicate Faulted(ends: seq<Ending>, s: nat) {
    exists e | e in ends :: Fault(e, s)
  }

  lemma FaultedConcat(a: seq<Ending>, b: seq<Ending>, s: nat)
    ensures Faulted(a + b, s) <==> Faulted(a, s) || Faulted(b, s)
  {
    hide Fault;
  }

  lemma FaultedOne(e: Ending, s: nat)
    ensures Faulted([e], s) <==> Fault(e, s)
  {
    hide Fault;
    assert e in [e];
  }

  // ---- committed or faulted ----

  /** With f for a fault so far: s is done exactly when it faulted or committed, and never
      both. */
  predicate Fate(x: Inst, f: bool, s: nat) {
    && s < |x.txn|
    && (x.txn[s] == Done <==> f || s in x.committed)
    && !(f && s in x.committed)
  }

  lemma TxnBeforeFate(x: Inst, p: nat, beginOk: bool, f: bool, s: nat)
    requires Shaped(x) && Fate(x, f, s) && TxnBefore(x, p, beginOk).Ok?
    ensures Fate(TxnBefore(x, p, beginOk).value, f, s)
  {
  }

  lemma TxnAfterFate(e: Ending, f: bool, s: nat)
    requires e.call.Call? && Shaped(e.x) && Fate(e.x, f, s)
    requires OnOpen(e, s) ==> e.x.conn.buffer.Some?
    ensures Fate(TxnAfter(e.x, e.call.p, e.call.st, e.call.out, e.call.commitOk).0, f || Fault(e, s), s)
  {
    hide SubAll;
  }

  lemma EndBuffers(e: Ending, s: nat)
    requires Inv(e.x)
    ensures OnOpen(e, s) ==> e.x.conn.buffer.Some?
  {
    hide Inv;
    if OnOpen(e, s) {
      OpenBuffers(e.x, s);
    }
  }

  lemma ClosingKeeps(x1: Inst, call: Act)
    requires Inv(x1) && Shaped(x1) && call.Call?
    ensures Inv(Closing(x1, call))
  {
    hide Inv, LatchPledge, Judge;
    BodyKeeps(x1, call.acts);
    LatchKeeps(Body(x1, call.acts), call.p, call.out);
  }

  lemma ClosingSame(x1: Inst, call: Act)
    requires Shaped(x1) && call.Call?
    ensures var (x2, x3) := (Body(x1, call.acts), Closing(x1, call));
            && x3.txn == x2.txn && x3.committed == x2.committed && x3.connected == x2.connected
            && x3.transactional == x2.transactional
            && x3.latches == if call.st == OK then LatchPledge(x2, call.p, call.out).latches else x2.latches
  {
  }

  lemma {:induction false} FulfilFate(x: Inst, call: Act, f: bool, s: nat)
    requires Inv(x) && Shaped(x) && call.Call? && Fate(x, f, s)
    ensures Fate(Fulfil(x, call).0, f || Faulted(Ends(x, call), s), s)
    decreases call
  {
    hide Inv, Shaped, TxnAfter, TxnBefore, Fault, Closing, Fulfil;
    FulfilIs(x, call);
    if Admitted(x, call) {
      TxnBeforeKeeps(x, call.p, call.beginOk);
      TxnBeforeFate(x, call.p, call.beginOk, f, s);
      var x1 := TxnBefore(x, call.p, call.beginOk).value;
      ShapeOf(x1);
      BodyFate(x1, call.acts, f, s);
      ClosingKeeps(x1, call);
      ClosingSame(x1, call);
      var e := Ending(Closing(x1, call), call);
      ShapeOf(e.x);
      FaultedConcat(BodyEnds(x1, call.acts), [e], s);
      FaultedOne(e, s);
      EndBuffers(e, s);
      TxnAfterFate(e, f || Faulted(BodyEnds(x1, call.acts), s), s);
    }
  }

  lemma {:induction false} BodyFate(x: Inst, acts: seq<Act>, f: bool, s: nat)
    requires Inv(x) && Shaped(x) && Fate(x, f, s)
    ensures Fate(Body(x, acts), f || Faulted(BodyEnds(x, acts), s), s)
    decreases acts
  {
    hide Inv, Shaped, Fault, Fulfil, Ends;
    if acts != [] {
      match acts[0]
      case Store(id, ok) =>
        Store1Keeps(x, id, ok);
        ShapeOf(Store1(x, id, ok));
        BodyFate(Store1(x, id, ok), acts[1..], f, s);
      case Call(_, _, _, _, _, _) =>
        var y := Fulfil(x, acts[0]).0;
        FulfilKeeps(x, acts[0]);
        FulfilFate(x, acts[0], f, s);
        BodyFate(y, acts[1..], f || Faulted(Ends(x, acts[0]), s), s);
        FaultedConcat(Ends(x, acts[0]), BodyEnds(y, acts[1..]), s);
    }
  }

  lemma {:induction false} RunFate(x: Inst, es: seq<T.Event>, f: bool, s: nat)
    requires Inv(x) && Shaped(x) && Fate(x, f, s)
    ensures Fate(Lives(x, es), f || Faulted(RunEnds(x, es), s), s)
    decreases |es|
  {
    hide Inv, Shaped, Fault, Fulfil, Ends;
    if es != [] {
      var y := React(x, es[0]);
      var first := if es[0].Fulfilment? && es[0].call.Call? then Ends(x, es[0].call) else [];
      ReactKeeps(x, es[0]);
      if es[0].Fulfilment? && es[0].call.Call? {
        FulfilFate(x, es[0].call, f, s);
      } else {
        assert !Faulted([], s);
      }
      RunFate(y, es[1..], f || Faulted(first, s), s);
      FaultedConcat(first, RunEnds(y, es[1..]), s);
    }
  }

  lemma ReactKeeps(x: Inst, e: T.Event)
    requires Inv(x) && Shaped(x)
    ensures Inv(React(x, e))
  {
    hide Inv;
    if e.Teardown? {
      BreakKeeps(x);
    } else if e.call.Call? {
      FulfilKeeps(x, e.call);
    }
  }

  // ---- a complete subcontract is done ----

  predicate KeptDone(x: Inst, s: nat)
    requires Shaped(x)
  {
    s < |x.txn| && x.transactional[s] && (Complete(x, s) ==> x.txn[s] == Done)
  }

  /** s complete is s done, and the connection stands. */
  predicate Tidy(x: Inst, s: nat)
    requires Shaped(x)
  {
    x.connected && KeptDone(x, s)
  }

  lemma TxnBeforeTidy(x: Inst, p: nat, beginOk: bool, s: nat)
    requires Shaped(x) && Tidy(x, s) && TxnBefore(x, p, beginOk).Ok?
    ensures var y := TxnBefore(x, p, beginOk).value;
            Tidy(y, s) && (x.txn[s] != Unopened || TxnSub(y, p) == Some(s) ==> y.txn[s] != Unopened)
  {
  }

  /** A latch outside s completes nothing of it. */
  lemma LatchElsewhere(x: Inst, p: nat, out: Value, s: nat)
    requires Shaped(x) && s < |x.txn| && x.transactional[s] && TxnSub(x, p) != Some(s)
    ensures Complete(LatchPledge(x, p, out), s) ==> Complete(x, s)
  {
    var y := LatchPledge(x, p, out);
    forall i | 0 <= i < |x.latches| && InSub(x.d, s, i) ensures x.latches[i] == y.latches[i] {
    }
  }

  lemma ClosingTidy(x1: Inst, call: Act, s: nat)
    requires Shaped(x1) && call.Call? && Tidy(Body(x1, call.acts), s)
    ensures var x3 := Closing(x1, call);
            && x3.connected && s < |x3.txn| && x3.transactional[s]
            && (TxnSub(x3, call.p) != Some(s) || call.st != OK ==> KeptDone(x3, s))
  {
    hide Body, SubAll, LatchPledge;
    ClosingSame(x1, call);
    if TxnSub(Body(x1, call.acts), call.p) != Some(s) {
      LatchElsewhere(Body(x1, call.acts), call.p, call.out, s);
    }
  }

  lemma TxnAfterTidy(e: Ending, s: nat)
    requires e.call.Call? && Shaped(e.x) && e.x.connected && s < |e.x.txn| && e.x.transactional[s]
    requires if TxnSub(e.x, e.call.p) == Some(s) then e.x.txn[s] != Unopened else KeptDone(e.x, s)
    ensures var y := TxnAfter(e.x, e.call.p, e.call.st, e.call.out, e.call.commitOk).0;
            Tidy(y, s) && (e.x.txn[s] != Unopened ==> y.txn[s] != Unopened)
  {
  }

  lemma {:induction false} FulfilTidy(x: Inst, call: Act, s: nat)
    requires Shaped(x) && call.Call? && Tidy(x, s)
    ensures var y := Fulfil(x, call).0; Tidy(y, s) && (x.txn[s] != Unopened ==> y.txn[s] != Unopened)
    decreases call
  {
    hide TxnAfter, TxnBefore, Closing, Fulfil, Complete;
    FulfilIs(x, call);
    if Admitted(x, call) {
      TxnBeforeTidy(x, call.p, call.beginOk, s);
      var x1 := TxnBefore(x, call.p, call.beginOk).value;
      BodyTidy(x1, call.acts, s);
      ClosingTidy(x1, call, s);
      ClosingSame(x1, call);
      BodyLater(x1, call.acts);
      TxnAfterTidy(Ending(Closing(x1, call), call), s);
    }
  }

  lemma {:induction false} BodyTidy(x: Inst, acts: seq<Act>, s: nat)
    requires Shaped(x) && Tidy(x, s)
    ensures var y := Body(x, acts); Tidy(y, s) && (x.txn[s] != Unopened ==> y.txn[s] != Unopened)
    decreases acts
  {
    hide Fulfil;
    if acts != [] {
      if acts[0].Store? {
        BodyTidy(Store1(x, acts[0].id, acts[0].ok), acts[1..], s);
      } else {
        FulfilTidy(x, acts[0], s);
        BodyTidy(Fulfil(x, acts[0]).0, acts[1..], s);
      }
    }
  }

  /** Torn down or tidy. */
  predicate Kempt(x: Inst, s: nat)
    requires Shaped(x)
  {
    KeptDone(x, s) && (x.connected || x.life == Broken)
  }

  lemma {:induction false} LivesKempt(x: Inst, es: seq<T.Event>, s: nat)
    requires Shaped(x) && Kempt(x, s)
    ensures Kempt(Lives(x, es), s)
    decreases |es|
  {
    hide Complete;
    if es != [] {
      ReactKempt(x, es[0], s);
      LivesKempt(React(x, es[0]), es[1..], s);
    }
  }

  lemma ReactKempt(x: Inst, e: T.Event, s: nat)
    requires Shaped(x) && Kempt(x, s)
    ensures Kempt(React(x, e), s)
  {
    if e.Fulfilment? && e.call.Call? && x.connected {
      hide Fulfil, Complete;
      FulfilTidy(x, e.call, s);
    }
  }

  /** The commit point, for an episode that a start finds unopened and its subcontract
      unfinished: after any run, if every pledge is kept the episode is over; and it
      committed exactly when no call of it that ran while it was open failed, and none that
      completed it was refused the commit. */
  lemma CommitsExactly(x0: Inst, es: seq<T.Event>, s: nat)
    requires Starting(x0) && x0.connected && s < |x0.txn| && x0.transactional[s] && x0.txn[s] == Unopened
    requires !Complete(x0, s)
    ensures var y := Lives(x0, es);
            Complete(y, s) ==> y.txn[s] == Done && (s in y.committed <==> !Faulted(RunEnds(x0, es), s))
  {
    hide Inv, Complete, Lives, RunEnds, Faulted;
    StartInv(x0);
    LivesKempt(x0, es, s);
    RunFate(x0, es, false, s);
  }

  /** A signed instance finds each of its episodes so. */
  lemma SignUnfinished(d: Desc, transactional: seq<bool>, s: nat)
    requires |transactional| == |d.subs| && s < |transactional|
    ensures var x := Sign(d, transactional, true);
            Starting(x) && x.connected && x.txn[s] == Unopened && !Complete(x, s)
  {
  }

  /** One transactional subcontract of one pledge. */
  function Single(): Desc {
    Desc(["A"], [0], [Some("s")], false, [], [], [], [])
  }

  /** A's body writes, then calls A again; the inner call fails in its backend. */
  function CallTwice(): Act {
    Call(0, true, [Store(1, true), Call(0, true, [], ErrStore, ZERO, true)], OK, ZERO, true)
  }

  lemma SingleKept()
    ensures SubAll(Single(), [Kept], 0, Kept) && Policy(Single(), Signed, [Kept]) == Fulfilled
  {
    var d := Single();
    assert InSub(d, 0, 0);
    assert LooseAtoms(d, 0, false) == [] && !Loose(d, 0);
    assert SubAtoms(0, false) == [] && SubAtoms(1, false) == [Atom(0, -1, false)];
    assert ItemAtoms(d, false) == [Atom(0, -1, false)];
  }

  lemma InnerFails(x: Inst)
    requires Shaped(x) && x.d == Single() && x.transactional == [true] && x.connected && x.life == Signed
    requires x.txn == [Open] && x.latches == [Pending]
    ensures Fulfil(x, Call(0, true, [], ErrStore, ZERO, true)).0
            == x.(conn := Rollback(x.conn), txn := [Done])
  {
    assert Body(x, []) == x;
  }

  /** No commit is refused and the answer is OK; the contract is Fulfilled, its one pledge
      kept, and nothing was committed. */
  lemma KeptWithoutCommit()
    ensures var x := Sign(Single(), [true], true);
            var (y, st) := Fulfil(x, CallTwice());
            && st == OK && y.life == Fulfilled && y.latches == [Kept] && y.txn == [Done]
            && y.committed == [] && y.conn == Conn([], None) && y.written == [Write(1, Some(0))]
  {
    var x := Sign(Single(), [true], true);
    var call := CallTwice();
    var x1 := TxnBefore(x, 0, true).value;
    assert x.latches == [Pending] && x1.txn == [Open] && x1.conn == Conn([], Some([]));
    var inner := Call(0, true, [], ErrStore, ZERO, true);
    var w := Store1(x1, 1, true);
    OpenIs(x1.txn, 0);
    assert [] + [Write(1, Some(0))] == [Write(1, Some(0))];
    InnerFails(w);
    TwoActs(x1, Store(1, true), inner);
    OuterKeeps(Fulfil(w, inner).0);
    hide Body, Judge, LatchPledge, TxnAfter;
  }

  lemma OuterKeeps(x: Inst)
    requires Shaped(x) && x.d == Single() && x.life == Signed && x.txn == [Done] && x.latches == [Pending]
    ensures TxnAfter(Judge(LatchPledge(x, 0, ZERO)), 0, OK, ZERO, true)
            == (x.(life := Fulfilled, latches := [Kept]), OK)
  {
    SingleKept();
    hide Policy;
    assert x.latches[0 := Kept] == [Kept];
  }

  lemma TwoActs(x: Inst, a: Act, b: Act)
    requires Shaped(x) && a.Store? && b.Call?
    ensures Body(x, [a, b]) == Fulfil(Store1(x, a.id, a.ok), b).0
  {
    hide Fulfil;
    assert [a, b][1..] == [b] && [b][1..] == [];
    var y := Store1(x, a.id, a.ok);
    assert Body(y, [b]) == Body(Fulfil(y, b).0, [b][1..]);
  }

  // ---- committing into a broken instance ----

  /** Broken, or where its latches say. */
  ghost predicate Judged(x: Inst)
    requires Shaped(x)
  {
    x.life == Broken || (Attainable(x.d, x.latches) && x.life == StateAt(x.d, x.latches))
  }

  /** If the policy has broken the instance under s's open transaction, a pledge of s has
      failed. */
  predicate BrokenFailed(x: Inst, s: nat)
    requires Shaped(x)
  {
    s < |x.txn| && (x.life == Broken && x.connected && x.txn[s] == Open ==> !Unfailed(x.d, x.latches, s))
  }

  ghost predicate Safe(x: Inst, s: nat)
    requires Shaped(x)
  {
    Tidy(x, s) && Judged(x) && BrokenFailed(x, s)
  }

  predicate CommitsBroken(e: Ending, s: nat) {
    Commits(e, s) && e.x.life == Broken
  }

  lemma TxnBeforeSafe(x: Inst, p: nat, beginOk: bool, s: nat)
    requires Shaped(x) && Safe(x, s) && Takes(x.life) && TxnBefore(x, p, beginOk).Ok?
    ensures Safe(TxnBefore(x, p, beginOk).value, s)
  {
    hide Tidy;
    TxnBeforeTidy(x, p, beginOk, s);
  }

  /** The moment of a latch: whichever way it goes, the policy's answer is where the latches
      are, or it broke, and then not around an open s that no pledge has failed. */
  lemma LatchSafe(x: Inst, p: nat, out: Value, s: nat)
    requires Shaped(x) && Safe(x, s) && !Exposed(x.d, s) && p < |x.latches|
    ensures var y := Judge(LatchPledge(x, p, out)); Judged(y) && BrokenFailed(y, s)
  {
    var err := out.Res? && out.tag == 1;
    if x.latches[p] != Pending {
      LatchedAlready(x, p, out);
    } else if x.life == Broken {
      hide Breaks, Fulfills, Partials, Attainable, Exposed;
      FailedStays(x.d, x.latches, p, err, s);
    } else {
      var l' := Latched(x.latches, p, err);
      assert LatchPledge(x, p, out).latches == l';
      assert l'[p] != Pending;
      if Breaks(x.d, l') {
        hide Breaks, Fulfills, Partials, Attainable, SubAll, Exposed;
        if x.connected && x.txn[s] == Open && Unfailed(x.d, l', s) {
          Opened(x, p, err, s);
        }
      } else {
        NextLatch(x.d, x.latches, p, err);
        hide Breaks, Fulfills, Partials, Attainable, SubAll, Exposed;
      }
    }
  }

  lemma LatchedAlready(x: Inst, p: nat, out: Value)
    requires Shaped(x) && Judged(x) && p < |x.latches| && x.latches[p] != Pending
    ensures Judge(LatchPledge(x, p, out)) == x
  {
    hide Fulfills, Partials;
    assert x.latches != AllPending(|x.latches|);
  }

  lemma FailedStays(d: Desc, l: seq<Latch>, p: nat, err: bool, s: nat)
    requires |l| == |d.subOf| && p < |l|
    ensures !Unfailed(d, l, s) ==> !Unfailed(d, Latched(l, p, err), s)
  {
    var l' := Latched(l, p, err);
    if Unfailed(d, l', s) {
      forall q | 0 <= q < |l| && InSub(d, s, q) ensures l[q] != Failed {
        assert l'[q] != Failed;
      }
    }
  }

  lemma PendingOrKept(d: Desc, l: seq<Latch>, s: nat)
    requires |l| == |d.subOf| && Unfailed(d, l, s)
    ensures (exists q | 0 <= q < |l| :: InSub(d, s, q) && l[q] == Pending) || SubAll(d, l, s, Kept)
  {
  }

  lemma KeptUnfailed(d: Desc, l: seq<Latch>, s: nat)
    requires |l| == |d.subOf|
    ensures SubAll(d, l, s, Kept) ==> Unfailed(d, l, s)
  {
  }

  /** Breaking with s open, unfinished and unfailed is what exposed means. */
  lemma Opened(x: Inst, p: nat, err: bool, s: nat)
    requires Shaped(x) && Tidy(x, s) && Attainable(x.d, x.latches) && x.txn[s] == Open
    requires p < |x.latches| && x.latches[p] == Pending
    requires Breaks(x.d, Latched(x.latches, p, err)) && Unfailed(x.d, Latched(x.latches, p, err), s)
    ensures Exposed(x.d, s)
  {
    hide Breaks, Attainable, SubAll, Unfailed;
    FailedStays(x.d, x.latches, p, err, s);
    PendingOrKept(x.d, x.latches, s);
    assert ExposedAt(x.d, x.latches, s);
  }

  lemma ClosingSafe(x1: Inst, call: Act, s: nat)
    requires Shaped(x1) && call.Call? && call.p < |x1.latches| && !Exposed(x1.d, s)
    requires Safe(Body(x1, call.acts), s)
    ensures var x3 := Closing(x1, call); Judged(x3) && BrokenFailed(x3, s)
  {
    hide Body, Tidy, Judged, BrokenFailed, LatchPledge, Judge, Exposed;
    BodyLater(x1, call.acts);
    if call.st == OK {
      LatchSafe(Body(x1, call.acts), call.p, call.out, s);
    }
  }

  lemma TxnAfterSafe(e: Ending, s: nat)
    requires e.call.Call? && Shaped(e.x) && Judged(e.x) && BrokenFailed(e.x, s)
    ensures var y := TxnAfter(e.x, e.call.p, e.call.st, e.call.out, e.call.commitOk).0;
            Judged(y) && BrokenFailed(y, s)
    ensures !CommitsBroken(e, s)
  {
    hide Attainable, StateAt;
    KeptUnfailed(e.x.d, e.x.latches, s);
    hide SubAll, Unfailed;
  }

  lemma {:induction false} FulfilSafe(x: Inst, call: Act, s: nat)
    requires Shaped(x) && call.Call? && Safe(x, s) && !Exposed(x.d, s)
    ensures Safe(Fulfil(x, call).0, s)
    ensures forall e | e in Ends(x, call) :: !CommitsBroken(e, s)
    decreases call
  {
    hide TxnAfter, TxnBefore, Closing, Fulfil, Tidy, Judged, BrokenFailed, CommitsBroken, Exposed;
    FulfilIs(x, call);
    FulfilTidy(x, call, s);
    if Admitted(x, call) {
      TxnBeforeSafe(x, call.p, call.beginOk, s);
      var x1 := TxnBefore(x, call.p, call.beginOk).value;
      TxnBeforeLater(x, call.p, call.beginOk);
      BodySafe(x1, call.acts, s);
      ClosingSafe(x1, call, s);
      TxnAfterSafe(Ending(Closing(x1, call), call), s);
    }
  }

  lemma {:induction false} BodySafe(x: Inst, acts: seq<Act>, s: nat)
    requires Shaped(x) && Safe(x, s) && !Exposed(x.d, s)
    ensures Safe(Body(x, acts), s)
    ensures forall e | e in BodyEnds(x, acts) :: !CommitsBroken(e, s)
    decreases acts
  {
    hide Fulfil, Ends, CommitsBroken, Exposed, Attainable, StateAt;
    if acts != [] {
      if acts[0].Store? {
        BodySafe(Store1(x, acts[0].id, acts[0].ok), acts[1..], s);
      } else {
        FulfilSafe(x, acts[0], s);
        BodySafe(Fulfil(x, acts[0]).0, acts[1..], s);
      }
    }
  }

  lemma {:induction false} RunSafe(x: Inst, es: seq<T.Event>, s: nat)
    requires Shaped(x) && s < |x.txn| && !Exposed(x.d, s)
    requires Safe(x, s) || x.life == Broken
    ensures forall e | e in RunEnds(x, es) :: !CommitsBroken(e, s)
    decreases |es|
  {
    hide Fulfil, Ends, CommitsBroken, Exposed, Tidy, Judged, BrokenFailed;
    if es != [] {
      if es[0].Fulfilment? && es[0].call.Call? {
        if x.life == Broken {
          BrokenRefuses(x, es[0].call);
        } else {
          FulfilSafe(x, es[0].call, s);
        }
      }
      BreakBreaks(x);
      RunSafe(React(x, es[0]), es[1..], s);
    }
  }

  lemma BrokenRefuses(x: Inst, call: Act)
    requires Shaped(x) && call.Call? && x.life == Broken
    ensures Fulfil(x, call).0 == x && Ends(x, call) == []
  {
  }

  lemma BreakBreaks(x: Inst)
    requires Shaped(x)
    ensures Break(x) == x || Break(x).life == Broken
  {
  }

  /** Over every run, in a contract that does not expose s, no call, nested or not, commits
      s's episode into an instance its policy has already broken. */
  lemma UnexposedNeverCommitsBroken(x0: Inst, es: seq<T.Event>, s: nat)
    requires Starting(x0) && Tidy(x0, s) && Judged(x0) && !Exposed(x0.d, s)
    ensures forall e | e in RunEnds(x0, es) :: !CommitsBroken(e, s)
  {
    hide Tidy, Judged, Exposed, CommitsBroken, RunEnds, Unfailed;
    assert s < |x0.txn| by {
      TidyKnows(x0, s);
    }
    RunSafe(x0, es, s);
  }

  lemma TidyKnows(x: Inst, s: nat)
    requires Shaped(x) && Tidy(x, s)
    ensures s < |x.txn|
  {
  }

  /** A transactional pledge A, a loose pledge B, and `break: A && !B`. */
  function Quarrel(): Desc {
    Desc(["A", "B"], [0, -1], [Some("s")], true, [Atom(-1, 0, false), Atom(-1, 1, false)], [], [],
         [Push(0), Push(1), Not, And])
  }

  lemma QuarrelPolicy()
    ensures Policy(Quarrel(), Signed, [Pending, Failed]) == Signed
    ensures Policy(Quarrel(), Signed, [Kept, Failed]) == Broken && SubAll(Quarrel(), [Kept, Failed], 0, Kept)
  {
    hide Line;
    var d := Quarrel();
    var t := Conj(Leaf(0), Neg(Leaf(1)));
    assert Postfix(Neg(Leaf(1))) == [Push(1), Not] && Postfix(t) == d.brk;
    LineOfTree(d, [Pending, Failed], t);
    LineOfTree(d, [Kept, Failed], t);
    NoLine(d, [Pending, Failed]);
    assert [Kept, Failed][1] == Failed;
    assert InSub(d, 0, 0);
  }

  lemma NoLine(d: Desc, l: seq<Latch>)
    requires |l| == |d.subOf|
    ensures !Line(d, l, [])
  {
  }

  /** A's call, once B has failed: its own Ok breaks the instance, and then commits. */
  lemma SelfBreakCommits(x: Inst)
    requires Inv(x) && Shaped(x) && x.d == Quarrel() && x.transactional == [true] && x.connected && x.life == Signed
    requires x.latches == [Pending, Failed] && x.txn == [Unopened] && x.conn == Conn([], None)
    ensures var (y, st) := Fulfil(x, Call(0, true, [Store(1, true)], OK, ZERO, true));
            && st == OK && y.life == Broken && y.committed == x.committed + [0]
            && y.conn.durable == [Write(1, Some(0))]
  {
    var call := Call(0, true, [Store(1, true)], OK, ZERO, true);
    var x1 := TxnBefore(x, 0, true).value;
    assert x1.txn == [Open] && x1.conn == Conn([], Some([]));
    OpenIs(x1.txn, 0);
    var x2 := Store1(x1, 1, true);
    OneStore(x1, 1);
    assert [] + [Write(1, Some(0))] == [Write(1, Some(0))];
    assert x2.latches[0 := Kept] == [Kept, Failed];
    QuarrelPolicy();
    hide Inv, Body, Policy, SubAll, Fulfil;
    BrokenCallCommits(x, call, 0);
  }

  lemma OneStore(x: Inst, id: int)
    requires Shaped(x)
    ensures Body(x, [Store(id, true)]) == Store1(x, id, true)
  {
    assert [Store(id, true)][1..] == [];
    assert Body(Store1(x, id, true), []) == Store1(x, id, true);
  }

  lemma BAlone(x: Inst)
    requires Shaped(x) && x.d == Quarrel() && x.life == Signed && x.latches == [Pending, Pending]
    ensures Fulfil(x, Call(1, true, [], OK, Res(1, None), true)).0 == x.(latches := [Pending, Failed])
  {
    hide Policy, Fulfil, Closing, Body;
    var call := Call(1, true, [], OK, Res(1, None), true);
    QuarrelPolicy();
    FulfilIs(x, call);
    assert TxnSub(x, 1) == None && TxnBefore(x, 1, true) == Ok(x);
    PlainClosing(x, call);
    assert x.latches[1 := Failed] == [Pending, Failed];
  }

  /** And a signed instance gets there: B fails first, and leaves it Signed. */
  lemma BFails()
    ensures var x := Fulfil(Sign(Quarrel(), [true], true), Call(1, true, [], OK, Res(1, None), true)).0;
            && Inv(x) && Shaped(x) && x.d == Quarrel() && x.transactional == [true] && x.connected && x.life == Signed
            && x.latches == [Pending, Failed] && x.txn == [Unopened] && x.conn == Conn([], None)
            && x.committed == []
  {
    hide Inv, Fulfil;
    var x0 := Sign(Quarrel(), [true], true);
    SignStarts(Quarrel(), [true], true);
    StartInv(x0);
    FulfilKeeps(x0, Call(1, true, [], OK, Res(1, None), true));
    assert x0.latches == [Pending, Pending] && x0.txn == [Unopened];
    BAlone(x0);
  }

  // ---- and the other way, where s is the only transactional subcontract ----

  predicate OnlyOne(transactional: seq<bool>, s: nat) {
    s < |transactional| && transactional[s] && forall t | 0 <= t < |transactional| && transactional[t] :: t == s
  }

  /** A step of the way: the latches at l, the state where they say, s's episode not over
      and no other one open. */
  predicate Under(x: Inst, d: Desc, l: seq<Latch>, s: nat)
    requires |l| == |d.subOf|
  {
    && Shaped(x) && x.d == d && x.latches == l && x.connected && OnlyOne(x.transactional, s)
    && (forall t | 0 <= t < |x.txn| && t != s :: x.txn[t] == Unopened) && x.txn[s] != Done
    && (x.conn.buffer.Some? <==> x.txn[s] == Open)
  }

  predicate On(x: Inst, d: Desc, l: seq<Latch>, s: nat)
    requires |l| == |d.subOf|
  {
    Under(x, d, l, s) && x.life == StateAt(d, l)
  }

  function Plain(p: nat, err: bool): Act {
    Call(p, true, [], OK, if err then Res(1, None) else ZERO, true)
  }

  predicate PendingIn(d: Desc, l: seq<Latch>, s: nat)
    requires |l| == |d.subOf|
  {
    exists q | 0 <= q < |l| :: InSub(d, s, q) && l[q] == Pending
  }

  /** Any pledge's call is let in, and leaves s open if it is one of s. */
  lemma LetIn(x: Inst, d: Desc, l: seq<Latch>, s: nat, p: nat)
    requires |l| == |d.subOf| && Under(x, d, l, s) && p < |l|
    ensures TxnBefore(x, p, true).Ok?
    ensures var y := TxnBefore(x, p, true).value;
            && Under(y, d, l, s) && y.life == x.life
            && (InSub(d, s, p) <==> TxnSub(y, p) == Some(s))
            && (InSub(d, s, p) || x.txn[s] == Open ==> y.txn[s] == Open)
            && (!InSub(d, s, p) ==> TxnSub(y, p) == None)
  {
  }

  /** A good outcome in s, or any outside it, while s stays unfinished: latched, judged, and
      nothing settled. */
  lemma SettlesNothing(x: Inst, d: Desc, l: seq<Latch>, s: nat, p: nat, out: Value)
    requires |l| == |d.subOf| && Under(x, d, l, s) && p < |l|
    requires InSub(d, s, p) ==> TxnSub(x, p) == Some(s) && !(out.Res? && out.tag == 1)
    requires !InSub(d, s, p) ==> TxnSub(x, p) == None
    requires !SubAll(d, l, s, Kept)
    ensures TxnAfter(x, p, OK, out, true).0 == x
  {
  }

  lemma LatchUnder(x: Inst, d: Desc, l: seq<Latch>, s: nat, p: nat, out: Value)
    requires |l| == |d.subOf| && Under(x, d, l, s) && p < |l| && l[p] == Pending
    ensures var l' := Latched(l, p, out.Res? && out.tag == 1);
            var y := Judge(LatchPledge(x, p, out));
            Under(y, d, l', s) && y.txn == x.txn && y.life == Policy(d, x.life, l') && TxnSub(y, p) == TxnSub(x, p)
  {
    hide Policy;
  }

  lemma PlainClosing(x: Inst, call: Act)
    requires Shaped(x) && call.Call? && call.acts == [] && call.st == OK
    ensures Closing(x, call) == Judge(LatchPledge(x, call.p, call.out)) && BodyEnds(x, call.acts) == []
  {
    assert Body(x, []) == x;
    hide LatchPledge, Judge;
  }

  /** One plain call on the way. */
  lemma OneOn(x: Inst, d: Desc, l: seq<Latch>, s: nat, p: nat, err: bool)
    requires |l| == |d.subOf| && On(x, d, l, s) && p < |l| && l[p] == Pending
    requires var l' := Latched(l, p, err); !Breaks(d, l') && PendingIn(d, l', s) && Unfailed(d, l', s)
    ensures On(Fulfil(x, Plain(p, err)).0, d, Latched(l, p, err), s)
  {
    hide Fulfil, Closing, TxnBefore, TxnAfter, Under, LatchPledge, Judge, Breaks, Fulfills, Partials;
    var l' := Latched(l, p, err);
    var call := Plain(p, err);
    LetInOn(x, d, l, s, p);
    assert Shaped(x) && Admitted(x, call);
    FulfilIs(x, call);
    var x1 := TxnBefore(x, p, true).value;
    PlainClosing(x1, call);
    LatchUnder(x1, d, l, s, p, call.out);
    assert l'[p] != Pending && (InSub(d, s, p) ==> l'[p] != Failed);
    SettlesNothing(Closing(x1, call), d, l', s, p, call.out);
  }

  lemma LetInOn(x: Inst, d: Desc, l: seq<Latch>, s: nat, p: nat)
    requires |l| == |d.subOf| && Under(x, d, l, s) && p < |l| && Takes(x.life)
    ensures Shaped(x) && forall call: Act | call.Call? && call.p == p && call.beginOk :: Admitted(x, call)
    ensures var y := TxnBefore(x, p, true).value;
            && TxnBefore(x, p, true).Ok? && Under(y, d, l, s) && y.life == x.life
            && (InSub(d, s, p) <==> TxnSub(y, p) == Some(s))
            && (InSub(d, s, p) || x.txn[s] == Open ==> y.txn[s] == Open)
            && (!InSub(d, s, p) ==> TxnSub(y, p) == None)
  {
    hide TxnBefore;
    LetIn(x, d, l, s, p);
  }

  // ---- a run that gets there ----

  lemma {:induction false} LivesSnoc(x: Inst, es: seq<T.Event>, e: T.Event)
    requires Shaped(x)
    ensures Lives(x, es + [e]) == React(Lives(x, es), e)
    ensures RunEnds(x, es + [e]) == RunEnds(x, es) + RunEnds(Lives(x, es), [e])
    decreases |es|
  {
    hide React, Ends;
    if es == [] {
      assert [] + [e] == [e] && [e][1..] == [];
      assert Lives(x, [e]) == Lives(React(x, e), []);
    } else {
      assert (es + [e])[1..] == es[1..] + [e] && (es + [e])[0] == es[0];
      LivesSnoc(React(x, es[0]), es[1..], e);
    }
  }

  /** Every unbroken filling with s unfinished and unfailed is where some run gets with s's
      episode not over. */
  lemma {:induction false} SomeRunOn(d: Desc, transactional: seq<bool>, l: seq<Latch>, s: nat)
    returns (es: seq<T.Event>)
    requires |transactional| == |d.subs| && OnlyOne(transactional, s) && |l| == |d.subOf|
    requires Attainable(d, l) && PendingIn(d, l, s) && Unfailed(d, l, s)
    ensures On(Lives(Sign(d, transactional, true), es), d, l, s)
    decreases LatchCount(l)
  {
    var x0 := Sign(d, transactional, true);
    if l == AllPending(|l|) {
      es := [];
    } else {
      hide Attainable, On, Lives, Fulfil, Breaks;
      var i, less := LastLatch(d, l);
      LessIsOn(d, l, i, s);
      var front := SomeRunOn(d, transactional, less, s);
      var e := Fulfilment(Plain(i, l[i] == Failed));
      es := front + [e];
      LivesSnoc(x0, front, e);
      OneOn(Lives(x0, front), d, less, s, i, l[i] == Failed);
    }
  }

  lemma LessIsOn(d: Desc, l: seq<Latch>, i: nat, s: nat)
    requires |l| == |d.subOf| && i < |l| && PendingIn(d, l, s) && Unfailed(d, l, s)
    ensures PendingIn(d, l[i := Pending], s) && Unfailed(d, l[i := Pending], s)
  {
    var less := l[i := Pending];
    var q :| 0 <= q < |l| && InSub(d, s, q) && l[q] == Pending;
    assert less[q] == Pending;
  }

  /** Calls of qs nested one in the next, and in the last of them a call of p. */
  function Nested(qs: seq<nat>, p: nat, err: bool): (call: Act)
    ensures call.Call?
  {
    if qs == [] then Plain(p, err) else Call(qs[0], true, [Nested(qs[1..], p, err)], OK, ZERO, true)
  }

  function Filled(l: seq<Latch>, qs: seq<nat>, p: nat, err: bool): (r: seq<Latch>)
    requires p < |l| && forall k | 0 <= k < |qs| :: qs[k] < |l|
    ensures |r| == |l|
  {
    if qs == [] then Latched(l, p, err) else Latched(Filled(l, qs[1..], p, err), qs[0], false)
  }

  lemma {:induction false} FilledIs(l: seq<Latch>, qs: seq<nat>, p: nat, err: bool)
    requires p < |l| && forall k | 0 <= k < |qs| :: qs[k] < |l| && l[qs[k]] == Pending && qs[k] != p
    requires l[p] == Pending
    ensures forall i | 0 <= i < |l| :: Filled(l, qs, p, err)[i] ==
              if i == p then (if err then Failed else Kept) else if i in qs then Kept else l[i]
    decreases |qs|
  {
    if qs != [] {
      FilledIs(l, qs[1..], p, err);
      assert forall i :: i in qs <==> i == qs[0] || i in qs[1..];
    }
  }

  /** The calls still to be made: distinct pending pledges of s, and one more of any kind,
      which breaks the contract and fails nothing of s. */
  predicate Chain(d: Desc, l: seq<Latch>, s: nat, qs: seq<nat>, p: nat, err: bool)
    requires |l| == |d.subOf|
  {
    && (forall k | 0 <= k < |qs| :: qs[k] < |l| && l[qs[k]] == Pending && qs[k] != p && InSub(d, s, qs[k]))
    && (forall j, k | 0 <= j < k < |qs| :: qs[j] != qs[k])
    && p < |l| && l[p] == Pending && (InSub(d, s, p) ==> !err)
    && Breaks(d, Latched(l, p, err))
  }

  /** The body of one such call: what is nested in it, and that alone. */
  lemma OneAct(x: Inst, a: Act)
    requires Shaped(x) && a.Call?
    ensures Body(x, [a]) == Fulfil(x, a).0 && BodyEnds(x, [a]) == Ends(x, a)
  {
    hide Fulfil, Ends;
    var y := Fulfil(x, a).0;
    assert [a][1..] == [] && Body(y, []) == y && BodyEnds(y, []) == [];
    assert Ends(x, a) + [] == Ends(x, a);
  }

  /** The end of the call of q: s complete and committed into a broken instance, or all as
      it was but the latches. */
  lemma EndOf(x1: Inst, d: Desc, l: seq<Latch>, s: nat, q: nat, call: Act)
    requires Shaped(x1) && call.Call? && call.p == q && call.st == OK && call.commitOk && |l| == |d.subOf|
    requires q < |l| && l[q] == Pending && Under(Body(x1, call.acts), d, l, s)
    requires Policy(d, Body(x1, call.acts).life, Latched(l, q, Failing(call))) == Broken
    requires InSub(d, s, q) ==>
               && TxnSub(Body(x1, call.acts), q) == Some(s) && Body(x1, call.acts).txn[s] == Open && !Failing(call)
    requires !InSub(d, s, q) ==> TxnSub(Body(x1, call.acts), q) == None && !SubAll(d, l, s, Kept)
    ensures var (e, l') := (Ending(Closing(x1, call), call), Latched(l, q, Failing(call)));
            if SubAll(d, l', s, Kept) then CommitsBroken(e, s)
            else
              var y := TxnAfter(e.x, q, OK, call.out, true).0;
              Under(y, d, l', s) && y.life == Broken && y.txn == Body(x1, call.acts).txn
  {
    hide Body, SubAll, LatchPledge, Judge, TxnAfter, TxnSub, Policy;
    var x2 := Body(x1, call.acts);
    var l' := Latched(l, q, Failing(call));
    LatchUnder(x2, d, l, s, q, call.out);
    if SubAll(d, l', s, Kept) {
      if !InSub(d, s, q) {
        Elsewhere(d, l, q, Failing(call), s);
      }
    } else {
      SettlesNothing(Closing(x1, call), d, l', s, q, call.out);
    }
  }

  lemma Elsewhere(d: Desc, l: seq<Latch>, q: nat, err: bool, s: nat)
    requires |l| == |d.subOf| && q < |l| && !InSub(d, s, q)
    ensures SubAll(d, Latched(l, q, err), s, Kept) <==> SubAll(d, l, s, Kept)
  {
    var l' := Latched(l, q, err);
    forall i | 0 <= i < |l| && InSub(d, s, i) ensures l'[i] == l[i] {
    }
  }

  lemma StillPending(d: Desc, l: seq<Latch>, s: nat)
    requires |l| == |d.subOf| && PendingIn(d, l, s)
    ensures !SubAll(d, l, s, Kept)
  {
  }

  lemma SubUnder(x: Inst, d: Desc, l: seq<Latch>, s: nat, q: nat)
    requires |l| == |d.subOf| && Under(x, d, l, s) && q < |l|
    ensures Shaped(x) && x.connected && s < |x.txn|
    ensures TxnSub(x, q) == if InSub(d, s, q) then Some(s) else None
  {
  }

  /** The innermost call: it breaks the contract. */
  lemma InnermostEnds(x: Inst, d: Desc, l: seq<Latch>, s: nat, p: nat, err: bool)
    requires |l| == |d.subOf| && Under(x, d, l, s) && Takes(x.life) && PendingIn(d, l, s) && Chain(d, l, s, [], p, err)
    ensures Landed(x, d, Latched(l, p, err), s, Plain(p, err))
  {
    hide Under, SubAll, TxnSub, TxnBefore, TxnAfter, Closing, Breaks, PendingIn, Fulfil, CommitsBroken;
    var call := Plain(p, err);
    LetInOn(x, d, l, s, p);
    assert Admitted(x, call);
    FulfilIs(x, call);
    var x1 := TxnBefore(x, p, true).value;
    SubUnder(x1, d, l, s, p);
    StillPending(d, l, s);
    assert Body(x1, []) == x1;
    EndOf(x1, d, l, s, p, call);
    var e := Ending(Closing(x1, call), call);
    assert e in Ends(x, call);
    assert call.out.Res? && call.out.tag == 1 <==> err;
  }

  /** Where a call that breaks the contract leaves s: complete, and committed at some end
      inside it into the broken instance; or open, and the latches at l. */
  ghost predicate Landed(x: Inst, d: Desc, l: seq<Latch>, s: nat, call: Act)
    requires Shaped(x) && call.Call? && |l| == |d.subOf|
  {
    if SubAll(d, l, s, Kept) then exists e | e in Ends(x, call) :: CommitsBroken(e, s)
    else
      var y := Fulfil(x, call).0;
      Under(y, d, l, s) && y.life == Broken && (x.txn != [] && s < |x.txn| && x.txn[s] == Open ==> y.txn[s] == Open)
  }

  lemma {:induction false} NestedEnds(x: Inst, d: Desc, l: seq<Latch>, s: nat, qs: seq<nat>, p: nat, err: bool)
    requires |l| == |d.subOf| && Under(x, d, l, s) && Takes(x.life) && PendingIn(d, l, s) && Chain(d, l, s, qs, p, err)
    ensures Landed(x, d, Filled(l, qs, p, err), s, Nested(qs, p, err))
    decreases |qs|
  {
    hide Under, SubAll, TxnSub, TxnBefore, TxnAfter, Closing, Breaks, PendingIn, Fulfil, CommitsBroken;
    if qs == [] {
      InnermostEnds(x, d, l, s, p, err);
    } else {
      var (q, inner) := (qs[0], Nested(qs[1..], p, err));
      var call := Nested(qs, p, err);
      LetInOn(x, d, l, s, q);
      assert Admitted(x, call);
      FulfilIs(x, call);
      var x1 := TxnBefore(x, q, true).value;
      SubUnder(x1, d, l, s, q);
      NestedEnds(x1, d, l, s, qs[1..], p, err);
      OneAct(x1, inner);
      var l2 := Filled(l, qs[1..], p, err);
      FilledIs(l, qs[1..], p, err);
      assert l2[q] == Pending;
      StillPending(d, l2, s) by {
        assert PendingIn(d, l2, s) by {
          PendingAt(d, l2, s, q);
        }
      }
      SubUnder(Body(x1, call.acts), d, l2, s, q);
      EndOf(x1, d, l2, s, q, call);
      assert Ending(Closing(x1, call), call) in Ends(x, call);
    }
  }

  lemma PendingAt(d: Desc, l: seq<Latch>, s: nat, q: nat)
    requires |l| == |d.subOf| && q < |l| && InSub(d, s, q) && l[q] == Pending
    ensures PendingIn(d, l, s)
  {
  }

  /** The pledges of s still pending below n, but for p. */
  function ToCall(d: Desc, l: seq<Latch>, s: nat, p: nat, n: nat): (qs: seq<nat>)
    requires n <= |l| == |d.subOf|
    ensures forall k | 0 <= k < |qs| :: qs[k] < n && InSub(d, s, qs[k]) && l[qs[k]] == Pending && qs[k] != p
    ensures forall q | 0 <= q < n && InSub(d, s, q) && l[q] == Pending && q != p :: q in qs
    ensures forall j, k | 0 <= j < k < |qs| :: qs[j] != qs[k]
  {
    if n == 0 then []
    else
      ToCall(d, l, s, p, n - 1) + if InSub(d, s, n - 1) && l[n - 1] == Pending && n - 1 != p then [n - 1] else []
  }

  /** Every pledge of s called, s is complete. */
  lemma AllCalled(d: Desc, l: seq<Latch>, s: nat, p: nat, err: bool)
    requires |l| == |d.subOf| && p < |l| && l[p] == Pending && Unfailed(d, Latched(l, p, err), s)
    ensures SubAll(d, Filled(l, ToCall(d, l, s, p, |l|), p, err), s, Kept)
  {
    var (qs, l1) := (ToCall(d, l, s, p, |l|), Latched(l, p, err));
    FilledIs(l, qs, p, err);
    var l' := Filled(l, qs, p, err);
    forall i | 0 <= i < |l| && InSub(d, s, i) ensures l'[i] == Kept {
      assert l1[i] != Failed;
    }
  }

  lemma TakesAt(d: Desc, l: seq<Latch>)
    requires |l| == |d.subOf|
    ensures Takes(StateAt(d, l))
  {
  }

  /** The nested calls from a filling that exposes s. */
  lemma ExposedCommits(x: Inst, d: Desc, l: seq<Latch>, s: nat) returns (call: Act)
    requires |l| == |d.subOf| && On(x, d, l, s) && ExposedAt(d, l, s)
    ensures call.Call? && Shaped(x) && exists e | e in Ends(x, call) :: CommitsBroken(e, s)
  {
    hide Under, Breaks, CommitsBroken, Unfailed, SubAll, StateAt;
    var p, err: bool :| 0 <= p < |l| && l[p] == Pending
      && Breaks(d, Latched(l, p, err)) && Unfailed(d, Latched(l, p, err), s);
    var qs := ToCall(d, l, s, p, |l|);
    call := Nested(qs, p, err);
    TakesAt(d, l);
    NotFailed(d, l, s, p, err);
    NestedEnds(x, d, l, s, qs, p, err);
    AllCalled(d, l, s, p, err);
    SubUnder(x, d, l, s, p);
  }

  lemma NotFailed(d: Desc, l: seq<Latch>, s: nat, p: nat, err: bool)
    requires |l| == |d.subOf| && p < |l| && l[p] == Pending && Unfailed(d, Latched(l, p, err), s)
    ensures InSub(d, s, p) ==> !err
  {
    assert InSub(d, s, p) ==> Latched(l, p, err)[p] != Failed;
  }

  /** Some run of a signed instance commits s's episode into an instance already broken. */
  ghost predicate EverCommitsBroken(d: Desc, transactional: seq<bool>, s: nat)
    requires |transactional| == |d.subs|
  {
    exists es: seq<T.Event>, e :: e in RunEnds(Sign(d, transactional, true), es) && CommitsBroken(e, s)
  }

  /** Where s is the only transactional subcontract, some run commits it into an instance
      its policy has already broken exactly when the descriptor exposes it. Where it is not,
      an unexposed s is still safe. */
  lemma CommitsBrokenExactly(d: Desc, transactional: seq<bool>, s: nat)
    requires |transactional| == |d.subs| && s < |transactional| && transactional[s]
    ensures EverCommitsBroken(d, transactional, s) ==> Exposed(d, s)
    ensures OnlyOne(transactional, s) ==> (EverCommitsBroken(d, transactional, s) <==> Exposed(d, s))
  {
    hide ExposedAt, CommitsBroken, Attainable, RunEnds, Ends, On, Starting, Complete, Unfailed, PendingIn;
    var x0 := Sign(d, transactional, true);
    SignUnfinished(d, transactional, s);
    SignJudged(d, transactional);
    if !Exposed(d, s) {
      UnexposedNeverCommitsBroken(x0, [], s);
      forall es: seq<T.Event> ensures forall e | e in RunEnds(x0, es) :: !CommitsBroken(e, s) {
        UnexposedNeverCommitsBroken(x0, es, s);
      }
    }
    if Exposed(d, s) && OnlyOne(transactional, s) {
      var l: seq<Latch> :| |l| == |d.subOf| && Attainable(d, l) && ExposedAt(d, l, s);
      ExposedIsOn(d, l, s);
      var es := SomeRunOn(d, transactional, l, s);
      var call := ExposedCommits(Lives(x0, es), d, l, s);
      var e :| e in Ends(Lives(x0, es), call) && CommitsBroken(e, s);
      LivesSnoc(x0, es, Fulfilment(call));
      LastEnds(Lives(x0, es), call);
      assert e in RunEnds(x0, es + [Fulfilment(call)]);
    }
  }

  lemma LastEnds(x: Inst, call: Act)
    requires Shaped(x) && call.Call?
    ensures RunEnds(x, [Fulfilment(call)]) == Ends(x, call)
  {
    hide Ends, Fulfil;
    assert [Fulfilment(call)][1..] == [];
    assert Ends(x, call) + [] == Ends(x, call);
  }

  lemma SignJudged(d: Desc, transactional: seq<bool>)
    requires |transactional| == |d.subs|
    ensures Judged(Sign(d, transactional, true))
  {
  }

  lemma ExposedIsOn(d: Desc, l: seq<Latch>, s: nat)
    requires |l| == |d.subOf| && ExposedAt(d, l, s)
    ensures PendingIn(d, l, s) && Unfailed(d, l, s)
  {
    hide Breaks;
    var p, err: bool :| 0 <= p < |l| && l[p] == Pending
      && Breaks(d, Latched(l, p, err)) && Unfailed(d, Latched(l, p, err), s);
    FailedStays(d, l, p, err, s);
  }
}
