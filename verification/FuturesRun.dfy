/** One whole life of a small runtime, step by step: a fulfilment whose body makes a nested
    call, delivered with its write back; a second wait refused; an explicit break; a
    synchronous call on the broken instance; and the shutdown. */
module FuturesRun {
  import opened Basics
  import opened Futures

  /** Worker 0 and host thread 1; instance 10 is the host's, 20 the worker's own. */
  predicate At(s: State, worker: Pc, host: Pc, insts: map<Iid, Inst>, futs: map<Fid, Fut>, queue: seq<Fid>) {
    && s.nworkers == 1 && !s.down && s.pcs.Keys <= {0, 1}
    && Pc0(s, 0) == worker && Pc0(s, 1) == host
    && s.insts == insts && s.futs == futs && s.queue == queue
  }

  /** One more step of a run. */
  lemma Goes(steps: seq<Step>, s: State, step: Step, e: Effect) returns (s': State)
    requires RunOf(Init(1), steps) == Some(s) && !s.down && !step.RaiseStop? && !step.FreeAll?
    requires EffectOf(s, step) == Some(e)
    ensures s' == Apply(s, step.t, e) && RunOf(Init(1), steps + [step]) == Some(s')
  {
    s' := Apply(s, step.t, e);
    hide EffectOf;
    Snoc(Init(1), steps, step);
  }

  lemma {:induction false} Snoc(s0: State, steps: seq<Step>, step: Step)
    requires RunOf(s0, steps).Some?
    ensures RunOf(s0, steps + [step]) == Next(RunOf(s0, steps).value, step)
    decreases |steps|
  {
    hide Next;
    if steps == [] {
      assert [] + [step] == [step] && [step][1..] == [];
      assert RunOf(s0, [step]) == match Next(s0, step) case None => None case Some(s') => RunOf(s', []);
    } else {
      assert (steps + [step])[0] == steps[0] && (steps + [step])[1..] == steps[1..] + [step];
      Snoc(Next(s0, steps[0]).value, steps[1..], step);
    }
  }

  const SIGNED := Inst(1, false, true, None, 0)
  const OWN := Inst(0, false, true, None, 0)
  const GONE := Inst(1, true, false, None, 0)

  /** The future from its publication on. */
  const ISSUED := Fut(10, false, 1, true, Outcome(false, false, OK, 0, None, 0), Hold(2, Queued, Linked, 0), None,
                      true, true, true)
  const HELD := ISSUED.(hold := Hold(2, With(0), Linked, 0))
  const DONE := HELD.(out := Outcome(true, false, OK, 7, Some(Published(OK, 7)), 0))
  const RETURNED := DONE.(hold := Hold(1, Dropped, Linked, 0))
  const TAKEN := RETURNED.(out := Outcome(true, true, OK, 7, Some(Published(OK, 7)), 1))
  const LOCKED := SIGNED.(mu := Some(0), depth := 1)

  /** The refused call's, up to its release. */
  const REFUSED := Fut(10, true, 1, true, Outcome(true, false, ErrState, 0, Some(Published(ErrState, 0)), 0),
                       Hold(1, NotQueued, Linked, 0), None, false, false, true)
  const TOLD := REFUSED.(out := REFUSED.out.(waited := true, deliveries := 1))
  const UNLINKED := TOLD.(hold := Hold(1, NotQueued, Unlinked(1), 0))
  const RELEASED := TOLD.(hold := Hold(0, NotQueued, Gone, 1))

  const FIRST := Answer(5, OK, Some(7), true)
  const SECOND := Answer(5, ErrState, None, false)
  const THIRD := Answer(6, ErrState, Some(0), true)

  lemma SignIs(s: State, t: Tid, i: Iid)
    ensures EffectOf(s, Sign(t, i)) == DoSign(s, t, i)
  {
  }

  lemma NewFutureIs(s: State, t: Tid, f: Fid, c: Iid, sync: bool)
    ensures EffectOf(s, NewFuture(t, f, c, sync)) == DoNewFuture(s, t, f, c, sync)
  {
  }

  lemma PrepareIs(s: State, t: Tid, verdict: Status, refs: bool)
    ensures EffectOf(s, Prepare(t, verdict, refs)) == DoPrepare(s, t, verdict, refs)
  {
  }

  lemma PublishIs(s: State, t: Tid)
    ensures EffectOf(s, Publish(t)) == DoPublish(s, t)
  {
  }

  lemma StartWaitIs(s: State, t: Tid, f: Fid)
    ensures EffectOf(s, StartWait(t, f)) == DoStartWait(s, t, f)
  {
  }

  lemma WakeIs(s: State, t: Tid, nrefs: nat)
    ensures EffectOf(s, Wake(t, nrefs)) == DoWake(s, t, nrefs)
  {
  }

  lemma WriteRefIs(s: State, t: Tid)
    ensures EffectOf(s, WriteRef(t)) == DoWriteRef(s, t)
  {
  }

  lemma WriteDoneIs(s: State, t: Tid)
    ensures EffectOf(s, WriteDone(t)) == DoWriteDone(s, t)
  {
  }

  lemma UnlinkIs(s: State, t: Tid)
    ensures EffectOf(s, Unlink(t)) == DoUnlink(s, t)
  {
  }

  lemma DropReceiptIs(s: State, t: Tid)
    ensures EffectOf(s, DropReceipt(t)) == DoDropReceipt(s, t)
  {
  }

  lemma StartBreakIs(s: State, t: Tid, c: Iid)
    ensures EffectOf(s, StartBreak(t, c)) == DoStartBreak(s, t, c)
  {
  }

  lemma ForfeitOneIs(s: State, t: Tid, f: Fid)
    ensures EffectOf(s, ForfeitOne(t, f)) == DoForfeitOne(s, t, f)
  {
  }

  lemma ReclaimIs(s: State, t: Tid)
    ensures EffectOf(s, Reclaim(t)) == DoReclaim(s, t)
  {
  }

  lemma DequeueIs(s: State, t: Tid)
    ensures EffectOf(s, Dequeue(t)) == DoDequeue(s, t)
  {
  }

  lemma ExitIs(s: State, t: Tid)
    ensures EffectOf(s, Exit(t)) == DoExit(s, t)
  {
  }

  lemma LockIs(s: State, t: Tid)
    ensures EffectOf(s, Lock(t)) == DoLock(s, t)
  {
  }

  lemma RunIs(s: State, t: Tid)
    ensures EffectOf(s, Run(t)) == DoRun(s, t)
  {
  }

  lemma NestEnterIs(s: State, t: Tid, x: Iid)
    ensures EffectOf(s, NestEnter(t, x)) == DoNestEnter(s, t, x)
  {
  }

  lemma NestRefuseIs(s: State, t: Tid, x: Iid)
    ensures EffectOf(s, NestRefuse(t, x)) == DoNestRefuse(s, t, x)
  {
  }

  lemma NestExitIs(s: State, t: Tid, breaks: bool)
    ensures EffectOf(s, NestExit(t, breaks)) == DoNestExit(s, t, breaks)
  {
  }

  lemma ReturnIs(s: State, t: Tid, st: Status, val: int, slotsOk: bool, breaks: bool)
    ensures EffectOf(s, Return(t, st, val, slotsOk, breaks)) == DoReturn(s, t, st, val, slotsOk, breaks)
  {
  }

  lemma UnlockIs(s: State, t: Tid)
    ensures EffectOf(s, Unlock(t)) == DoUnlock(s, t)
  {
  }

  lemma DropPoolIs(s: State, t: Tid)
    ensures EffectOf(s, DropPool(t)) == DoDropPool(s, t)
  {
  }

  /** Signed, and a fulfilment begun. */
  lemma Signs(steps: seq<Step>, s: State) returns (s': State)
    requires RunOf(Init(1), steps) == Some(s) && s.answers == [] && !s.stop
    requires At(s, WIdle, Idle, map[],
                map[], [])
    ensures RunOf(Init(1), steps + [Sign(1, 10), NewFuture(1, 5, 10, false)])
            == Some(s')
    ensures s'.answers == [] && !s'.stop
    ensures At(s', WIdle, Preparing(5), map[10 := SIGNED],
               map[5 := Fresh(10, false, 1)], [])
  {
    hide RunOf, EffectOf;
    SignIs(s, 1, 10);
    var s1 := Goes(steps, s, Sign(1, 10),
      DoSign(s, 1, 10).value);
    assert At(s1, WIdle, Idle, map[10 := SIGNED],
              map[], []);
    NewFutureIs(s1, 1, 5, 10, false);
    s' := Goes(steps + [Sign(1, 10)], s1, NewFuture(1, 5, 10, false),
      DoNewFuture(s1, 1, 5, 10, false).value);
    assert steps + [Sign(1, 10)] + [NewFuture(1, 5, 10, false)]
           == steps + [Sign(1, 10), NewFuture(1, 5, 10, false)];
  }

  /** Copied in and published. */
  lemma Prepares(steps: seq<Step>, s: State) returns (s': State)
    requires RunOf(Init(1), steps) == Some(s) && s.answers == [] && !s.stop
    requires At(s, WIdle, Preparing(5), map[10 := SIGNED],
                map[5 := Fresh(10, false, 1)], [])
    ensures RunOf(Init(1), steps + [Prepare(1, OK, true), Publish(1)])
            == Some(s')
    ensures s'.answers == [] && !s'.stop
    ensures At(s', WIdle, Idle, map[10 := SIGNED],
               map[5 := ISSUED], [5])
  {
    hide RunOf, EffectOf;
    PrepareIs(s, 1, OK, true);
    var s1 := Goes(steps, s, Prepare(1, OK, true),
      DoPrepare(s, 1, OK, true).value);
    assert At(s1, WIdle, Publishing(5, true, OK), map[10 := SIGNED],
              map[5 := Fresh(10, false, 1).(pointers := true, hasRefs := true)], []);
    PublishIs(s1, 1);
    s' := Goes(steps + [Prepare(1, OK, true)], s1, Publish(1),
      DoPublish(s1, 1).value);
    assert steps + [Prepare(1, OK, true)] + [Publish(1)]
           == steps + [Prepare(1, OK, true), Publish(1)];
  }

  /** In the hands of the worker, under the instance lock. */
  lemma Dequeues(steps: seq<Step>, s: State) returns (s': State)
    requires RunOf(Init(1), steps) == Some(s) && s.answers == [] && !s.stop
    requires At(s, WIdle, Idle, map[10 := SIGNED],
                map[5 := ISSUED], [5])
    ensures RunOf(Init(1), steps + [Dequeue(0), Lock(0)])
            == Some(s')
    ensures s'.answers == [] && !s'.stop
    ensures At(s', WLocked(5), Idle, map[10 := LOCKED],
               map[5 := HELD], [])
  {
    hide RunOf, EffectOf;
    DequeueIs(s, 0);
    var s1 := Goes(steps, s, Dequeue(0),
      DoDequeue(s, 0).value);
    assert At(s1, WHave(5), Idle, map[10 := SIGNED],
              map[5 := HELD], []);
    LockIs(s1, 0);
    s' := Goes(steps + [Dequeue(0)], s1, Lock(0),
      DoLock(s1, 0).value);
    assert steps + [Dequeue(0)] + [Lock(0)]
           == steps + [Dequeue(0), Lock(0)];
  }

  /** Its body runs, and signs an instance of its own. */
  lemma Runs(steps: seq<Step>, s: State) returns (s': State)
    requires RunOf(Init(1), steps) == Some(s) && s.answers == [] && !s.stop
    requires At(s, WLocked(5), Idle, map[10 := LOCKED],
                map[5 := HELD], [])
    ensures RunOf(Init(1), steps + [Run(0), Sign(0, 20)])
            == Some(s')
    ensures s'.answers == [] && !s'.stop
    ensures At(s', WRunning(5, []), Idle, map[10 := LOCKED, 20 := OWN],
               map[5 := HELD], [])
  {
    hide RunOf, EffectOf;
    RunIs(s, 0);
    var s1 := Goes(steps, s, Run(0),
      DoRun(s, 0).value);
    assert At(s1, WRunning(5, []), Idle, map[10 := LOCKED],
              map[5 := HELD], []);
    SignIs(s1, 0, 20);
    s' := Goes(steps + [Run(0)], s1, Sign(0, 20),
      DoSign(s1, 0, 20).value);
    assert steps + [Run(0)] + [Sign(0, 20)]
           == steps + [Run(0), Sign(0, 20)];
  }

  /** It calls that instance, and the nested body calls it again. */
  lemma Nests(steps: seq<Step>, s: State) returns (s': State)
    requires RunOf(Init(1), steps) == Some(s) && s.answers == [] && !s.stop
    requires At(s, WRunning(5, []), Idle, map[10 := LOCKED, 20 := OWN],
                map[5 := HELD], [])
    ensures RunOf(Init(1), steps + [NestEnter(0, 20), NestEnter(0, 20)])
            == Some(s')
    ensures s'.answers == [] && !s'.stop
    ensures At(s', WRunning(5, [20, 20]), Idle, map[10 := LOCKED, 20 := OWN.(mu := Some(0), depth := 2)],
               map[5 := HELD], [])
  {
    hide RunOf, EffectOf;
    NestEnterIs(s, 0, 20);
    var s1 := Goes(steps, s, NestEnter(0, 20),
      DoNestEnter(s, 0, 20).value);
    assert At(s1, WRunning(5, [20]), Idle, map[10 := LOCKED, 20 := OWN.(mu := Some(0), depth := 1)],
              map[5 := HELD], []);
    NestEnterIs(s1, 0, 20);
    s' := Goes(steps + [NestEnter(0, 20)], s1, NestEnter(0, 20),
      DoNestEnter(s1, 0, 20).value);
    assert steps + [NestEnter(0, 20)] + [NestEnter(0, 20)]
           == steps + [NestEnter(0, 20), NestEnter(0, 20)];
  }

  /** Both return. */
  lemma NestsOut(steps: seq<Step>, s: State) returns (s': State)
    requires RunOf(Init(1), steps) == Some(s) && s.answers == [] && !s.stop
    requires At(s, WRunning(5, [20, 20]), Idle, map[10 := LOCKED, 20 := OWN.(mu := Some(0), depth := 2)],
                map[5 := HELD], [])
    ensures RunOf(Init(1), steps + [NestExit(0, false), NestExit(0, false)])
            == Some(s')
    ensures s'.answers == [] && !s'.stop
    ensures At(s', WRunning(5, []), Idle, map[10 := LOCKED, 20 := OWN],
               map[5 := HELD], [])
  {
    hide RunOf, EffectOf;
    NestExitIs(s, 0, false);
    var s1 := Goes(steps, s, NestExit(0, false),
      DoNestExit(s, 0, false).value);
    assert At(s1, WRunning(5, [20]), Idle, map[10 := LOCKED, 20 := OWN.(mu := Some(0), depth := 1)],
              map[5 := HELD], []);
    NestExitIs(s1, 0, false);
    s' := Goes(steps + [NestExit(0, false)], s1, NestExit(0, false),
      DoNestExit(s1, 0, false).value);
    assert steps + [NestExit(0, false)] + [NestExit(0, false)]
           == steps + [NestExit(0, false), NestExit(0, false)];
  }

  /** A call is refused, and the body returns. */
  lemma Returns(steps: seq<Step>, s: State) returns (s': State)
    requires RunOf(Init(1), steps) == Some(s) && s.answers == [] && !s.stop
    requires At(s, WRunning(5, []), Idle, map[10 := LOCKED, 20 := OWN],
                map[5 := HELD], [])
    ensures RunOf(Init(1), steps + [NestRefuse(0, 20), Return(0, OK, 7, true, false)])
            == Some(s')
    ensures s'.answers == [] && !s'.stop
    ensures At(s', WFinished(5), Idle, map[10 := LOCKED, 20 := OWN],
               map[5 := DONE], [])
  {
    hide RunOf, EffectOf;
    NestRefuseIs(s, 0, 20);
    var s1 := Goes(steps, s, NestRefuse(0, 20),
      DoNestRefuse(s, 0, 20).value);
    assert At(s1, WRunning(5, []), Idle, map[10 := LOCKED, 20 := OWN],
              map[5 := HELD], []);
    ReturnIs(s1, 0, OK, 7, true, false);
    s' := Goes(steps + [NestRefuse(0, 20)], s1, Return(0, OK, 7, true, false),
      DoReturn(s1, 0, OK, 7, true, false).value);
    assert steps + [NestRefuse(0, 20)] + [Return(0, OK, 7, true, false)]
           == steps + [NestRefuse(0, 20), Return(0, OK, 7, true, false)];
  }

  /** Unlocked, and the pool lets go. */
  lemma Unlocks(steps: seq<Step>, s: State) returns (s': State)
    requires RunOf(Init(1), steps) == Some(s) && s.answers == [] && !s.stop
    requires At(s, WFinished(5), Idle, map[10 := LOCKED, 20 := OWN],
                map[5 := DONE], [])
    ensures RunOf(Init(1), steps + [Unlock(0), DropPool(0)])
            == Some(s')
    ensures s'.answers == [] && !s'.stop
    ensures At(s', WIdle, Idle, map[10 := SIGNED, 20 := OWN],
               map[5 := RETURNED], [])
  {
    hide RunOf, EffectOf;
    UnlockIs(s, 0);
    var s1 := Goes(steps, s, Unlock(0),
      DoUnlock(s, 0).value);
    assert At(s1, WDropping(5), Idle, map[10 := SIGNED, 20 := OWN],
              map[5 := DONE], []);
    DropPoolIs(s1, 0);
    s' := Goes(steps + [Unlock(0)], s1, DropPool(0),
      DoDropPool(s1, 0).value);
    assert steps + [Unlock(0)] + [DropPool(0)]
           == steps + [Unlock(0), DropPool(0)];
  }

  /** The wait takes it. */
  lemma Waits(steps: seq<Step>, s: State) returns (s': State)
    requires RunOf(Init(1), steps) == Some(s) && s.answers == [] && !s.stop
    requires At(s, WIdle, Idle, map[10 := SIGNED, 20 := OWN],
                map[5 := RETURNED], [])
    ensures RunOf(Init(1), steps + [StartWait(1, 5), Wake(1, 1)])
            == Some(s')
    ensures s'.answers == [] && !s'.stop
    ensures At(s', WIdle, Writing(5, 1), map[10 := SIGNED, 20 := OWN],
               map[5 := TAKEN.(mu := Some(1))], [])
  {
    hide RunOf, EffectOf;
    StartWaitIs(s, 1, 5);
    var s1 := Goes(steps, s, StartWait(1, 5),
      DoStartWait(s, 1, 5).value);
    assert At(s1, WIdle, Waiting(5), map[10 := SIGNED, 20 := OWN],
              map[5 := RETURNED], []);
    WakeIs(s1, 1, 1);
    s' := Goes(steps + [StartWait(1, 5)], s1, Wake(1, 1),
      DoWake(s1, 1, 1).value);
    assert steps + [StartWait(1, 5)] + [Wake(1, 1)]
           == steps + [StartWait(1, 5), Wake(1, 1)];
  }

  /** It writes one slot back and answers. */
  lemma Writes(steps: seq<Step>, s: State) returns (s': State)
    requires RunOf(Init(1), steps) == Some(s) && s.answers == [] && !s.stop
    requires At(s, WIdle, Writing(5, 1), map[10 := SIGNED, 20 := OWN],
                map[5 := TAKEN.(mu := Some(1))], [])
    ensures RunOf(Init(1), steps + [WriteRef(1), WriteDone(1)])
            == Some(s')
    ensures s'.answers == [FIRST] && !s'.stop
    ensures At(s', WIdle, Idle, map[10 := SIGNED, 20 := OWN],
               map[5 := TAKEN], [])
  {
    hide RunOf, EffectOf;
    WriteRefIs(s, 1);
    var s1 := Goes(steps, s, WriteRef(1),
      DoWriteRef(s, 1).value);
    assert At(s1, WIdle, Writing(5, 0), map[10 := SIGNED, 20 := OWN],
              map[5 := TAKEN.(mu := Some(1))], []);
    WriteDoneIs(s1, 1);
    s' := Goes(steps + [WriteRef(1)], s1, WriteDone(1),
      DoWriteDone(s1, 1).value);
    assert steps + [WriteRef(1)] + [WriteDone(1)]
           == steps + [WriteRef(1), WriteDone(1)];
  }

  /** The next wait is refused. */
  lemma WaitsAgain(steps: seq<Step>, s: State) returns (s': State)
    requires RunOf(Init(1), steps) == Some(s) && s.answers == [FIRST] && !s.stop
    requires At(s, WIdle, Idle, map[10 := SIGNED, 20 := OWN],
                map[5 := TAKEN], [])
    ensures RunOf(Init(1), steps + [StartWait(1, 5), Wake(1, 0)])
            == Some(s')
    ensures s'.answers == [FIRST, SECOND] && !s'.stop
    ensures At(s', WIdle, Idle, map[10 := SIGNED, 20 := OWN],
               map[5 := TAKEN], [])
  {
    hide RunOf, EffectOf;
    StartWaitIs(s, 1, 5);
    var s1 := Goes(steps, s, StartWait(1, 5),
      DoStartWait(s, 1, 5).value);
    assert At(s1, WIdle, Waiting(5), map[10 := SIGNED, 20 := OWN],
              map[5 := TAKEN], []);
    WakeIs(s1, 1, 0);
    s' := Goes(steps + [StartWait(1, 5)], s1, Wake(1, 0),
      DoWake(s1, 1, 0).value);
    assert steps + [StartWait(1, 5)] + [Wake(1, 0)]
           == steps + [StartWait(1, 5), Wake(1, 0)];
  }

  /** The break takes the lock and the list. */
  lemma Breaks(steps: seq<Step>, s: State) returns (s': State)
    requires RunOf(Init(1), steps) == Some(s) && s.answers == [FIRST, SECOND] && !s.stop
    requires At(s, WIdle, Idle, map[10 := SIGNED, 20 := OWN],
                map[5 := TAKEN], [])
    ensures RunOf(Init(1), steps + [StartBreak(1, 10)])
            == Some(s')
    ensures s'.answers == [FIRST, SECOND] && !s'.stop
    ensures At(s', WIdle, Breaking(10, {5}), map[10 := SIGNED.(mu := Some(1), depth := 1), 20 := OWN],
               map[5 := TAKEN], [])
  {
    hide RunOf, EffectOf;
    assert ListOf(s, 10) == {5};
    StartBreakIs(s, 1, 10);
    s' := Goes(steps, s, StartBreak(1, 10),
      DoStartBreak(s, 1, 10).value);
  }

  /** It walks the list. */
  lemma Forfeits(steps: seq<Step>, s: State) returns (s': State)
    requires RunOf(Init(1), steps) == Some(s) && s.answers == [FIRST, SECOND] && !s.stop
    requires At(s, WIdle, Breaking(10, {5}), map[10 := SIGNED.(mu := Some(1), depth := 1), 20 := OWN],
                map[5 := TAKEN], [])
    ensures RunOf(Init(1), steps + [ForfeitOne(1, 5)])
            == Some(s')
    ensures s'.answers == [FIRST, SECOND] && !s'.stop
    ensures At(s', WIdle, Breaking(10, {}), map[10 := SIGNED.(mu := Some(1), depth := 1), 20 := OWN],
               map[5 := TAKEN], [])
  {
    hide RunOf, EffectOf;
    ForfeitOneIs(s, 1, 5);
    s' := Goes(steps, s, ForfeitOne(1, 5),
      DoForfeitOne(s, 1, 5).value);
  }

  /** It reclaims the heap, and a synchronous call comes. */
  lemma Reclaims(steps: seq<Step>, s: State) returns (s': State)
    requires RunOf(Init(1), steps) == Some(s) && s.answers == [FIRST, SECOND] && !s.stop
    requires At(s, WIdle, Breaking(10, {}), map[10 := SIGNED.(mu := Some(1), depth := 1), 20 := OWN],
                map[5 := TAKEN], [])
    ensures RunOf(Init(1), steps + [Reclaim(1), NewFuture(1, 6, 10, true)])
            == Some(s')
    ensures s'.answers == [FIRST, SECOND] && !s'.stop
    ensures At(s', WIdle, Preparing(6), map[10 := GONE, 20 := OWN],
               map[5 := TAKEN, 6 := Fresh(10, true, 1)], [])
  {
    hide RunOf, EffectOf;
    ReclaimIs(s, 1);
    var s1 := Goes(steps, s, Reclaim(1),
      DoReclaim(s, 1).value);
    assert At(s1, WIdle, Idle, map[10 := GONE, 20 := OWN],
              map[5 := TAKEN], []);
    NewFutureIs(s1, 1, 6, 10, true);
    s' := Goes(steps + [Reclaim(1)], s1, NewFuture(1, 6, 10, true),
      DoNewFuture(s1, 1, 6, 10, true).value);
    assert steps + [Reclaim(1)] + [NewFuture(1, 6, 10, true)]
           == steps + [Reclaim(1), NewFuture(1, 6, 10, true)];
  }

  /** The call is refused on the spot. */
  lemma Refuses(steps: seq<Step>, s: State) returns (s': State)
    requires RunOf(Init(1), steps) == Some(s) && s.answers == [FIRST, SECOND] && !s.stop
    requires At(s, WIdle, Preparing(6), map[10 := GONE, 20 := OWN],
                map[5 := TAKEN, 6 := Fresh(10, true, 1)], [])
    ensures RunOf(Init(1), steps + [Prepare(1, OK, false), Publish(1)])
            == Some(s')
    ensures s'.answers == [FIRST, SECOND] && !s'.stop
    ensures At(s', WIdle, Waiting(6), map[10 := GONE, 20 := OWN],
               map[5 := TAKEN, 6 := REFUSED], [])
  {
    hide RunOf, EffectOf;
    PrepareIs(s, 1, OK, false);
    var s1 := Goes(steps, s, Prepare(1, OK, false),
      DoPrepare(s, 1, OK, false).value);
    assert At(s1, WIdle, Publishing(6, false, ErrState), map[10 := GONE, 20 := OWN],
              map[5 := TAKEN, 6 := Fresh(10, true, 1)], []);
    PublishIs(s1, 1);
    s' := Goes(steps + [Prepare(1, OK, false)], s1, Publish(1),
      DoPublish(s1, 1).value);
    assert steps + [Prepare(1, OK, false)] + [Publish(1)]
           == steps + [Prepare(1, OK, false), Publish(1)];
  }

  /** It is told so, and unlinks its receipt. */
  lemma Told(steps: seq<Step>, s: State) returns (s': State)
    requires RunOf(Init(1), steps) == Some(s) && s.answers == [FIRST, SECOND] && !s.stop
    requires At(s, WIdle, Waiting(6), map[10 := GONE, 20 := OWN],
                map[5 := TAKEN, 6 := REFUSED], [])
    ensures RunOf(Init(1), steps + [Wake(1, 0), Unlink(1)])
            == Some(s')
    ensures s'.answers == [FIRST, SECOND, THIRD] && !s'.stop
    ensures At(s', WIdle, Unreffing(6), map[10 := GONE, 20 := OWN],
               map[5 := TAKEN, 6 := UNLINKED], [])
  {
    hide RunOf, EffectOf;
    WakeIs(s, 1, 0);
    var s1 := Goes(steps, s, Wake(1, 0),
      DoWake(s, 1, 0).value);
    assert At(s1, WIdle, Releasing(6), map[10 := GONE, 20 := OWN],
              map[5 := TAKEN, 6 := TOLD], []);
    UnlinkIs(s1, 1);
    s' := Goes(steps + [Wake(1, 0)], s1, Unlink(1),
      DoUnlink(s1, 1).value);
    assert steps + [Wake(1, 0)] + [Unlink(1)]
           == steps + [Wake(1, 0), Unlink(1)];
  }

  /** The receipt is dropped. */
  lemma Releases(steps: seq<Step>, s: State) returns (s': State)
    requires RunOf(Init(1), steps) == Some(s) && s.answers == [FIRST, SECOND, THIRD] && !s.stop
    requires At(s, WIdle, Unreffing(6), map[10 := GONE, 20 := OWN],
                map[5 := TAKEN, 6 := UNLINKED], [])
    ensures RunOf(Init(1), steps + [DropReceipt(1)])
            == Some(s')
    ensures s'.answers == [FIRST, SECOND, THIRD] && !s'.stop
    ensures At(s', WIdle, Idle, map[10 := GONE, 20 := OWN],
               map[5 := TAKEN, 6 := RELEASED], [])
  {
    hide RunOf, EffectOf;
    DropReceiptIs(s, 1);
    s' := Goes(steps, s, DropReceipt(1),
      DoDropReceipt(s, 1).value);
  }

  lemma Shuts(steps: seq<Step>, s: State) returns (s': State)
    requires RunOf(Init(1), steps) == Some(s) && s.answers == [FIRST, SECOND, THIRD] && !s.stop
    requires At(s, WIdle, Idle, map[10 := GONE, 20 := OWN],
                map[5 := TAKEN, 6 := RELEASED], [])
    ensures RunOf(Init(1), steps + [RaiseStop, Exit(0), FreeAll]) == Some(s') && s'.answers == s.answers && s'.down
    ensures 5 in s'.futs && s'.futs[5].hold.frees == 1 && 6 in s'.futs && s'.futs[6].hold.frees == 1
  {
    hide RunOf, EffectOf;
    forall t | t in s.pcs ensures s.pcs[t] == Idle || s.pcs[t] == WIdle {
      assert Pc0(s, t) == s.pcs[t];
    }
    var s1 := DoRaiseStop(s).value;
    Snoc(Init(1), steps, RaiseStop);
    ExitIs(s1, 0);
    var s2 := Goes(steps + [RaiseStop], s1, Exit(0), DoExit(s1, 0).value);
    assert steps + [RaiseStop] + [Exit(0)] == steps + [RaiseStop, Exit(0)];
    forall t | t in s2.pcs && IsHost(s2, t) ensures s2.pcs[t] == Idle {
      assert Pc0(s2, t) == s2.pcs[t];
    }
    s' := DoFreeAll(s2).value;
    Snoc(Init(1), steps + [RaiseStop, Exit(0)], FreeAll);
    assert steps + [RaiseStop, Exit(0)] + [FreeAll] == steps + [RaiseStop, Exit(0), FreeAll];
  }

  /** The whole of it: the first wait answers what the body returned, the second and the call
      on the broken instance ErrState, and both futures end freed once. */
  lemma Life() returns (steps: seq<Step>)
    ensures RunOf(Init(1), steps).Some? && Reachable(RunOf(Init(1), steps).value)
    ensures Return(0, OK, 7, true, false) in steps && Reclaim(1) in steps
    ensures var s := RunOf(Init(1), steps).value;
            && s.answers == [Answer(5, OK, Some(7), true), Answer(5, ErrState, None, false),
                             Answer(6, ErrState, Some(0), true)]
            && s.down && 5 in s.futs && s.futs[5].hold.frees == 1 && 6 in s.futs && s.futs[6].hold.frees == 1
  {
    assert RunOf(Init(1), []) == Some(Init(1));
    hide RunOf, Reachable;
    steps := [];
    var s := Init(1);
    s := Signs(steps, s);
    steps := steps + [Sign(1, 10), NewFuture(1, 5, 10, false)];
    s := Prepares(steps, s);
    steps := steps + [Prepare(1, OK, true), Publish(1)];
    s := Dequeues(steps, s);
    steps := steps + [Dequeue(0), Lock(0)];
    s := Runs(steps, s);
    steps := steps + [Run(0), Sign(0, 20)];
    s := Nests(steps, s);
    steps := steps + [NestEnter(0, 20), NestEnter(0, 20)];
    s := NestsOut(steps, s);
    steps := steps + [NestExit(0, false), NestExit(0, false)];
    s := Returns(steps, s);
    steps := steps + [NestRefuse(0, 20), Return(0, OK, 7, true, false)];
    s := Unlocks(steps, s);
    steps := steps + [Unlock(0), DropPool(0)];
    s := Waits(steps, s);
    steps := steps + [StartWait(1, 5), Wake(1, 1)];
    s := Writes(steps, s);
    steps := steps + [WriteRef(1), WriteDone(1)];
    s := WaitsAgain(steps, s);
    steps := steps + [StartWait(1, 5), Wake(1, 0)];
    s := Breaks(steps, s);
    steps := steps + [StartBreak(1, 10)];
    s := Forfeits(steps, s);
    steps := steps + [ForfeitOne(1, 5)];
    s := Reclaims(steps, s);
    steps := steps + [Reclaim(1), NewFuture(1, 6, 10, true)];
    s := Refuses(steps, s);
    steps := steps + [Prepare(1, OK, false), Publish(1)];
    s := Told(steps, s);
    steps := steps + [Wake(1, 0), Unlink(1)];
    s := Releases(steps, s);
    steps := steps + [DropReceipt(1)];
    s := Shuts(steps, s);
    steps := steps + [RaiseStop, Exit(0), FreeAll];
    Reaches(steps, s);
  }

  lemma Reaches(steps: seq<Step>, s: State)
    requires RunOf(Init(1), steps) == Some(s)
    ensures Reachable(s)
  {
    hide RunOf;
  }
}
