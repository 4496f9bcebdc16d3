/** What a wait answers: exactly what the body returned or the call was refused with, unless
    an explicit break came between, over every interleaving. */
module FuturesHonest {
  import opened Basics
  import opened Futures
  import opened FuturesInv
  import S = FuturesSafety

  // ---- outcomes ----

  /** The outcome a future holds is the one that was published. */
  predicate Own(o: Outcome) {
    o.pub == Some(Published(o.st, o.val))
  }

  /** An explicit break has reclaimed the instance, or is under way on it. */
  predicate Torn(s: State, c: Iid) {
    c in s.insts && (!s.insts[c].heap || BreakUnderWay(s, c))
  }

  /** A decided future holds what was published, or what an explicit break put in its place. */
  predicate DoneOk(s: State, fut: Fut) {
    fut.out.done ==> Own(fut.out) || (fut.out.st == ErrState && fut.out.val == 0 && Torn(s, fut.c))
  }

  /** What the one wait that takes a decided future answers: its outcome, or the type refusal
      of the slots it was to write back. */
  function Verdict(fut: Fut): (Status, Option<int>) {
    if fut.out.st == OK && fut.hasRefs && !fut.slotsOk then (ErrType, None) else (fut.out.st, Some(fut.out.val))
  }

  predicate TakenBefore(answers: seq<Answer>, n: nat, f: Fid) {
    exists j | 0 <= j < n && j < |answers| :: answers[j].f == f && answers[j].took
  }

  predicate AnswerIs(s: State, k: nat)
    requires k < |s.answers|
  {
    var a := s.answers[k];
    && a.f in s.futs
    && if a.took then
         s.futs[a.f].out.waited && s.futs[a.f].mu == None && (a.st, a.val) == Verdict(s.futs[a.f])
       else (a.st, a.val) == (ErrState, None) && TakenBefore(s.answers, k, a.f)
  }

  predicate FutHonest(s: State, f: Fid)
    requires f in s.futs
  {
    var fut := s.futs[f];
    && DoneOk(s, fut) && (fut.hasRefs ==> fut.pointers)
    && (InPool(fut.hold) && !fut.out.done ==> fut.pointers)
    && (fut.out.waited && fut.mu == None ==> TakenBefore(s.answers, |s.answers|, f))
  }

  /** Only slots of the right types are written back, and a future on its way to the pool has
      its frame, unless a break has decided it. */
  predicate PcHonest(s: State, t: Tid) {
    var pc := Pc0(s, t);
    && (pc.Writing? ==> pc.f in s.futs && s.futs[pc.f].slotsOk)
    && (pc.Publishing? && pc.ready ==> pc.f in s.futs && (s.futs[pc.f].pointers || s.futs[pc.f].out.done))
  }

  ghost predicate Honest(s: State) {
    && (forall t: Tid :: PcHonest(s, t))
    && (forall f | f in s.futs :: FutHonest(s, f))
    && (forall k | 0 <= k < |s.answers| :: AnswerIs(s, k))
  }

  // ---- one step ----

  /** What a step does to the future it changes. */
  predicate Moves(s: State, step: Step, a: Fut, b: Fut) {
    && b.c == a.c
    && (a.out.waited ==>
          b.out.waited && b.out.st == a.out.st && b.out.val == a.out.val && b.hasRefs == a.hasRefs
          && b.slotsOk == a.slotsOk && (a.mu == None ==> b.mu == None))
    && (b.out.done ==>
          || Own(b.out) || (a.out.done && b.out.st == a.out.st && b.out.val == a.out.val && b.out.pub == a.out.pub)
          || (step.ForfeitOne? && b.out.st == ErrState && b.out.val == 0 && BreakUnderWay(s, a.c)))
    && ((a.hasRefs ==> a.pointers) ==> (b.hasRefs ==> b.pointers))
    && (a.out.done ==> b.out.done) && (!step.Prepare? && !b.out.done ==> b.pointers == a.pointers)
    && (InPool(b.hold) && !step.Publish? ==> InPool(a.hold) && !step.Prepare?)
    && (InPool(b.hold) && step.Publish? ==> Pc0(s, step.t).Publishing? && Pc0(s, step.t).ready)
  }

  lemma CallMoves(s: State, step: Step, e: Effect)
    requires Inv(s) && !s.down && (step.Prepare? || step.Publish? || step.StartWait? || step.Wake? || step.WriteDone?)
    requires EffectOf(s, step) == Some(e) && e.fut.Some?
    ensures e.fut.value.0 in s.futs && Moves(s, step, s.futs[e.fut.value.0], e.fut.value.1)
  {
    hide Inv;
    PlaceOf(s, step.t);
    FutureOf(s, e.fut.value.0);
  }

  lemma HoldMoves(s: State, step: Step, e: Effect)
    requires Inv(s) && !s.down && (step.Unlink? || step.DropReceipt? || step.Dequeue? || step.DropPool?)
    requires EffectOf(s, step) == Some(e) && e.fut.Some?
    ensures e.fut.value.0 in s.futs && Moves(s, step, s.futs[e.fut.value.0], e.fut.value.1)
  {
    hide Inv;
    if step.Dequeue? {
      HeadOf(s);
    }
  }

  lemma TaskMoves(s: State, step: Step, e: Effect)
    requires Inv(s) && !s.down && (step.ForfeitOne? || step.Refuse? || step.Return?)
    requires EffectOf(s, step) == Some(e) && e.fut.Some?
    ensures e.fut.value.0 in s.futs && Moves(s, step, s.futs[e.fut.value.0], e.fut.value.1)
  {
    hide Inv;
    PlaceOf(s, step.t);
    FutureOf(s, e.fut.value.0);
  }

  lemma EachMoves(s: State, step: Step, e: Effect)
    requires Inv(s) && !s.down && ThreadStep(step) && EffectOf(s, step) == Some(e) && e.fut.Some?
    ensures if step.NewFuture? then e.fut.value.1 == Fresh(step.c, step.sync, step.t) && e.fut.value.0 !in s.futs
            else e.fut.value.0 in s.futs && Moves(s, step, s.futs[e.fut.value.0], e.fut.value.1)
  {
    hide Inv, Moves;
    match step
    case ForfeitOne(_, _) => TaskMoves(s, step, e);
    case Refuse(_, _) => TaskMoves(s, step, e);
    case Return(_, _, _, _, _) => TaskMoves(s, step, e);
    case Unlink(_) => HoldMoves(s, step, e);
    case DropReceipt(_) => HoldMoves(s, step, e);
    case Dequeue(_) => HoldMoves(s, step, e);
    case DropPool(_) => HoldMoves(s, step, e);
    case Prepare(_, _, _) => CallMoves(s, step, e);
    case Publish(_) => CallMoves(s, step, e);
    case StartWait(_, _) => CallMoves(s, step, e);
    case Wake(_, _) => CallMoves(s, step, e);
    case WriteDone(_) => CallMoves(s, step, e);
    case _ =>
  }

  /** A torn instance stays torn, whichever step is next. */
  lemma TornStays(s: State, step: Step, e: Effect, c: Iid)
    requires Inv(s) && !s.down && ThreadStep(step) && EffectOf(s, step) == Some(e) && Torn(s, c)
    ensures Torn(Apply(s, step.t, e), c)
  {
    hide Inv;
    if c in s.insts && s.insts[c].heap {
      BreakHolds(s, step, e, c);
    } else {
      HeapGone(s, step, e, c);
    }
  }

  lemma HeapGone(s: State, step: Step, e: Effect, c: Iid)
    requires ThreadStep(step) && EffectOf(s, step) == Some(e) && c in s.insts && !s.insts[c].heap
    ensures c in Apply(s, step.t, e).insts && !Apply(s, step.t, e).insts[c].heap
  {
    hide EffectOf;
    if e.inst.Some? && e.inst.value.0 in s.insts {
      NoHeapBack(s, step, e);
    }
  }

  lemma NoHeapBack(s: State, step: Step, e: Effect)
    requires ThreadStep(step) && EffectOf(s, step) == Some(e) && e.inst.Some? && e.inst.value.0 in s.insts
    ensures e.inst.value.1.heap ==> s.insts[e.inst.value.0].heap
  {
  }

  /** A break under way holds its lock until it has reclaimed the heap. */
  lemma BreakHolds(s: State, step: Step, e: Effect, c: Iid)
    requires Inv(s) && !s.down && ThreadStep(step) && EffectOf(s, step) == Some(e) && BreakUnderWay(s, c)
    ensures Torn(Apply(s, step.t, e), c)
  {
    hide Inv, Owes, OwnOk;
    EachStep(s, step, e);
    var u := s.insts[c].mu.value;
    PlaceOf(s, u);
    if step.t != u {
      OtherHolds(s, step.t, e, c);
    } else {
      BreakerSteps(s, step, e, c);
    }
  }

  lemma OtherHolds(s: State, t: Tid, e: Effect, c: Iid)
    requires Owes(s, t, e) && BreakUnderWay(s, c) && s.insts[c].mu != Some(t)
    ensures BreakUnderWay(Apply(s, t, e), c)
  {
    hide FutGuarantee, BreakOk, GripOk, HeapLossOk;
  }

  lemma BreakerSteps(s: State, step: Step, e: Effect, c: Iid)
    requires ThreadStep(step) && EffectOf(s, step) == Some(e) && BreakUnderWay(s, c) && s.insts[c].mu == Some(step.t)
    ensures Torn(Apply(s, step.t, e), c)
  {
  }

  /** The answer a step records, if it records one. */
  predicate Records(s: State, e: Effect) {
    || e.answers == s.answers
    || (&& |e.answers| == |s.answers| + 1 && e.answers[..|s.answers|] == s.answers
        && e.fut.Some? && e.fut.value.0 in s.futs
        && var (f, a, b) := (e.fut.value.0, s.futs[e.fut.value.0], e.fut.value.1);
           var x := e.answers[|s.answers|];
           && x.f == f
           && if x.took then b.out.waited && b.mu == None && (x.st, x.val) == Verdict(b)
              else (x.st, x.val) == (ErrState, None) && a.out.waited && a.mu == None)
  }

  /** The wait that leaves a future taken and unlocked records that it took it. */
  predicate Leaves(s: State, e: Effect) {
    e.fut.Some? && e.fut.value.1.out.waited && e.fut.value.1.mu == None ==>
      && e.fut.value.0 in s.futs
      && (|| (s.futs[e.fut.value.0].out.waited && s.futs[e.fut.value.0].mu == None)
          || (|e.answers| == |s.answers| + 1 && e.answers[|s.answers|].took
              && e.answers[|s.answers|].f == e.fut.value.0))
  }

  lemma WaitRecords(s: State, step: Step, e: Effect)
    requires Inv(s) && Honest(s) && !s.down && (step.Wake? || step.WriteDone?) && EffectOf(s, step) == Some(e)
    ensures Records(s, e) && Leaves(s, e)
  {
    hide Inv;
    PlaceOf(s, step.t);
    FutureOf(s, Pc0(s, step.t).f);
    assert FutHonest(s, Pc0(s, step.t).f) && PcHonest(s, step.t);
    hide Honest;
  }

  lemma OthersQuiet(s: State, step: Step, e: Effect)
    requires Inv(s) && !s.down && ThreadStep(step) && !step.Wake? && !step.WriteDone? && EffectOf(s, step) == Some(e)
    ensures e.answers == s.answers && Leaves(s, e)
  {
    hide Inv;
  }

  // ---- every step ----

  lemma FutKept(s: State, step: Step, e: Effect, f: Fid)
    requires Inv(s) && Honest(s) && !s.down && ThreadStep(step) && EffectOf(s, step) == Some(e)
    requires Records(s, e) && Leaves(s, e)
    requires f in Apply(s, step.t, e).futs
    ensures FutHonest(Apply(s, step.t, e), f)
  {
    hide Inv, EffectOf, BreakUnderWay, Honest;
    var s' := Apply(s, step.t, e);
    if f in s.futs {
      assert FutHonest(s, f) by {
        OneHonest(s, f);
      }
      if Torn(s, s.futs[f].c) {
        TornStays(s, step, e, s.futs[f].c);
      }
      if e.fut.Some? && e.fut.value.0 == f {
        EachMoves(s, step, e);
        if step.Publish? {
          PublishOwn(s, step, e);
          assert PcHonest(s, step.t) by {
            OnePlace(s, step.t);
          }
        }
        if step.ForfeitOne? && BreakUnderWay(s, s.futs[f].c) {
          UnderWayTorn(s, s.futs[f].c);
          TornStays(s, step, e, s.futs[f].c);
        }
      }
    } else {
      EachMoves(s, step, e);
    }
  }

  lemma UnderWayTorn(s: State, c: Iid)
    requires BreakUnderWay(s, c)
    ensures Torn(s, c)
  {
  }

  lemma OnePlace(s: State, t: Tid)
    requires Honest(s)
    ensures PcHonest(s, t)
  {
  }

  lemma PublishOwn(s: State, step: Step, e: Effect)
    requires step.Publish? && EffectOf(s, step) == Some(e) && e.fut.Some?
    ensures e.fut.value.0 == Pc0(s, step.t).f
  {
  }

  lemma OneHonest(s: State, f: Fid)
    requires Honest(s) && f in s.futs
    ensures FutHonest(s, f)
  {
  }

  lemma PcKept(s: State, step: Step, e: Effect, t: Tid)
    requires Inv(s) && Honest(s) && !s.down && ThreadStep(step) && EffectOf(s, step) == Some(e)
    ensures PcHonest(Apply(s, step.t, e), t)
  {
    hide Inv, EffectOf, Honest, Moves, PcHonest;
    OnePlace(s, t);
    if t == step.t {
      OwnWriting(s, step, e);
    } else if e.fut.Some? {
      EachMoves(s, step, e);
      assert step.Prepare? && Pc0(s, t).Publishing? ==> Pc0(s, t).f != e.fut.value.0 by {
        if step.Prepare? && Pc0(s, t).Publishing? {
          PlaceOf(s, t);
          PlaceOf(s, step.t);
          PrepareOwn(s, step, e);
        }
      }
      assert Pc0(s, t).Writing? ==> Pc0(s, t).f in s.futs && s.futs[Pc0(s, t).f].out.waited by {
        PlaceOf(s, t);
      }
      OtherPlace(s, step, e, t);
    } else {
      NoFutMoved(s, step.t, e, t);
    }
  }

  lemma NoFutMoved(s: State, u: Tid, e: Effect, t: Tid)
    requires e.fut == None && t != u && PcHonest(s, t)
    ensures PcHonest(Apply(s, u, e), t)
  {
  }

  lemma OtherPlace(s: State, step: Step, e: Effect, t: Tid)
    requires ThreadStep(step) && e.fut.Some? && t != step.t && PcHonest(s, t)
    requires e.fut.value.0 in s.futs ==> Moves(s, step, s.futs[e.fut.value.0], e.fut.value.1)
    requires step.Prepare? && Pc0(s, t).Publishing? ==> Pc0(s, t).f != e.fut.value.0
    requires Pc0(s, t).Writing? ==> Pc0(s, t).f in s.futs && s.futs[Pc0(s, t).f].out.waited
    ensures PcHonest(Apply(s, step.t, e), t)
  {
    hide DoneOk;
  }

  lemma PrepareOwn(s: State, step: Step, e: Effect)
    requires step.Prepare? && EffectOf(s, step) == Some(e)
    ensures Pc0(s, step.t).Preparing?
    ensures e.fut.Some? ==> e.fut.value.0 == Pc0(s, step.t).f
    ensures e.pc.Publishing? && e.pc.f == Pc0(s, step.t).f
    ensures e.pc.ready ==> e.fut.Some? && e.fut.value.1.pointers
  {
  }

  lemma OwnWriting(s: State, step: Step, e: Effect)
    requires ThreadStep(step) && EffectOf(s, step) == Some(e) && PcHonest(s, step.t)
    ensures PcHonest(Apply(s, step.t, e), step.t)
  {
    if step.Wake? || step.WriteRef? {
      WritingOn(s, step, e);
    } else if step.Prepare? {
      PrepareOwn(s, step, e);
      hide EffectOf;
    } else if step.Sign? {
      SignOwn(s, step, e);
      hide EffectOf;
    } else {
      hide PcHonest;
      NotWriting(s, step, e);
      Elsewhere(s, step.t, e);
    }
  }

  lemma SignOwn(s: State, step: Step, e: Effect)
    requires step.Sign? && EffectOf(s, step) == Some(e)
    ensures e.pc == Pc0(s, step.t) && e.fut == None
  {
  }

  lemma WritingOn(s: State, step: Step, e: Effect)
    requires (step.Wake? || step.WriteRef?) && EffectOf(s, step) == Some(e) && PcHonest(s, step.t)
    ensures PcHonest(Apply(s, step.t, e), step.t)
  {
  }

  lemma NotWriting(s: State, step: Step, e: Effect)
    requires ThreadStep(step) && EffectOf(s, step) == Some(e)
    requires !step.Wake? && !step.WriteRef? && !step.Prepare? && !step.Sign?
    ensures !e.pc.Writing? && !e.pc.Publishing?
  {
  }

  lemma Elsewhere(s: State, t: Tid, e: Effect)
    requires !e.pc.Writing? && !e.pc.Publishing?
    ensures PcHonest(Apply(s, t, e), t)
  {
  }

  lemma AnswerKept(s: State, step: Step, e: Effect, k: nat)
    requires Inv(s) && Honest(s) && !s.down && ThreadStep(step) && EffectOf(s, step) == Some(e)
    requires Records(s, e) && Leaves(s, e) && k < |e.answers|
    ensures AnswerIs(Apply(s, step.t, e), k)
  {
    hide Inv, EffectOf, DoneOk;
    if e.fut.Some? {
      EachMoves(s, step, e);
    }
    if k < |s.answers| {
      assert AnswerIs(s, k);
    } else {
      assert FutHonest(s, e.fut.value.0);
    }
  }

  lemma StepHonest(s: State, step: Step)
    requires Inv(s) && Honest(s) && Next(s, step).Some?
    ensures Honest(Next(s, step).value)
  {
    hide Inv, EffectOf, FutHonest, AnswerIs, Records, Leaves, PcHonest;
    if step.RaiseStop? {
      StopHonest(s);
    } else if step.FreeAll? {
      FreeAllHonest(s);
    } else {
      var e := EffectOf(s, step).value;
      if step.Wake? || step.WriteDone? {
        WaitRecords(s, step, e);
      } else {
        OthersQuiet(s, step, e);
        assert Records(s, e) by {
          SilentRecords(s, e);
        }
      }
      var s' := Apply(s, step.t, e);
      forall t: Tid ensures PcHonest(s', t) {
        PcKept(s, step, e, t);
      }
      forall f | f in s'.futs ensures FutHonest(s', f) {
        FutKept(s, step, e, f);
      }
      forall k | 0 <= k < |s'.answers| ensures AnswerIs(s', k) {
        AnswerKept(s, step, e, k);
      }
    }
  }

  lemma SilentRecords(s: State, e: Effect)
    requires e.answers == s.answers
    ensures Records(s, e)
  {
  }

  lemma StopHonest(s: State)
    requires Honest(s) && DoRaiseStop(s).Some?
    ensures Honest(DoRaiseStop(s).value)
  {
    var s' := DoRaiseStop(s).value;
    forall t: Tid ensures PcHonest(s', t) {
      assert PcHonest(s, t);
    }
    forall f | f in s'.futs ensures FutHonest(s', f) {
      assert FutHonest(s, f);
    }
    forall k | 0 <= k < |s'.answers| ensures AnswerIs(s', k) {
      assert AnswerIs(s, k);
    }
  }

  lemma FreeAllHonest(s: State)
    requires Honest(s) && DoFreeAll(s).Some?
    ensures Honest(DoFreeAll(s).value)
  {
    var s' := DoFreeAll(s).value;
    forall t: Tid ensures PcHonest(s', t) {
      assert PcHonest(s, t);
    }
    forall f | f in s'.futs ensures FutHonest(s', f) {
      assert FutHonest(s, f);
    }
    forall k | 0 <= k < |s'.answers| ensures AnswerIs(s', k) {
      assert AnswerIs(s, k);
    }
  }

  lemma {:induction false} RunHonest(s: State, steps: seq<Step>)
    requires Inv(s) && Honest(s) && RunOf(s, steps).Some?
    ensures Honest(RunOf(s, steps).value)
    decreases |steps|
  {
    hide Inv, Honest, Next;
    if steps != [] {
      NextKeeps(s, steps[0]);
      StepHonest(s, steps[0]);
      RunHonest(Next(s, steps[0]).value, steps[1..]);
    }
  }

  lemma ReachableHonest(s: State)
    requires Reachable(s)
    ensures Honest(s)
  {
    hide Inv;
    var n: nat, steps :| n >= 1 && RunOf(Init(n), steps) == Some(s);
    InitInv(n);
    RunHonest(Init(n), steps);
  }

  // ---- the theorems ----

  /** Over every interleaving, an answer that took its outcome is exactly what its future
      published; or the type refusal, where that was OK with slots to write back and one of
      them of the wrong type; or ErrState, and then only where an explicit break has reclaimed
      the instance or is under way on it. Every other answer is ErrState, and one before it
      took. */
  lemma AnswersExactly(s: State, k: nat)
    requires Reachable(s) && k < |s.answers|
    ensures var a := s.answers[k];
            && a.f in s.futs
            && var fut := s.futs[a.f];
               if a.took then
                 && fut.out.waited && fut.out.done
                 && (|| (fut.out.pub == Some(Published(OK, fut.out.val)) && fut.hasRefs && !fut.slotsOk
                         && (a.st, a.val) == (ErrType, None))
                     || (fut.out.pub.Some? && a.val == Some(fut.out.pub.value.val) && a.st == fut.out.pub.value.st
                         && !(a.st == OK && fut.hasRefs && !fut.slotsOk))
                     || ((a.st, a.val) == (ErrState, Some(0)) && Torn(s, fut.c)))
               else (a.st, a.val) == (ErrState, None) && TakenBefore(s.answers, k, a.f)
    ensures forall j | 0 <= j < |s.answers| && j != k && s.answers[j].took && s.answers[k].took ::
              s.answers[j].f != s.answers[k].f
  {
    hide Inv, Reachable, TakenBefore;
    S.AnswersHonest(s);
    ReachableHonest(s);
    ReachableKeeps(s);
    assert AnswerIs(s, k);
    var f := s.answers[k].f;
    assert FutHonest(s, f);
    FutureOf(s, f);
    hide Honest, FutOk;
  }

  /** A task the pool holds, until a break decides it, has its frame in a heap that is there. */
  lemma TasksHaveFrames(s: State, f: Fid)
    requires Reachable(s) && f in s.futs && InPool(s.futs[f].hold) && !s.futs[f].out.done
    ensures s.futs[f].pointers && s.futs[f].c in s.insts && s.insts[s.futs[f].c].heap
  {
    hide Inv, Reachable;
    ReachableHonest(s);
    ReachableKeeps(s);
    OneHonest(s, f);
    FutureOf(s, f);
  }

  // ---- where an outcome comes from ----

  /** A step that decides f: its body returning, the refusal of its task, or of its call. */
  predicate Decides(s: State, step: Step, f: Fid, p: Published) {
    match step
    case Return(t, st, val, _, _) => Pc0(s, t).WRunning? && Pc0(s, t).f == f && p == Published(st, val)
    case Refuse(t, gate) =>
      && Pc0(s, t).WLocked? && Pc0(s, t).f == f && f in s.futs && s.futs[f].c in s.insts
      && p == Published(if s.insts[s.futs[f].c].broken then ErrState else gate, 0) && p.st != OK
    case Publish(t) =>
      && Pc0(s, t).Publishing? && Pc0(s, t).f == f && Pc0(s, t).verdict != OK
      && p == Published(Pc0(s, t).verdict, 0)
    case _ => false
  }

  lemma DecidedBy(s: State, step: Step, f: Fid)
    requires Inv(s) && Next(s, step).Some? && f in Next(s, step).value.futs
    ensures var (s', pub) := (Next(s, step).value, Next(s, step).value.futs[f].out.pub);
            pub.Some? ==> Decides(s, step, f, pub.value) || (f in s.futs && s.futs[f].out.pub == pub)
  {
    hide Inv, EffectOf, Decides;
    if ThreadStep(step) {
      var e := EffectOf(s, step).value;
      if e.fut.Some? {
        if step.Return? || step.Refuse? || step.Publish? {
          Deciders(s, step, e);
        } else {
          Silent(s, step, e);
        }
      }
    }
  }

  lemma Deciders(s: State, step: Step, e: Effect)
    requires Inv(s) && !s.down && (step.Return? || step.Refuse? || step.Publish?) && EffectOf(s, step) == Some(e)
    ensures e.fut.Some? && e.fut.value.0 in s.futs
    ensures var (f, pub) := (e.fut.value.0, e.fut.value.1.out.pub);
            pub == s.futs[f].out.pub || (pub.Some? && Decides(s, step, f, pub.value))
  {
    hide Inv;
    PlaceOf(s, step.t);
  }

  lemma Silent(s: State, step: Step, e: Effect)
    requires ThreadStep(step) && !step.Return? && !step.Refuse? && !step.Publish?
    requires EffectOf(s, step) == Some(e) && e.fut.Some?
    ensures if e.fut.value.0 in s.futs then e.fut.value.1.out.pub == s.futs[e.fut.value.0].out.pub
            else e.fut.value.1.out.pub == None
  {
  }

  /** A body's return is always what its future publishes, and marks its slots. */
  lemma ReturnPublishes(s: State, t: Tid, st: Status, val: int, slotsOk: bool, breaks: bool)
    requires Inv(s) && Next(s, Return(t, st, val, slotsOk, breaks)).Some?
    ensures var (f, s') := (Pc0(s, t).f, Next(s, Return(t, st, val, slotsOk, breaks)).value);
            && f in s'.futs && s'.futs[f].out.pub == Some(Published(st, val)) && s'.futs[f].slotsOk == slotsOk
            && s'.futs[f].out.done && s'.futs[f].out.st == st && s'.futs[f].out.val == val
  {
    hide Inv;
    PlaceOf(s, t);
    FutureOf(s, Pc0(s, t).f);
  }

  /** Over every run: what a future publishes is what its body returned, or the refusal it met,
      at the very step that did so. */
  lemma {:induction false} PublishedByStep(s: State, steps: seq<Step>, f: Fid)
    requires Inv(s) && RunOf(s, steps).Some? && f in RunOf(s, steps).value.futs
    requires RunOf(s, steps).value.futs[f].out.pub.Some? && (f in s.futs ==> s.futs[f].out.pub.None?)
    ensures exists k :: && 0 <= k < |steps| && RunOf(s, steps[..k]).Some?
                        && Decides(RunOf(s, steps[..k]).value, steps[k], f, RunOf(s, steps).value.futs[f].out.pub.value)
    decreases |steps|
  {
    hide Inv, Next, Decides;
    var s1 := Next(s, steps[0]).value;
    var p := RunOf(s, steps).value.futs[f].out.pub.value;
    NextKeeps(s, steps[0]);
    if f in s1.futs && s1.futs[f].out.pub.Some? {
      DecidedBy(s, steps[0], f);
      S.PublishedOnceFrom(s1, steps[1..], f);
      assert steps[..0] == [];
      assert Decides(RunOf(s, steps[..0]).value, steps[0], f, p);
    } else {
      PublishedByStep(s1, steps[1..], f);
      var k :| 0 <= k < |steps| - 1 && RunOf(s1, steps[1..][..k]).Some?
        && Decides(RunOf(s1, steps[1..][..k]).value, steps[1..][k], f, p);
      assert steps[..k + 1][0] == steps[0] && steps[..k + 1][1..] == steps[1..][..k];
      assert RunOf(s, steps[..k + 1]) == RunOf(s1, steps[1..][..k]);
      assert Decides(RunOf(s, steps[..k + 1]).value, steps[k + 1], f, p);
    }
  }
}
