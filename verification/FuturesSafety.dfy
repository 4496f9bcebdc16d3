/** What the future, pool and break protocol promises, in every state any interleaving
    reaches. */
module FuturesSafety {
  import opened Basics
  import opened Futures
  import opened FuturesInv

  // ---- memory ----

  /** The instances in whose heap a step reads or writes a frame, a ref or a slot. A body
      reads its own, and those of every nested call it is inside of. */
  function HeapsRead(s: State, step: Step): set<Iid> {
    if step.RaiseStop? || step.FreeAll? then {}
    else
      match Pc0(s, step.t)
      case Preparing(f) =>
        if step.Prepare? && f in s.futs && s.futs[f].c in s.insts && !s.insts[s.futs[f].c].broken then {s.futs[f].c}
        else {}
      case Waiting(f) =>
        if step.Wake? && f in s.futs && !s.futs[f].out.waited && s.futs[f].out.st == OK && s.futs[f].hasRefs
          && s.futs[f].pointers
        then {s.futs[f].c} else {}
      case Writing(f, _) => if step.WriteRef? && f in s.futs then {s.futs[f].c} else {}
      case WLocked(f) => if step.Run? && f in s.futs then {s.futs[f].c} else {}
      case WRunning(f, stack) =>
        (if f in s.futs then {s.futs[f].c} else {}) + (set x | x in stack)
        + (if step.NestEnter? then {step.x} else {})
      case _ => {}
  }

  lemma BodyReads(s: State, step: Step, i: Iid)
    requires Inv(s) && Next(s, step).Some? && i in HeapsRead(s, step) && Pc0(s, step.t).WRunning?
    ensures i in s.insts && s.insts[i].heap
  {
    hide Inv, FutOk;
    PlaceOf(s, step.t);
    if i in s.insts {
      InstanceOf(s, i);
    }
  }

  lemma CallReads(s: State, step: Step, i: Iid)
    requires Inv(s) && Next(s, step).Some? && i in HeapsRead(s, step) && !Pc0(s, step.t).WRunning?
    ensures i in s.insts && s.insts[i].heap
  {
    hide Inv, Next, OutcomeOk, CountOk, RefsOk;
    PlaceOf(s, step.t);
    FutureOf(s, Pc0(s, step.t).f);
    InstanceOf(s, i);
    if step.Run? {
      RunReads(s, step);
    }
  }

  lemma RunReads(s: State, step: Step)
    requires Next(s, step).Some? && step.Run? && Pc0(s, step.t).WLocked?
    ensures var f := Pc0(s, step.t).f; f in s.futs && s.futs[f].c in s.insts && !s.insts[s.futs[f].c].broken
  {
  }

  /** No step reads a frame, a ref or a slot of an instance whose heap is gone. */
  lemma NoUseAfterReclaim(s: State, step: Step, i: Iid)
    requires Reachable(s) && Next(s, step).Some? && i in HeapsRead(s, step)
    ensures i in s.insts && s.insts[i].heap
  {
    hide Inv, Reachable, Next;
    ReachableKeeps(s);
    if Pc0(s, step.t).WRunning? {
      BodyReads(s, step, i);
    } else {
      CallReads(s, step, i);
    }
  }

  /** Once a heap is reclaimed nobody is writing one of its futures back, and no future
      whose outcome is still to be had points into it. */
  lemma ReclaimedUnreachable(s: State, f: Fid)
    requires Reachable(s) && f in s.futs && !HeapOf(s, f)
    ensures s.futs[f].mu == None && (s.futs[f].pointers ==> s.futs[f].out.waited)
    ensures forall t: Tid :: !InTask(Pc0(s, t), f) || !Pc0(s, t).WRunning?
  {
    hide Inv, Reachable;
    ReachableKeeps(s);
    FutureOf(s, f);
    if s.futs[f].mu.Some? {
      PlaceOf(s, s.futs[f].mu.value);
    }
    forall t: Tid ensures !InTask(Pc0(s, t), f) || !Pc0(s, t).WRunning? {
      PlaceOf(s, t);
    }
  }

  /** The list a release walks to find its own. */
  function Walked(s: State, pc: Pc): set<Fid> {
    if pc.Releasing? && pc.f in s.futs then ListOf(s, s.futs[pc.f].c) else {}
  }

  /** The future structs a step reads or writes: those it is about, the links it walks on
      an instance's list, and the two ends of the queue. */
  function Touched(s: State, step: Step): set<Fid> {
    if step.RaiseStop? then {}
    else if step.FreeAll? then set f | f in s.futs && s.futs[f].hold.rcpt == Linked
    else
      FutsOf(Pc0(s, step.t))
      + (if step.StartWait? || step.ForfeitOne? then {step.f} else {})
      + (if step.StartBreak? then ListOf(s, step.c) else {})
      + (if step.Unlink? then Walked(s, Pc0(s, step.t)) else {})
      + (if step.Publish? && s.queue != [] then {s.queue[|s.queue| - 1]} else {})
      + (if step.Dequeue? && s.queue != [] then {s.queue[0]} else {})
  }

  /** Where a thread stands, and what it may still ask for, it stands on live futures. */
  lemma PlacesAlive(s: State, t: Tid, f: Fid)
    requires Inv(s) && f in FutsOf(Pc0(s, t))
    ensures Alive(s, f)
  {
    hide Inv;
    PlaceOf(s, t);
  }

  lemma ListedAlive(s: State, f: Fid)
    requires Inv(s) && f in s.futs && s.futs[f].hold.rcpt == Linked
    ensures Alive(s, f)
  {
    hide Inv, OutcomeOk, EarlyOk, UnbornOk, RefsOk;
    FutureOf(s, f);
  }

  lemma TailOf(s: State)
    requires Inv(s)
    ensures s.queue != [] ==> Alive(s, s.queue[|s.queue| - 1])
  {
  }

  lemma AsksAlive(s: State, step: Step)
    requires Inv(s) && Next(s, step).Some?
    ensures step.StartWait? || step.ForfeitOne? ==> Alive(s, step.f)
    ensures step.Dequeue? ==> s.queue != [] && Alive(s, s.queue[0])
    ensures s.queue != [] ==> Alive(s, s.queue[|s.queue| - 1])
  {
    hide Inv, Apply;
    TailOf(s);
    if step.StartWait? {
      FutureOf(s, step.f);
    } else if step.ForfeitOne? {
      PlaceOf(s, step.t);
      ListedAlive(s, step.f);
    } else if step.Dequeue? {
      HeadOf(s);
    }
  }

  /** No step touches a future that has been freed. */
  lemma NoUseAfterFree(s: State, step: Step, f: Fid)
    requires Reachable(s) && Next(s, step).Some? && f in Touched(s, step)
    ensures Alive(s, f)
  {
    hide Inv, Reachable, Next, Alive;
    ReachableKeeps(s);
    AsksAlive(s, step);
    if f in s.futs && s.futs[f].hold.rcpt == Linked {
      ListedAlive(s, f);
    } else if f in FutsOf(Pc0(s, step.t)) {
      PlacesAlive(s, step.t, f);
    }
  }

  /** The count is exactly the receipt's hold and the pool's; the struct is freed when the
      last of them goes, and never twice. */
  lemma RefcountExact(s: State, f: Fid)
    requires Reachable(s) && f in s.futs
    ensures var h := s.futs[f].hold;
            && h.refcnt == (if h.rcpt == Gone then 0 else 1) + (if h.loc.Queued? || h.loc.With? then 1 else 0)
            && h.frees <= 1 && (h.frees == 1 <==> h.refcnt == 0)
    ensures s.futs[f].hold.loc == Queued <==> f in s.queue
    ensures forall w: Tid :: s.futs[f].hold.loc == With(w) <==> HasTask(Pc0(s, w), f)
  {
    hide Inv, Reachable;
    ReachableKeeps(s);
    FutureOf(s, f);
    forall w: Tid ensures s.futs[f].hold.loc == With(w) <==> HasTask(Pc0(s, w), f) {
      PlaceOf(s, w);
    }
    QueuedIff(s, f);
  }

  lemma QueuedIff(s: State, f: Fid)
    requires Inv(s) && f in s.futs
    ensures s.futs[f].hold.loc == Queued <==> f in s.queue
  {
    assert FutOk(s, f);
  }

  /** When the runtime is gone every future it ever made has been freed exactly once. */
  lemma AllFreedOnce(s: State, f: Fid)
    requires Reachable(s) && s.down && f in s.futs
    ensures s.futs[f].hold.frees == 1
  {
    hide Inv, Reachable;
    ReachableKeeps(s);
    FutureOf(s, f);
  }

  // ---- delivery ----

  /** Every answer is the outcome its future published, the refusal of that outcome's
      write back, or ErrState; and of all waits on one future at most one took it. */
  lemma AnswersHonest(s: State)
    requires Reachable(s)
    ensures forall k | 0 <= k < |s.answers| ::
              var a := s.answers[k];
              && a.f in s.futs
              && (|| a.st == ErrState
                  || (a.val.Some? && s.futs[a.f].out.pub == Some(Published(a.st, a.val.value)))
                  || (a.st == ErrType && a.val == None && s.futs[a.f].out.pub.Some?
                     && s.futs[a.f].out.pub.value.st == OK))
              && (!a.took ==> a.st == ErrState && a.val == None)
    ensures forall j, k | 0 <= j < k < |s.answers| && s.answers[j].took && s.answers[k].took ::
              s.answers[j].f != s.answers[k].f
  {
    hide Reachable, PcsOk, FutsOk, InstsOk, QueueOk;
    ReachableKeeps(s);
    forall k | 0 <= k < |s.answers| ensures AnswerOk(s, s.answers[k]) {
    }
  }

  /** The first completion of a future is its only one, whatever steps follow. */
  lemma {:induction false} PublishedOnce(s: State, steps: seq<Step>, f: Fid)
    requires Reachable(s) && RunOf(s, steps).Some? && f in s.futs && s.futs[f].out.pub.Some?
    ensures f in RunOf(s, steps).value.futs && RunOf(s, steps).value.futs[f].out.pub == s.futs[f].out.pub
  {
    hide Inv, Reachable;
    ReachableKeeps(s);
    PublishedOnceFrom(s, steps, f);
  }

  lemma {:induction false} PublishedOnceFrom(s: State, steps: seq<Step>, f: Fid)
    requires Inv(s) && RunOf(s, steps).Some? && f in s.futs && s.futs[f].out.pub.Some?
    ensures f in RunOf(s, steps).value.futs && RunOf(s, steps).value.futs[f].out.pub == s.futs[f].out.pub
    decreases |steps|
  {
    hide Inv, Next;
    if steps != [] {
      NextKeeps(s, steps[0]);
      PublishedStands(s, steps[0], f);
      PublishedOnceFrom(Next(s, steps[0]).value, steps[1..], f);
    }
  }

  lemma PublishedStands(s: State, step: Step, f: Fid)
    requires Inv(s) && Next(s, step).Some? && f in s.futs && s.futs[f].out.pub.Some?
    ensures f in Next(s, step).value.futs && Next(s, step).value.futs[f].out.pub == s.futs[f].out.pub
  {
    hide Inv, EffectOf;
    if ThreadStep(step) {
      EachStep(s, step, EffectOf(s, step).value);
    }
  }

  // ---- drain ----

  /** A worker leaves only an empty queue behind, for good; and when all have left, every
      future ever issued is decided and the pool holds none. */
  lemma Drained(s: State)
    requires Reachable(s) && Joined(s)
    ensures s.queue == [] && s.stop
    ensures forall f | f in s.futs && s.futs[f].issued :: s.futs[f].out.done && !InPool(s.futs[f].hold)
  {
    hide Inv, Reachable;
    ReachableKeeps(s);
    Crew(s);
    PlaceOf(s, 0);
    assert Pc0(s, 0) == WExited;
    forall f | f in s.futs && s.futs[f].issued ensures s.futs[f].out.done && !InPool(s.futs[f].hold) {
      FutureOf(s, f);
      if s.futs[f].hold.loc.With? {
        PlaceOf(s, s.futs[f].hold.loc.w);
      }
    }
  }

  // ---- no deadlock ----

  /** A thread waiting for an instance lock, for a future's outcome or for work holds no
      lock of any kind. */
  lemma BlockedHoldsNothing(s: State, t: Tid)
    requires Reachable(s)
    requires var pc := Pc0(s, t);
             pc.Idle? || pc.Preparing? || pc.Publishing? || pc.Waiting? || pc.Releasing? || pc.Unreffing?
               || pc.WIdle? || pc.WHave?
    ensures forall i | i in s.insts :: s.insts[i].mu != Some(t)
    ensures forall f | f in s.futs :: s.futs[f].mu != Some(t)
  {
    hide Inv, Reachable;
    ReachableKeeps(s);
    forall i | i in s.insts ensures s.insts[i].mu != Some(t) {
      InstanceOf(s, i);
    }
    forall f | f in s.futs ensures s.futs[f].mu != Some(t) {
      FutureOf(s, f);
    }
  }

  /** A step that carries on what is already under way: no thread starts a call, a body
      makes no further nested one. */
  predicate Onward(step: Step) {
    || step.Prepare? || step.Publish? || step.Wake? || step.WriteRef? || step.WriteDone? || step.Unlink?
       || step.DropReceipt?
    || step.ForfeitOne? || step.Reclaim? || step.Dequeue? || step.Lock? || step.Refuse? || step.Run? || step.NestExit?
    || step.Return? || step.Unlock? || step.DropPool?
  }

  predicate AtHome(pc: Pc) {
    pc.Idle? || pc.WIdle? || pc.WExited?
  }

  /** Nothing is under way and nothing is waiting to be. */
  ghost predicate Quiet(s: State) {
    s.queue == [] && forall t: Tid :: AtHome(Pc0(s, t))
  }

  lemma WriterMoves(s: State, t: Tid) returns (step: Step)
    requires Inv(s) && !s.down && Pc0(s, t).Writing?
    ensures Onward(step) && Next(s, step).Some?
  {
    hide Inv;
    PlaceOf(s, t);
    step := if Pc0(s, t).slots == 0 then WriteDone(t) else WriteRef(t);
  }

  /** The holder of a host signed instance's lock waits at most for a write back. */
  lemma BreakerMoves(s: State, t: Tid) returns (step: Step)
    requires Inv(s) && !s.down && Pc0(s, t).Breaking?
    requires forall u: Tid :: !Pc0(s, u).Writing?
    ensures Onward(step) && Next(s, step).Some?
  {
    hide Inv;
    PlaceOf(s, t);
    var todo := Pc0(s, t).todo;
    if todo == {} {
      step := Reclaim(t);
    } else {
      var f :| f in todo;
      FutureOf(s, f);
      step := ForfeitOne(t, f);
    }
  }

  lemma BodyMoves(s: State, t: Tid) returns (step: Step)
    requires Inv(s) && !s.down && Pc0(s, t).WRunning?
    requires forall u: Tid :: !Pc0(s, u).Writing?
    ensures Onward(step) && Next(s, step).Some?
  {
    hide Inv;
    PlaceOf(s, t);
    var stack := Pc0(s, t).stack;
    if stack == [] {
      FutureOf(s, Pc0(s, t).f);
      step := Return(t, OK, 0, true, false);
    } else {
      var x := stack[|stack| - 1];
      assert x in stack;
      InstanceOf(s, x);
      step := NestExit(t, false);
    }
  }

  lemma TaskMoves(s: State, t: Tid) returns (step: Step)
    requires Inv(s) && !s.down && (Pc0(s, t).WLocked? || Pc0(s, t).WFinished?)
    requires forall u: Tid :: !Pc0(s, u).Writing?
    ensures Onward(step) && Next(s, step).Some?
  {
    hide Inv;
    PlaceOf(s, t);
    var f := Pc0(s, t).f;
    FutureOf(s, f);
    step := if Pc0(s, t).WFinished? then Unlock(t) else if s.insts[s.futs[f].c].broken then Refuse(t, OK) else Run(t);
  }

  /** With every host signed instance unlocked and nobody writing back, all but a wait can
      go on. */
  lemma FreeMoves(s: State, t: Tid) returns (step: Step)
    requires Inv(s) && !s.down && !AtHome(Pc0(s, t)) && !Pc0(s, t).Waiting?
    requires forall u: Tid ::
               var pc := Pc0(s, u); !pc.Writing? && !pc.Breaking? && !pc.WLocked? && !pc.WRunning? && !pc.WFinished?
    ensures Onward(step) && Next(s, step).Some?
  {
    hide Inv;
    PlaceOf(s, t);
    var f := Pc0(s, t).f;
    FutureOf(s, f);
    InstanceOf(s, s.futs[f].c);
    step :=
      match Pc0(s, t)
      case Preparing(_) => Prepare(t, OK, false)
      case Publishing(_, _, _) => Publish(t)
      case Releasing(_) => Unlink(t)
      case Unreffing(_) => DropReceipt(t)
      case WHave(_) => Lock(t)
      case _ => DropPool(t);
  }

  /** A wait whose future is undecided has a task queued or in a worker's hands. */
  lemma WaitMoves(s: State, t: Tid) returns (step: Step)
    requires Inv(s) && !s.down && Pc0(s, t).Waiting?
    requires forall u: Tid :: AtHome(Pc0(s, u)) || Pc0(s, u).Waiting?
    requires s.queue == []
    ensures Onward(step) && Next(s, step).Some?
  {
    hide Inv;
    WaitingOf(s, t);
    step := Wake(t, 0);
  }

  lemma PoolMoves(s: State) returns (step: Step)
    requires Inv(s) && !s.down && s.queue != []
    requires forall u: Tid :: AtHome(Pc0(s, u)) || Pc0(s, u).Waiting?
    ensures Onward(step) && Next(s, step).Some?
  {
    hide Inv;
    Crew(s);
    PlaceOf(s, 0);
    HeadOf(s);
    step := Dequeue(0);
  }

  /** No deadlock: while anything is under way or queued, some thread can carry on. */
  lemma NeverStuck(s: State)
    requires Reachable(s) && !s.down && !Quiet(s)
    ensures exists step :: Onward(step) && Next(s, step).Some?
  {
    hide Inv, Reachable, Next;
    ReachableKeeps(s);
    var step := MoveOf(s);
  }

  lemma MoveOf(s: State) returns (step: Step)
    requires Inv(s) && !s.down && !Quiet(s)
    ensures Onward(step) && Next(s, step).Some?
  {
    hide Inv, Next;
    if t: Tid :| Pc0(s, t).Writing? {
      step := WriterMoves(s, t);
    } else if t: Tid :| Pc0(s, t).Breaking? {
      step := BreakerMoves(s, t);
    } else if t: Tid :| Pc0(s, t).WRunning? {
      step := BodyMoves(s, t);
    } else if t: Tid :| Pc0(s, t).WLocked? || Pc0(s, t).WFinished? {
      step := TaskMoves(s, t);
    } else if t: Tid :| !AtHome(Pc0(s, t)) && !Pc0(s, t).Waiting? {
      step := FreeMoves(s, t);
    } else if s.queue != [] {
      step := PoolMoves(s);
    } else {
      var t: Tid :| !AtHome(Pc0(s, t));
      step := WaitMoves(s, t);
    }
  }

  // ---- every call ends ----

  /** How far a thread is from home. */
  function Distance(pc: Pc): nat {
    match pc
    case Preparing(_) => 31
    case Publishing(_, _, _) => 30
    case Waiting(_) => 4
    case Writing(_, _) => 3
    case Releasing(_) => 2
    case Unreffing(_) => 1
    case Breaking(_, _) => 1
    case WHave(_) => 5
    case WLocked(_) => 4
    case WRunning(_, _) => 3
    case WFinished(_) => 2
    case WDropping(_) => 1
    case _ => 0
  }

  /** How much a thread has left to do where it is. */
  function Chores(pc: Pc): nat {
    match pc
    case Writing(_, slots) => slots
    case Breaking(_, todo) => |todo|
    case WRunning(_, stack) => |stack|
    case _ => 0
  }

  function Distances(s: State, n: nat): nat {
    if n == 0 then 0 else Distances(s, n - 1) + Distance(Pc0(s, n - 1))
  }

  function AllChores(s: State, n: nat): nat {
    if n == 0 then 0 else AllChores(s, n - 1) + Chores(Pc0(s, n - 1))
  }

  /** A queued future is farther from decided than its task in any worker's hands. */
  function Far(s: State, n: nat): nat {
    20 * |s.queue| + Distances(s, n)
  }

  lemma {:induction false} OneThreadMoves(s: State, s': State, t: Tid, n: nat)
    requires s'.nworkers == s.nworkers && forall u: Tid | u != t :: Pc0(s', u) == Pc0(s, u)
    ensures Distances(s', n) == Distances(s, n) + (if t < n then Distance(Pc0(s', t)) - Distance(Pc0(s, t)) else 0)
    ensures AllChores(s', n) == AllChores(s, n) + (if t < n then Chores(Pc0(s', t)) - Chores(Pc0(s, t)) else 0)
  {
    if n > 0 {
      OneThreadMoves(s, s', t, n - 1);
    }
  }

  /** Every thread under way, and every worker, is below n. */
  ghost predicate Below(s: State, n: nat) {
    s.nworkers <= n && forall t: Tid | t >= n :: AtHome(Pc0(s, t))
  }

  /** Its thread is a stage nearer home, or has less to do where it is. */
  predicate Falls(s: State, t: Tid, e: Effect) {
    var pc := Pc0(s, t);
    && (|| 20 * |e.queue| + Distance(e.pc) < 20 * |s.queue| + Distance(pc)
        || (e.queue == s.queue && Distance(e.pc) == Distance(pc) && Chores(e.pc) < Chores(pc)))
    && (!AtHome(pc) || t < s.nworkers)
  }

  predicate OfCalls(step: Step) {
    || step.Prepare? || step.Publish? || step.Wake? || step.WriteRef? || step.WriteDone? || step.Unlink?
       || step.DropReceipt?
  }

  lemma CallFalls(s: State, step: Step, e: Effect)
    requires Onward(step) && OfCalls(step) && EffectOf(s, step) == Some(e)
    ensures Falls(s, step.t, e)
  {
  }

  lemma TaskFalls(s: State, step: Step, e: Effect)
    requires Onward(step) && !OfCalls(step) && EffectOf(s, step) == Some(e)
    ensures Falls(s, step.t, e)
  {
  }

  /** Each onward step brings the system nearer to rest: an order with no infinite
      descent. */
  lemma OnwardFalls(s: State, step: Step, n: nat)
    requires Below(s, n) && Onward(step) && Next(s, step).Some?
    ensures var s' := Next(s, step).value;
            Below(s', n) && !s'.down
            && (Far(s', n) < Far(s, n) || (Far(s', n) == Far(s, n) && AllChores(s', n) < AllChores(s, n)))
  {
    hide Distances, AllChores, EffectOf, Distance, Chores;
    if OfCalls(step) {
      CallFalls(s, step, EffectOf(s, step).value);
    } else {
      TaskFalls(s, step, EffectOf(s, step).value);
    }
    OneThreadMoves(s, Next(s, step).value, step.t, n);
  }

  /** With no new call the system can always be brought to rest, where every wait has been
      answered and every future issued is decided. Since each onward step falls and none is
      ever missing before rest, every schedule of onward steps ends there. */
  lemma {:induction false} Settles(s: State, n: nat) returns (steps: seq<Step>)
    requires Inv(s) && !s.down && Below(s, n)
    ensures (forall k | 0 <= k < |steps| :: Onward(steps[k])) && RunOf(s, steps).Some?
    ensures var s' := RunOf(s, steps).value;
            Quiet(s') && forall f | f in s'.futs && s'.futs[f].issued :: s'.futs[f].out.done && s'.futs[f].mu == None
    decreases Far(s, n), AllChores(s, n)
  {
    hide Inv, Next, Far, AllChores, Below;
    if Quiet(s) {
      steps := [];
      forall f | f in s.futs && s.futs[f].issued ensures s.futs[f].out.done && s.futs[f].mu == None {
        FutureOf(s, f);
      }
    } else {
      var step := MoveOf(s);
      NextKeeps(s, step);
      OnwardFalls(s, step, n);
      var rest := Settles(Next(s, step).value, n);
      steps := [step] + rest;
      assert steps[1..] == rest;
    }
  }

  lemma {:induction false} SomeBelow(s: State, keys: set<Tid>) returns (n: nat)
    ensures n >= s.nworkers && forall t | t in keys :: t < n
    decreases keys
  {
    if keys == {} {
      n := s.nworkers;
    } else {
      var t :| t in keys;
      var m := SomeBelow(s, keys - {t});
      n := if t < m then m else t + 1;
      assert keys == (keys - {t}) + {t};
    }
  }

  /** From every state of every run, what is under way can be carried to its end. */
  lemma EveryCallEnds(s: State)
    requires Reachable(s) && !s.down
    ensures exists steps ::
              && (forall k | 0 <= k < |steps| :: Onward(steps[k]))
              && RunOf(s, steps).Some? && Quiet(RunOf(s, steps).value)
  {
    hide Inv, Reachable, Quiet;
    ReachableKeeps(s);
    var n := SomeBelow(s, s.pcs.Keys);
    var steps := Settles(s, n);
  }
}
