/** The invariant of the future, pool and break protocol, kept by every step. */
module FuturesInv {
  import opened Basics
  import opened Futures

  predicate HostPc(pc: Pc) {
    pc.Idle? || pc.Preparing? || pc.Publishing? || pc.Waiting? || pc.Writing? || pc.Releasing? || pc.Unreffing?
      || pc.Breaking?
  }

  /** A worker between dequeue and drop, holding the pool's hold on f. */
  predicate HasTask(pc: Pc, f: Fid) {
    (pc.WHave? || pc.WLocked? || pc.WRunning? || pc.WFinished? || pc.WDropping?) && pc.f == f
  }

  /** A worker inside run_task's critical section for f. */
  predicate InTask(pc: Pc, f: Fid) {
    (pc.WLocked? || pc.WRunning? || pc.WFinished?) && pc.f == f
  }

  function Count(stack: seq<Iid>, x: Iid): nat {
    if stack == [] then 0 else Count(stack[..|stack| - 1], x) + (if stack[|stack| - 1] == x then 1 else 0)
  }

  lemma {:induction false} CountMember(stack: seq<Iid>, x: Iid)
    ensures Count(stack, x) > 0 <==> x in stack
    decreases |stack|
  {
    if stack != [] {
      CountMember(stack[..|stack| - 1], x);
      assert stack == stack[..|stack| - 1] + [stack[|stack| - 1]];
    }
  }

  predicate HeapOf(s: State, f: Fid) {
    f in s.futs && s.futs[f].c in s.insts && s.insts[s.futs[f].c].heap
  }

  predicate LockedFor(s: State, t: Tid, f: Fid) {
    f in s.futs && s.futs[f].c in s.insts && s.insts[s.futs[f].c].mu == Some(t)
  }

  /** A future its own maker is still building. */
  predicate Unborn(s: State, t: Tid, f: Fid) {
    && Alive(s, f) && s.futs[f].maker == t && !s.futs[f].issued && !s.stop
  }

  /** A receipt a host thread may use: linked, and its own if synchronous. */
  predicate Usable(s: State, t: Tid, f: Fid) {
    && Alive(s, f) && s.futs[f].issued && s.futs[f].hold.rcpt == Linked
    && (s.futs[f].sync ==> s.futs[f].maker == t)
  }

  /** What breaking leaves of a future it has passed: nobody is writing it back, and
      either its delivery is over or it has nothing left to point at. */
  predicate Disarmed(fut: Fut) {
    fut.mu == None && (fut.out.waited || (fut.out.done && !fut.pointers))
  }

  /** What a thread's place in the protocol entitles it to. */
  predicate PcOk(s: State, t: Tid) {
    var pc := Pc0(s, t);
    && (IsHost(s, t) <==> HostPc(pc))
    && match pc
       case Idle => true
       case WIdle => true
       case Preparing(f) => Unborn(s, t, f)
       case Publishing(f, ready, verdict) => Unborn(s, t, f) && (ready <==> verdict == OK)
       case Waiting(f) => Usable(s, t, f) && (s.futs[f].sync ==> !s.futs[f].out.waited)
       case Writing(f, _) =>
         && Usable(s, t, f) && s.futs[f].mu == Some(t) && s.futs[f].out.waited && s.futs[f].out.done
         && s.futs[f].out.st == OK && s.futs[f].pointers && HeapOf(s, f)
       case Releasing(f) => Usable(s, t, f) && s.futs[f].sync && s.futs[f].out.waited
       case Unreffing(f) => Alive(s, f) && s.futs[f].hold.rcpt == Unlinked(t)
       case Breaking(c, todo) =>
         && HostSigned(s, c) && s.insts[c].mu == Some(t)
         && todo <= ListOf(s, c)
         && (forall f | f in ListOf(s, c) && f !in todo :: Disarmed(s.futs[f]))
       case WHave(f) => Alive(s, f) && s.futs[f].hold.loc == With(t)
       case WLocked(f) => Alive(s, f) && s.futs[f].hold.loc == With(t) && LockedFor(s, t, f)
       case WRunning(f, stack) =>
         && Alive(s, f) && s.futs[f].hold.loc == With(t) && LockedFor(s, t, f) && HeapOf(s, f) && !s.futs[f].out.done
         && StackOk(s, t, stack)
       case WFinished(f) => Alive(s, f) && s.futs[f].hold.loc == With(t) && LockedFor(s, t, f) && s.futs[f].out.done
       case WDropping(f) => Alive(s, f) && s.futs[f].hold.loc == With(t) && s.futs[f].out.done
       case WExited => s.stop && s.queue == []
  }

  /** The nested calls of a body: locks on instances its own thread signed, each as deep
      as it is entered, and each with the heap its frames are in. */
  predicate StackOk(s: State, t: Tid, stack: seq<Iid>) {
    && (forall x | x in stack :: x in s.insts && s.insts[x].signer == t && s.insts[x].mu == Some(t) && s.insts[x].heap)
    && (forall x | x in s.insts && s.insts[x].signer == t :: s.insts[x].depth == Count(stack, x))
  }

  predicate InPool(h: Hold) {
    h.loc.Queued? || h.loc.With?
  }

  /** A break is under way on c, holding its lock. */
  predicate BreakUnderWay(s: State, c: Iid) {
    && c in s.insts && s.insts[c].mu.Some?
    && Pc0(s, s.insts[c].mu.value).Breaking? && Pc0(s, s.insts[c].mu.value).c == c
  }

  /** The holds are counted exactly, and the struct is freed with the last of them. */
  predicate CountOk(h: Hold) {
    && h.refcnt == (if h.rcpt == Gone then 0 else 1) + (if InPool(h) then 1 else 0)
    && h.frees == (if h.refcnt == 0 then 1 else 0)
  }

  /** An outcome is the first one published, or the forfeit's. */
  predicate OutcomeOk(o: Outcome) {
    && (o.pub.Some? ==> o.done)
    && (o.done ==> o.st == ErrState || o.pub == Some(Published(o.st, o.val)))
    && (o.waited ==> o.done)
    && o.deliveries == (if o.waited then 1 else 0)
  }

  /** The threads a future names are where it says they are. */
  predicate RefsOk(s: State, f: Fid, fut: Fut) {
    && (fut.mu.Some? ==> Pc0(s, fut.mu.value).Writing? && Pc0(s, fut.mu.value).f == f)
    && (fut.hold.rcpt.Unlinked? ==> Pc0(s, fut.hold.rcpt.t) == Unreffing(f))
    && (fut.hold.loc == Queued ==> f in s.queue)
    && (fut.hold.loc.With? ==> HasTask(Pc0(s, fut.hold.loc.w), f))
  }

  /** What an unissued future has not had done to it. */
  predicate UnbornOk(s: State, f: Fid, fut: Fut) {
    !fut.issued ==>
      && fut.hold.loc == NotQueued && fut.hold.rcpt == Linked && !fut.out.waited && fut.out.pub == None
         && fut.mu == None
      && (Pc0(s, fut.maker).Preparing? || Pc0(s, fut.maker).Publishing?) && Pc0(s, fut.maker).f == f
  }

  /** The task has not been started: not issued, queued, or just dequeued. */
  predicate YetToRun(s: State, fut: Fut) {
    !fut.issued || fut.hold.loc.Queued? || (fut.hold.loc.With? && Pc0(s, fut.hold.loc.w).WHave?)
  }

  /** A future already decided while its task has yet to run was forfeited by a break. */
  predicate EarlyOk(s: State, fut: Fut)
    requires fut.c in s.insts
  {
    && (fut.out.done && YetToRun(s, fut) ==>
          s.insts[fut.c].broken || BreakUnderWay(s, fut.c))
    && (fut.out.done && fut.hold.loc.With? && Pc0(s, fut.hold.loc.w).WLocked? ==> s.insts[fut.c].broken)
  }

  predicate FutOk(s: State, f: Fid)
    requires f in s.futs
  {
    var fut := s.futs[f];
    && HostSigned(s, fut.c) && IsHost(s, fut.maker)
    && CountOk(fut.hold) && OutcomeOk(fut.out)
    && RefsOk(s, f, fut) && UnbornOk(s, f, fut) && EarlyOk(s, fut)
    && (fut.hold.rcpt != Linked && !s.down ==> fut.sync && fut.out.waited)
    && (fut.issued && !fut.out.done ==> InPool(fut.hold))
    && (fut.pointers && !fut.out.waited ==> s.insts[fut.c].heap)
    && (s.down ==> fut.hold.frees == 1)
  }

  /** The thread holding a host signed instance's lock is breaking it or running one of
      its tasks. */
  predicate Holds(s: State, pc: Pc, i: Iid) {
    || (pc.Breaking? && pc.c == i)
    || ((pc.WLocked? || pc.WRunning? || pc.WFinished?) && pc.f in s.futs && s.futs[pc.f].c == i)
  }

  predicate InstOk(s: State, i: Iid)
    requires i in s.insts
  {
    var inst := s.insts[i];
    && (!inst.heap ==> inst.broken)
    && (inst.mu == None <==> inst.depth == 0)
    && (inst.mu.Some? && HostSigned(s, i) ==> inst.depth == 1 && Holds(s, Pc0(s, inst.mu.value), i))
    && (inst.mu.Some? && !HostSigned(s, i) ==>
          && inst.mu == Some(inst.signer)
          && Pc0(s, inst.signer).WRunning? && i in Pc0(s, inst.signer).stack)
  }

  predicate QueueOk(s: State) {
    && (forall k | 0 <= k < |s.queue| ::
          Alive(s, s.queue[k]) && s.futs[s.queue[k]].hold.loc == Queued && s.futs[s.queue[k]].issued)
    && (forall j, k | 0 <= j < k < |s.queue| :: s.queue[j] != s.queue[k])
  }

  /** A recorded answer is the published outcome, its write back refusal, or ErrState. */
  predicate AnswerOk(s: State, a: Answer) {
    && a.f in s.futs
    && (a.st == ErrState
        || (a.val.Some? && s.futs[a.f].out.pub == Some(Published(a.st, a.val.value)))
        || (a.st == ErrType && a.val == None && s.futs[a.f].out.pub.Some? && s.futs[a.f].out.pub.value.st == OK))
    && (if a.took then s.futs[a.f].out.waited && s.futs[a.f].mu == None else a.st == ErrState && a.val == None)
  }

  predicate AnswersOk(s: State) {
    && (forall k | 0 <= k < |s.answers| :: AnswerOk(s, s.answers[k]))
    && (forall j, k | 0 <= j < k < |s.answers| && s.answers[j].took && s.answers[k].took ::
          s.answers[j].f != s.answers[k].f)
  }

  ghost predicate PcsOk(s: State) {
    forall t: Tid :: PcOk(s, t)
  }

  predicate FutsOk(s: State) {
    forall f | f in s.futs :: FutOk(s, f)
  }

  predicate InstsOk(s: State) {
    forall i | i in s.insts :: InstOk(s, i)
  }

  ghost predicate Inv(s: State) {
    s.nworkers >= 1 && PcsOk(s) && FutsOk(s) && InstsOk(s) && QueueOk(s) && AnswersOk(s)
  }

  lemma InitInv(n: nat)
    requires n >= 1
    ensures Inv(Init(n))
  {
  }

  lemma PlaceOf(s: State, t: Tid)
    requires Inv(s)
    ensures PcOk(s, t)
  {
  }

  lemma FutureOf(s: State, f: Fid)
    requires Inv(s) && f in s.futs
    ensures FutOk(s, f)
  {
  }

  lemma InstanceOf(s: State, i: Iid)
    requires Inv(s) && i in s.insts
    ensures InstOk(s, i)
  {
  }

  lemma HeadOf(s: State)
    requires Inv(s) && s.queue != []
    ensures Alive(s, s.queue[0]) && s.futs[s.queue[0]].hold.loc == Queued && s.futs[s.queue[0]].issued
    ensures forall g | g in s.queue && g != s.queue[0] :: g in s.queue[1..]
  {
  }

  // ---- what one thread's step owes the rest ----

  /** The future a place in the protocol is about, if any. */
  function FutsOf(pc: Pc): set<Fid> {
    match pc
    case Preparing(f) => {f}
    case Publishing(f, _, _) => {f}
    case Waiting(f) => {f}
    case Writing(f, _) => {f}
    case Releasing(f) => {f}
    case Unreffing(f) => {f}
    case WHave(f) => {f}
    case WLocked(f) => {f}
    case WRunning(f, _) => {f}
    case WFinished(f) => {f}
    case WDropping(f) => {f}
    case _ => {}
  }

  /** The future a step concerns: the one it changes, else the one its thread is about. */
  function Concern(s: State, t: Tid, e: Effect): set<Fid> {
    if e.fut.Some? then {e.fut.value.0} else FutsOf(Pc0(s, t))
  }

  /** Thread t's step on one future, seen by every other thread. `lock` is the holder of
      the future's instance. */
  predicate FutGuarantee(a: Fut, b: Fut, t: Tid, lock: Option<Tid>) {
    && b.c == a.c && b.sync == a.sync && b.maker == a.maker
    && (a.issued ==> b.issued)
    && (a.maker != t ==> b.issued == a.issued)
    && (a.hold.frees == 0 && a.hold.rcpt == Linked && (a.sync ==> a.maker != t) ==>
          b.hold.frees == 0 && b.hold.rcpt == Linked)
    && (a.sync && a.maker != t ==> b.out.waited == a.out.waited)
    && (a.mu.Some? && a.mu != Some(t) ==> b.mu == a.mu && b.out == a.out && b.pointers == a.pointers)
    && (a.out.waited ==> b.out.waited)
    && (a.out.done ==> b.out.done)
    && (a.out.pub.Some? ==> b.out.pub == a.out.pub)
    && (a.out.waited && a.mu == None ==> b.mu == None)
    && (a.hold.rcpt.Unlinked? && a.hold.rcpt != Unlinked(t) ==>
          b.hold.rcpt == a.hold.rcpt && b.hold.frees == a.hold.frees)
    && (a.hold.loc.With? && a.hold.loc != With(t) ==> b.hold.loc == a.hold.loc && b.hold.frees == a.hold.frees)
    && (lock.Some? && lock != Some(t) ==>
          && (b.hold.rcpt == Linked <==> a.hold.rcpt == Linked)
          && (Disarmed(a) ==> Disarmed(b))
          && (a.hold.loc == With(lock.value) && !a.out.done ==> !b.out.done))
  }

  /** Thread t's step on one instance, seen by everyone else; `byWorker` says a pool
      thread signed it. */
  predicate InstGuarantee(p: Inst, q: Inst, t: Tid, byWorker: bool) {
    && q.signer == p.signer
    && (p.broken ==> q.broken)
    && (p.mu.Some? && p.mu != Some(t) ==> q.mu == p.mu && q.depth == p.depth && q.heap == p.heap)
    && (byWorker && p.signer != t ==> q == p)
  }

  /** A heap goes only when no future of its instance can still reach it. */
  predicate HeapLossOk(s: State, c: Iid, p: Inst, q: Inst) {
    p.heap && !q.heap ==>
      forall g | g in s.futs && s.futs[g].c == c :: s.futs[g].mu == None
        && (s.futs[g].pointers ==> s.futs[g].out.waited)
  }

  /** A thread that leaves off breaking leaves the instance broken. */
  predicate BreakOk(s: State, t: Tid, e: Effect) {
    Pc0(s, t).Breaking? ==>
      var d := Pc0(s, t).c;
      || (e.pc.Breaking? && e.pc.c == d && !Touches(e, d))
      || (Touches(e, d) && e.inst.value.1.broken)
  }

  /** A thread keeps its place around every lock it holds, unless the step is about that
      very instance. */
  predicate GripOk(s: State, t: Tid, e: Effect) {
    var pc := Pc0(s, t);
    && (pc.Breaking? ==> (e.pc.Breaking? && e.pc.c == pc.c) || Touches(e, pc.c))
    && ((pc.WLocked? || pc.WRunning? || pc.WFinished?) && pc.f in s.futs ==>
          InTask(e.pc, pc.f) || Touches(e, s.futs[pc.f].c))
    && (pc.WRunning? ==> forall x | x in pc.stack && !Touches(e, x) :: e.pc.WRunning? && x in e.pc.stack)
  }

  predicate Touches(e: Effect, i: Iid) {
    e.inst.Some? && e.inst.value.0 == i
  }

  /** Everything a step by t owes to what it does not concern. */
  predicate Owes(s: State, t: Tid, e: Effect) {
    && FutsOf(Pc0(s, t)) <= Concern(s, t, e)
    && BreakOk(s, t, e) && GripOk(s, t, e)
    && (e.fut.Some? ==>
          var (f, b) := e.fut.value;
          if f in s.futs then s.futs[f].c in s.insts && FutGuarantee(s.futs[f], b, t, s.insts[s.futs[f].c].mu)
          else b.c in s.insts && s.insts[b.c].mu == None)
    && (e.inst.Some? ==>
          var (c, q) := e.inst.value;
          if c in s.insts then InstGuarantee(s.insts[c], q, t, !IsHost(s, s.insts[c].signer))
            && HeapLossOk(s, c, s.insts[c], q)
          else q.signer == t)
    && (s.stop && s.queue == [] ==> e.queue == [])
    && (forall g | g in s.queue && g !in Concern(s, t, e) :: g in e.queue)
  }

  /** How the state after a step reads. */
  lemma Reads(s: State, t: Tid, e: Effect)
    ensures var s' := Apply(s, t, e);
            && Pc0(s', t) == e.pc
            && (forall u: Tid | u != t :: Pc0(s', u) == Pc0(s, u))
            && (forall g | g in s.futs && g !in Concern(s, t, e) :: g in s'.futs && s'.futs[g] == s.futs[g])
            && (forall g | g in s'.futs && g !in Concern(s, t, e) :: g in s.futs)
  {
  }

  lemma OthersKeepReceipts(s: State, t: Tid, e: Effect, u: Tid)
    requires Inv(s) && Owes(s, t, e) && u != t
    requires FutsOf(Pc0(s, u)) != {} && IsHost(s, u)
    ensures PcOk(Apply(s, t, e), u)
  {
    hide Inv, OutcomeOk, CountOk, EarlyOk, Disarmed;
    Reads(s, t, e);
    PlaceOf(s, u);
    FutureOf(s, Pc0(s, u).f);
  }

  lemma OthersKeepTasks(s: State, t: Tid, e: Effect, u: Tid)
    requires Inv(s) && Owes(s, t, e) && u != t
    requires !IsHost(s, u)
    ensures PcOk(Apply(s, t, e), u)
  {
    hide Inv, OutcomeOk, CountOk, EarlyOk, UnbornOk, RefsOk, Disarmed;
    Reads(s, t, e);
    PlaceOf(s, u);
    if FutsOf(Pc0(s, u)) != {} {
      FutureOf(s, Pc0(s, u).f);
    }
  }

  lemma OthersKeepBreaks(s: State, t: Tid, e: Effect, u: Tid)
    requires Inv(s) && Owes(s, t, e) && u != t
    requires Pc0(s, u).Breaking?
    ensures PcOk(Apply(s, t, e), u)
  {
    hide Inv, OutcomeOk, CountOk, EarlyOk, UnbornOk, RefsOk, Disarmed;
    Reads(s, t, e);
    var s' := Apply(s, t, e);
    PlaceOf(s, u);
    var d := Pc0(s, u).c;
    assert forall g | g in ListOf(s, d) :: g in ListOf(s', d);
    forall g | g in ListOf(s', d) ensures g in ListOf(s, d) && (Disarmed(s.futs[g]) ==> Disarmed(s'.futs[g])) {
      if g in s.futs {
        FutureOf(s, g);
      }
    }
  }

  lemma OthersKeepIdle(s: State, t: Tid, e: Effect, u: Tid)
    requires Inv(s) && Owes(s, t, e) && u != t && IsHost(s, u)
    requires !Pc0(s, u).Breaking? && FutsOf(Pc0(s, u)) == {}
    ensures PcOk(Apply(s, t, e), u)
  {
    hide Inv;
    PlaceOf(s, u);
  }

  /** No other thread loses what its place entitles it to. */
  lemma OthersKeepPlace(s: State, t: Tid, e: Effect, u: Tid)
    requires Inv(s) && Owes(s, t, e) && u != t
    ensures PcOk(Apply(s, t, e), u)
  {
    hide PcOk, Inv, Owes, Apply;
    if !IsHost(s, u) {
      OthersKeepTasks(s, t, e, u);
    } else if Pc0(s, u).Breaking? {
      OthersKeepBreaks(s, t, e, u);
    } else if FutsOf(Pc0(s, u)) != {} {
      OthersKeepReceipts(s, t, e, u);
    } else {
      OthersKeepIdle(s, t, e, u);
    }
  }

  /** No other future loses what it relies on. */
  lemma OthersKeepFuture(s: State, t: Tid, e: Effect, g: Fid)
    requires Inv(s) && Owes(s, t, e) && g in s.futs && g !in Concern(s, t, e)
    ensures FutOk(Apply(s, t, e), g)
  {
    hide Inv, OutcomeOk, CountOk, FutGuarantee;
    Reads(s, t, e);
    FutureOf(s, g);
  }

  /** No other instance loses its holder. */
  lemma OthersKeepInstance(s: State, t: Tid, e: Effect, j: Iid)
    requires Inv(s) && Owes(s, t, e) && j in s.insts && !Touches(e, j)
    ensures InstOk(Apply(s, t, e), j)
  {
    hide Inv, OutcomeOk, CountOk, EarlyOk, UnbornOk, RefsOk, BreakOk, HeapLossOk;
    Reads(s, t, e);
    InstanceOf(s, j);
    if s.insts[j].mu.Some? {
      PlaceOf(s, s.insts[j].mu.value);
    }
  }

  lemma FutHome(s: State, f: Fid)
    requires FutsOk(s) && f in s.futs
    ensures s.futs[f].c in s.insts
  {
    assert FutOk(s, f);
  }

  /** The answers recorded so far stay honest. */
  lemma AnswersKept(s: State, t: Tid, e: Effect, a: Answer)
    requires Inv(s) && Owes(s, t, e) && AnswerOk(s, a)
    ensures AnswerOk(Apply(s, t, e), a)
  {
    hide PcsOk, FutOk, InstsOk, QueueOk, InstGuarantee, AnswersOk;
    FutHome(s, a.f);
  }

  /** The queue stands if the step's own future did not leave it. */
  lemma QueueKept(s: State, t: Tid, e: Effect)
    requires Inv(s) && Owes(s, t, e) && e.queue == s.queue
    requires StaysQueued(s, e)
    ensures QueueOk(Apply(s, t, e))
  {
    hide PcsOk, FutOk, InstsOk, AnswersOk, InstGuarantee;
    forall k | 0 <= k < |s.queue|
      ensures var s' := Apply(s, t, e);
              Alive(s', s.queue[k]) && s'.futs[s.queue[k]].hold.loc == Queued && s'.futs[s.queue[k]].issued
    {
      FutHome(s, s.queue[k]);
    }
  }

  predicate StaysQueued(s: State, e: Effect) {
    e.fut.Some? && e.fut.value.0 in s.futs && s.futs[e.fut.value.0].hold.loc == Queued ==>
      e.fut.value.1.hold.loc == Queued && e.fut.value.1.hold.frees == s.futs[e.fut.value.0].hold.frees
  }

  /** Thread t's own place, future and instances after its step. */
  ghost predicate OwnOk(s: State, t: Tid, e: Effect) {
    var s' := Apply(s, t, e);
    && PcOk(s', t)
    && (forall g | g in Concern(s, t, e) :: g in s'.futs && FutOk(s', g))
    && (e.inst.Some? ==> InstOk(s', e.inst.value.0))
  }

  /** A step that keeps its own thread, future and instances in order, and owes the rest
      nothing, keeps the invariant. */
  lemma StepKeeps(s: State, t: Tid, e: Effect)
    requires Inv(s) && Owes(s, t, e) && OwnOk(s, t, e)
    requires QueueOk(Apply(s, t, e)) && AnswersOk(Apply(s, t, e))
    ensures Inv(Apply(s, t, e))
  {
    hide FutOk, PcOk, InstOk, QueueOk, AnswersOk, Owes;
    var s' := Apply(s, t, e);
    forall u: Tid ensures PcOk(s', u) {
      if u != t {
        OthersKeepPlace(s, t, e, u);
      }
    }
    forall g | g in s'.futs ensures FutOk(s', g) {
      if g !in Concern(s, t, e) {
        OthersKeepFuture(s, t, e, g);
      }
    }
    forall j | j in s'.insts ensures InstOk(s', j) {
      if !Touches(e, j) {
        OthersKeepInstance(s, t, e, j);
      }
    }
  }

  /** The common case: queue and answers unchanged. */
  lemma QuietStepKeeps(s: State, t: Tid, e: Effect)
    requires Inv(s) && Owes(s, t, e) && OwnOk(s, t, e)
    requires e.queue == s.queue && e.answers == s.answers && StaysQueued(s, e)
    ensures Inv(Apply(s, t, e))
  {
    hide Owes, OwnOk, QueueOk, AnswerOk, StaysQueued;
    QueueKept(s, t, e);
    forall k | 0 <= k < |s.answers| ensures AnswerOk(Apply(s, t, e), s.answers[k]) {
      AnswersKept(s, t, e, s.answers[k]);
    }
    StepKeeps(s, t, e);
  }

  /** A step that records one more answer. */
  lemma AnswerStepKeeps(s: State, t: Tid, e: Effect, a: Answer)
    requires Inv(s) && Owes(s, t, e) && OwnOk(s, t, e)
    requires e.queue == s.queue && StaysQueued(s, e)
    requires e.answers == s.answers + [a] && AnswerOk(Apply(s, t, e), a)
    requires a.took ==> a.f in s.futs && !(s.futs[a.f].out.waited && s.futs[a.f].mu == None)
    ensures Inv(Apply(s, t, e))
  {
    hide Owes, OwnOk, QueueOk, StaysQueued, Apply;
    QueueKept(s, t, e);
    forall k | 0 <= k < |s.answers|
      ensures AnswerOk(Apply(s, t, e), s.answers[k])
      ensures a.took && s.answers[k].took ==> s.answers[k].f != a.f
    {
      assert AnswerOk(s, s.answers[k]);
      AnswersKept(s, t, e, s.answers[k]);
    }
    ApplyAnswers(s, t, e);
    StepKeeps(s, t, e);
  }

  lemma ApplyAnswers(s: State, t: Tid, e: Effect)
    ensures Apply(s, t, e).answers == e.answers && Apply(s, t, e).queue == e.queue
  {
  }

  lemma AnswersAllKept(s: State, t: Tid, e: Effect)
    requires Inv(s) && Owes(s, t, e) && e.answers == s.answers
    ensures AnswersOk(Apply(s, t, e))
  {
    hide Owes, QueueOk, AnswerOk;
    forall k | 0 <= k < |s.answers| ensures AnswerOk(Apply(s, t, e), s.answers[k]) {
      AnswersKept(s, t, e, s.answers[k]);
    }
  }

  /** What the last frame of a stack of nested calls leaves behind. */
  lemma CountDrop(stack: seq<Iid>)
    requires stack != []
    ensures var (x, front) := (stack[|stack| - 1], stack[..|stack| - 1]);
            && (forall y :: Count(front, y) == Count(stack, y) - (if y == x then 1 else 0))
            && (forall y :: Count(front, y) > 0 <==> y in front)
            && (forall y | y in stack && y != x :: y in front)
  {
    var front := stack[..|stack| - 1];
    assert stack == front + [stack[|stack| - 1]];
    forall y ensures Count(front, y) > 0 <==> y in front {
      CountMember(front, y);
    }
  }

  /** The answer a waking wait records, if it records one now. */
  lemma WakeAnswer(s: State, t: Tid, nrefs: nat, e: Effect) returns (a: Answer)
    requires Inv(s) && !s.down && DoWake(s, t, nrefs) == Some(e)
    ensures e.queue == s.queue && StaysQueued(s, e)
    ensures e.answers == s.answers || (e.answers == s.answers + [a] && AnswerOk(Apply(s, t, e), a))
    ensures a.took ==> a.f in s.futs && !(s.futs[a.f].out.waited && s.futs[a.f].mu == None)
  {
    hide QueueOk, AnswersOk, InstsOk, PcsOk, UnbornOk, EarlyOk, RefsOk;
    var f := Pc0(s, t).f;
    FutureOf(s, f);
    a := if |e.answers| > |s.answers| then e.answers[|s.answers|] else Answer(f, ErrState, None, false);
  }

  lemma WriteDoneAnswer(s: State, t: Tid, e: Effect) returns (a: Answer)
    requires Inv(s) && !s.down && DoWriteDone(s, t) == Some(e)
    ensures e.queue == s.queue && StaysQueued(s, e)
    ensures e.answers == s.answers + [a] && AnswerOk(Apply(s, t, e), a)
    ensures a.took ==> a.f in s.futs && !(s.futs[a.f].out.waited && s.futs[a.f].mu == None)
  {
    hide QueueOk, AnswersOk, InstsOk, UnbornOk, EarlyOk, RefsOk;
    var f := Pc0(s, t).f;
    PlaceOf(s, t);
    FutureOf(s, f);
    a := e.answers[|s.answers|];
  }

  // ---- step by step ----

  lemma SignStep(s: State, t: Tid, i: Iid, e: Effect)
    requires Inv(s) && !s.down && DoSign(s, t, i) == Some(e)
    ensures Owes(s, t, e) && OwnOk(s, t, e)
  {
    hide Inv;
    PlaceOf(s, t);
    if Pc0(s, t).WRunning? {
      CountMember(Pc0(s, t).stack, i);
      FutureOf(s, Pc0(s, t).f);
    }
  }

  lemma NewFutureStep(s: State, t: Tid, f: Fid, c: Iid, sync: bool, e: Effect)
    requires Inv(s) && !s.down && DoNewFuture(s, t, f, c, sync) == Some(e)
    ensures Owes(s, t, e) && OwnOk(s, t, e)
  {
    hide Inv;
    PlaceOf(s, t);
    InstanceOf(s, c);
  }

  lemma PrepareStep(s: State, t: Tid, verdict: Status, refs: bool, e: Effect)
    requires Inv(s) && !s.down && DoPrepare(s, t, verdict, refs) == Some(e)
    ensures Owes(s, t, e) && OwnOk(s, t, e)
  {
    hide Inv;
    PlaceOf(s, t);
    FutureOf(s, Pc0(s, t).f);
    InstanceOf(s, s.futs[Pc0(s, t).f].c);
  }

  lemma PublishStep(s: State, t: Tid, e: Effect)
    requires Inv(s) && !s.down && DoPublish(s, t) == Some(e)
    ensures Owes(s, t, e) && OwnOk(s, t, e)
  {
    hide Inv;
    PlaceOf(s, t);
    FutureOf(s, Pc0(s, t).f);
  }

  lemma StartWaitStep(s: State, t: Tid, f: Fid, e: Effect)
    requires Inv(s) && !s.down && DoStartWait(s, t, f) == Some(e)
    ensures Owes(s, t, e) && OwnOk(s, t, e)
  {
    hide Inv;
    PlaceOf(s, t);
    FutureOf(s, f);
  }

  lemma WakeOwes(s: State, t: Tid, nrefs: nat, e: Effect)
    requires Inv(s) && !s.down && DoWake(s, t, nrefs) == Some(e)
    ensures Owes(s, t, e)
  {
    hide Inv;
    PlaceOf(s, t);
    FutureOf(s, Pc0(s, t).f);
  }

  lemma WakePlace(s: State, t: Tid, nrefs: nat, e: Effect)
    requires Inv(s) && !s.down && DoWake(s, t, nrefs) == Some(e)
    ensures PcOk(Apply(s, t, e), t)
  {
    hide Inv, CountOk, EarlyOk, UnbornOk;
    PlaceOf(s, t);
    FutureOf(s, Pc0(s, t).f);
  }

  lemma WaitingOf(s: State, t: Tid)
    requires Inv(s) && Pc0(s, t).Waiting?
    ensures Usable(s, t, Pc0(s, t).f) && FutOk(s, Pc0(s, t).f)
    ensures IsHost(s, t)
  {
    hide Inv;
    PlaceOf(s, t);
    FutureOf(s, Pc0(s, t).f);
  }

  /** What waking does to a future: nothing, or its one delivery, with its lock kept by a
      thread that has slots to write back. */
  predicate Woken(a: Fut, b: Fut, t: Tid, pc: Pc, f: Fid) {
    || b == a
    || (!a.out.waited && b == Take(a))
    || (!a.out.waited && b == Take(a).(mu := Some(t)) && pc.Writing? && pc.f == f)
  }

  lemma WakeWakes(s: State, t: Tid, nrefs: nat, e: Effect)
    requires DoWake(s, t, nrefs) == Some(e)
    ensures Pc0(s, t).Waiting? && Pc0(s, t).f in s.futs
    ensures var f := Pc0(s, t).f;
            && e.fut.Some? && e.fut.value.0 == f && e.inst == None && e.queue == s.queue
            && s.futs[f].out.done && s.futs[f].mu == None && Woken(s.futs[f], e.fut.value.1, t, e.pc, f)
  {
  }

  lemma WakeFuture(s: State, t: Tid, nrefs: nat, e: Effect)
    requires Inv(s) && !s.down && DoWake(s, t, nrefs) == Some(e)
    ensures Pc0(s, t).f in Apply(s, t, e).futs && FutOk(Apply(s, t, e), Pc0(s, t).f)
  {
    hide Inv, PcOk, DoWake;
    WakeWakes(s, t, nrefs, e);
    WaitingOf(s, t);
  }

  lemma WakeStep(s: State, t: Tid, nrefs: nat, e: Effect)
    requires Inv(s) && !s.down && DoWake(s, t, nrefs) == Some(e)
    ensures Owes(s, t, e) && OwnOk(s, t, e)
  {
    hide Inv, Owes, PcOk, FutOk, InstOk, Apply;
    WakeOwes(s, t, nrefs, e);
    WakePlace(s, t, nrefs, e);
    WakeFuture(s, t, nrefs, e);
  }

  lemma WriteRefStep(s: State, t: Tid, e: Effect)
    requires Inv(s) && !s.down && DoWriteRef(s, t) == Some(e)
    ensures Owes(s, t, e) && OwnOk(s, t, e)
  {
    hide Inv;
    PlaceOf(s, t);
    FutureOf(s, Pc0(s, t).f);
  }

  lemma WriteDoneStep(s: State, t: Tid, e: Effect)
    requires Inv(s) && !s.down && DoWriteDone(s, t) == Some(e)
    ensures Owes(s, t, e) && OwnOk(s, t, e)
  {
    hide Inv;
    PlaceOf(s, t);
    FutureOf(s, Pc0(s, t).f);
  }

  lemma UnlinkStep(s: State, t: Tid, e: Effect)
    requires Inv(s) && !s.down && DoUnlink(s, t) == Some(e)
    ensures Owes(s, t, e) && OwnOk(s, t, e)
  {
    hide Inv;
    PlaceOf(s, t);
    FutureOf(s, Pc0(s, t).f);
    InstanceOf(s, s.futs[Pc0(s, t).f].c);
  }

  lemma DropReceiptStep(s: State, t: Tid, e: Effect)
    requires Inv(s) && !s.down && DoDropReceipt(s, t) == Some(e)
    ensures Owes(s, t, e) && OwnOk(s, t, e)
  {
    hide Inv;
    PlaceOf(s, t);
    FutureOf(s, Pc0(s, t).f);
  }

  lemma StartBreakStep(s: State, t: Tid, c: Iid, e: Effect)
    requires Inv(s) && !s.down && DoStartBreak(s, t, c) == Some(e)
    ensures Owes(s, t, e) && OwnOk(s, t, e)
  {
    hide Inv;
    PlaceOf(s, t);
    InstanceOf(s, c);
  }

  lemma ForfeitOneOwes(s: State, t: Tid, f: Fid, e: Effect)
    requires Inv(s) && !s.down && DoForfeitOne(s, t, f) == Some(e)
    ensures Owes(s, t, e)
  {
    hide Inv;
    PlaceOf(s, t);
    FutureOf(s, f);
    InstanceOf(s, s.futs[f].c);
  }

  lemma ForfeitOnePlace(s: State, t: Tid, f: Fid, e: Effect)
    requires Inv(s) && !s.down && DoForfeitOne(s, t, f) == Some(e)
    ensures PcOk(Apply(s, t, e), t)
  {
    hide Inv, CountOk, EarlyOk, UnbornOk;
    PlaceOf(s, t);
    FutureOf(s, f);
    InstanceOf(s, s.futs[f].c);
  }

  lemma ForfeitOneFuture(s: State, t: Tid, f: Fid, e: Effect)
    requires Inv(s) && !s.down && DoForfeitOne(s, t, f) == Some(e)
    ensures f in Apply(s, t, e).futs && FutOk(Apply(s, t, e), f)
  {
    hide Inv, StackOk;
    PlaceOf(s, t);
    FutureOf(s, f);
    InstanceOf(s, s.futs[f].c);
    if s.futs[f].hold.loc.With? {
      PlaceOf(s, s.futs[f].hold.loc.w);
    }
  }

  lemma ForfeitOneStep(s: State, t: Tid, f: Fid, e: Effect)
    requires Inv(s) && !s.down && DoForfeitOne(s, t, f) == Some(e)
    ensures Owes(s, t, e) && OwnOk(s, t, e)
  {
    hide Inv, Owes, PcOk, FutOk, InstOk, Apply;
    ForfeitOneOwes(s, t, f, e);
    ForfeitOnePlace(s, t, f, e);
    ForfeitOneFuture(s, t, f, e);
  }

  lemma ReclaimStep(s: State, t: Tid, e: Effect)
    requires Inv(s) && !s.down && DoReclaim(s, t) == Some(e)
    ensures Owes(s, t, e) && OwnOk(s, t, e)
  {
    hide Inv;
    PlaceOf(s, t);
    var c := Pc0(s, t).c;
    forall g | g in s.futs && s.futs[g].c == c ensures s.futs[g].mu == None
      && (s.futs[g].pointers ==> s.futs[g].out.waited) {
      FutureOf(s, g);
      assert g in ListOf(s, c) ==> Disarmed(s.futs[g]);
      if s.futs[g].mu.Some? {
        PlaceOf(s, s.futs[g].mu.value);
      }
    }
    InstanceOf(s, Pc0(s, t).c);
  }

  lemma DequeueStep(s: State, t: Tid, e: Effect)
    requires Inv(s) && !s.down && DoDequeue(s, t) == Some(e)
    ensures Owes(s, t, e) && OwnOk(s, t, e)
  {
    hide Inv;
    PlaceOf(s, t);
    HeadOf(s);
    FutureOf(s, s.queue[0]);
  }

  lemma ExitStep(s: State, t: Tid, e: Effect)
    requires Inv(s) && !s.down && DoExit(s, t) == Some(e)
    ensures Owes(s, t, e) && OwnOk(s, t, e)
  {
    hide Inv;
    PlaceOf(s, t);
  }

  lemma LockStep(s: State, t: Tid, e: Effect)
    requires Inv(s) && !s.down && DoLock(s, t) == Some(e)
    ensures Owes(s, t, e) && OwnOk(s, t, e)
  {
    hide Inv;
    PlaceOf(s, t);
    FutureOf(s, Pc0(s, t).f);
    InstanceOf(s, s.futs[Pc0(s, t).f].c);
  }

  lemma RefuseStep(s: State, t: Tid, gate: Status, e: Effect)
    requires Inv(s) && !s.down && DoRefuse(s, t, gate) == Some(e)
    ensures Owes(s, t, e) && OwnOk(s, t, e)
  {
    hide Inv;
    PlaceOf(s, t);
    FutureOf(s, Pc0(s, t).f);
    InstanceOf(s, s.futs[Pc0(s, t).f].c);
  }

  lemma RunStep(s: State, t: Tid, e: Effect)
    requires Inv(s) && !s.down && DoRun(s, t) == Some(e)
    ensures Owes(s, t, e) && OwnOk(s, t, e)
  {
    hide Inv;
    PlaceOf(s, t);
    FutureOf(s, Pc0(s, t).f);
    InstanceOf(s, s.futs[Pc0(s, t).f].c);
    forall x | x in s.insts ensures InstOk(s, x) {
      InstanceOf(s, x);
    }
  }

  lemma NestEnterOwes(s: State, t: Tid, x: Iid, e: Effect)
    requires Inv(s) && !s.down && DoNestEnter(s, t, x) == Some(e)
    ensures Owes(s, t, e)
  {
    hide Inv;
    PlaceOf(s, t);
    FutureOf(s, Pc0(s, t).f);
    InstanceOf(s, e.inst.value.0);
  }

  lemma NestEnterPlace(s: State, t: Tid, x: Iid, e: Effect)
    requires Inv(s) && !s.down && DoNestEnter(s, t, x) == Some(e)
    ensures PcOk(Apply(s, t, e), t)
  {
    hide Inv, FutOk;
    PlaceOf(s, t);
    FutureOf(s, Pc0(s, t).f);
    InstanceOf(s, e.inst.value.0);
  }

  lemma NestEnterFuture(s: State, t: Tid, x: Iid, e: Effect)
    requires Inv(s) && !s.down && DoNestEnter(s, t, x) == Some(e)
    ensures Pc0(s, t).f in Apply(s, t, e).futs && FutOk(Apply(s, t, e), Pc0(s, t).f)
  {
    hide Inv, StackOk;
    PlaceOf(s, t);
    FutureOf(s, Pc0(s, t).f);
    InstanceOf(s, e.inst.value.0);
  }

  lemma NestEnterInst(s: State, t: Tid, x: Iid, e: Effect)
    requires Inv(s) && !s.down && DoNestEnter(s, t, x) == Some(e)
    ensures InstOk(Apply(s, t, e), x)
  {
    hide Inv, FutOk;
    PlaceOf(s, t);
    InstanceOf(s, e.inst.value.0);
  }

  lemma NestEnterStep(s: State, t: Tid, x: Iid, e: Effect)
    requires Inv(s) && !s.down && DoNestEnter(s, t, x) == Some(e)
    ensures Owes(s, t, e) && OwnOk(s, t, e)
  {
    hide Inv, Owes, PcOk, FutOk, InstOk, Apply;
    NestEnterOwes(s, t, x, e);
    NestEnterPlace(s, t, x, e);
    NestEnterFuture(s, t, x, e);
    NestEnterInst(s, t, x, e);
  }

  lemma NestRefuseStep(s: State, t: Tid, x: Iid, e: Effect)
    requires Inv(s) && !s.down && DoNestRefuse(s, t, x) == Some(e)
    ensures Owes(s, t, e) && OwnOk(s, t, e)
  {
    hide Inv;
    PlaceOf(s, t);
    FutureOf(s, Pc0(s, t).f);
  }

  lemma NestExitOwes(s: State, t: Tid, breaks: bool, e: Effect)
    requires Inv(s) && !s.down && DoNestExit(s, t, breaks) == Some(e)
    ensures Owes(s, t, e)
  {
    hide Inv;
    PlaceOf(s, t);
    FutureOf(s, Pc0(s, t).f);
    InstanceOf(s, e.inst.value.0);
  }

  lemma NestExitOwn(s: State, t: Tid, breaks: bool, e: Effect)
    requires Inv(s) && !s.down && DoNestExit(s, t, breaks) == Some(e)
    ensures OwnOk(s, t, e)
  {
    hide Inv;
    PlaceOf(s, t);
    FutureOf(s, Pc0(s, t).f);
    InstanceOf(s, e.inst.value.0);
    CountDrop(Pc0(s, t).stack);
  }

  lemma NestExitStep(s: State, t: Tid, breaks: bool, e: Effect)
    requires Inv(s) && !s.down && DoNestExit(s, t, breaks) == Some(e)
    ensures Owes(s, t, e) && OwnOk(s, t, e)
  {
    hide *;
    NestExitOwes(s, t, breaks, e);
    NestExitOwn(s, t, breaks, e);
  }

  lemma NestBreakStep(s: State, t: Tid, x: Iid, e: Effect)
    requires Inv(s) && !s.down && DoNestBreak(s, t, x) == Some(e)
    ensures Owes(s, t, e) && OwnOk(s, t, e)
  {
    hide Inv;
    PlaceOf(s, t);
    forall g | g in s.futs ensures s.futs[g].c != x {
      FutureOf(s, g);
    }
    FutureOf(s, Pc0(s, t).f);
    InstanceOf(s, x);
  }

  lemma ReturnOwes(s: State, t: Tid, st: Status, val: int, slotsOk: bool, breaks: bool, e: Effect)
    requires Inv(s) && !s.down && DoReturn(s, t, st, val, slotsOk, breaks) == Some(e)
    ensures Owes(s, t, e)
  {
    hide Inv;
    PlaceOf(s, t);
    FutureOf(s, Pc0(s, t).f);
    InstanceOf(s, s.futs[Pc0(s, t).f].c);
  }

  lemma ReturnOwn(s: State, t: Tid, st: Status, val: int, slotsOk: bool, breaks: bool, e: Effect)
    requires Inv(s) && !s.down && DoReturn(s, t, st, val, slotsOk, breaks) == Some(e)
    ensures OwnOk(s, t, e)
  {
    hide Inv;
    PlaceOf(s, t);
    FutureOf(s, Pc0(s, t).f);
    InstanceOf(s, s.futs[Pc0(s, t).f].c);
  }

  lemma ReturnStep(s: State, t: Tid, st: Status, val: int, slotsOk: bool, breaks: bool, e: Effect)
    requires Inv(s) && !s.down && DoReturn(s, t, st, val, slotsOk, breaks) == Some(e)
    ensures Owes(s, t, e) && OwnOk(s, t, e)
  {
    hide *;
    ReturnOwes(s, t, st, val, slotsOk, breaks, e);
    ReturnOwn(s, t, st, val, slotsOk, breaks, e);
  }

  lemma UnlockStep(s: State, t: Tid, e: Effect)
    requires Inv(s) && !s.down && DoUnlock(s, t) == Some(e)
    ensures Owes(s, t, e) && OwnOk(s, t, e)
  {
    hide Inv;
    PlaceOf(s, t);
    FutureOf(s, Pc0(s, t).f);
    InstanceOf(s, s.futs[Pc0(s, t).f].c);
  }

  lemma DropPoolStep(s: State, t: Tid, e: Effect)
    requires Inv(s) && !s.down && DoDropPool(s, t) == Some(e)
    ensures Owes(s, t, e) && OwnOk(s, t, e)
  {
    hide Inv;
    PlaceOf(s, t);
    FutureOf(s, Pc0(s, t).f);
  }

  lemma PublishQueue(s: State, t: Tid, e: Effect)
    requires Inv(s) && !s.down && DoPublish(s, t) == Some(e)
    ensures QueueOk(Apply(s, t, e)) && e.answers == s.answers
  {
    hide AnswersOk, InstsOk, PcsOk, FutsOk, EarlyOk, CountOk, OutcomeOk;
    PlaceOf(s, t);
    FutureOf(s, Pc0(s, t).f);
  }

  lemma DequeueQueue(s: State, t: Tid, e: Effect)
    requires Inv(s) && !s.down && DoDequeue(s, t) == Some(e)
    ensures QueueOk(Apply(s, t, e)) && e.answers == s.answers
  {
    hide AnswersOk, InstsOk, PcsOk, FutsOk;
  }

  // ---- all of them ----

  predicate ThreadStep(step: Step) {
    !step.RaiseStop? && !step.FreeAll?
  }

  lemma EachStep(s: State, step: Step, e: Effect)
    requires Inv(s) && !s.down && ThreadStep(step) && EffectOf(s, step) == Some(e)
    ensures Owes(s, step.t, e) && OwnOk(s, step.t, e)
  {
    hide Inv, Owes, OwnOk;
    match step
    case Sign(t, i) => SignStep(s, t, i, e);
    case NewFuture(t, f, c, sync) => NewFutureStep(s, t, f, c, sync, e);
    case Prepare(t, verdict, refs) => PrepareStep(s, t, verdict, refs, e);
    case Publish(t) => PublishStep(s, t, e);
    case StartWait(t, f) => StartWaitStep(s, t, f, e);
    case Wake(t, nrefs) => WakeStep(s, t, nrefs, e);
    case WriteRef(t) => WriteRefStep(s, t, e);
    case WriteDone(t) => WriteDoneStep(s, t, e);
    case Unlink(t) => UnlinkStep(s, t, e);
    case DropReceipt(t) => DropReceiptStep(s, t, e);
    case StartBreak(t, c) => StartBreakStep(s, t, c, e);
    case ForfeitOne(t, f) => ForfeitOneStep(s, t, f, e);
    case Reclaim(t) => ReclaimStep(s, t, e);
    case Dequeue(t) => DequeueStep(s, t, e);
    case Exit(t) => ExitStep(s, t, e);
    case Lock(t) => LockStep(s, t, e);
    case Refuse(t, gate) => RefuseStep(s, t, gate, e);
    case Run(t) => RunStep(s, t, e);
    case NestEnter(t, x) => NestEnterStep(s, t, x, e);
    case NestRefuse(t, x) => NestRefuseStep(s, t, x, e);
    case NestExit(t, breaks) => NestExitStep(s, t, breaks, e);
    case NestBreak(t, x) => NestBreakStep(s, t, x, e);
    case Return(t, st, val, slotsOk, breaks) => ReturnStep(s, t, st, val, slotsOk, breaks, e);
    case Unlock(t) => UnlockStep(s, t, e);
    case DropPool(t) => DropPoolStep(s, t, e);
  }

  predicate Loud(step: Step) {
    step.Publish? || step.Dequeue? || step.Wake? || step.WriteDone?
  }

  /** All but four kinds of step leave the queue and the answers alone. */
  lemma EachQuiet(s: State, step: Step, e: Effect)
    requires Inv(s) && !s.down && ThreadStep(step) && !Loud(step) && EffectOf(s, step) == Some(e)
    ensures e.queue == s.queue && e.answers == s.answers && StaysQueued(s, e)
  {
    hide Inv;
    PlaceOf(s, step.t);
    if e.fut.Some? && e.fut.value.0 in s.futs {
      FutureOf(s, e.fut.value.0);
    }
  }

  lemma ThreadStepKeeps(s: State, step: Step, e: Effect)
    requires Inv(s) && !s.down && ThreadStep(step) && EffectOf(s, step) == Some(e)
    ensures Inv(Apply(s, step.t, e))
  {
    hide Inv, Owes, OwnOk, Apply, StaysQueued, AnswerOk, QueueOk, AnswersOk;
    EachStep(s, step, e);
    if step.Publish? {
      PublishQueue(s, step.t, e);
      AnswersAllKept(s, step.t, e);
      StepKeeps(s, step.t, e);
    } else if step.Dequeue? {
      DequeueQueue(s, step.t, e);
      AnswersAllKept(s, step.t, e);
      StepKeeps(s, step.t, e);
    } else if step.Wake? {
      var a := WakeAnswer(s, step.t, step.nrefs, e);
      if e.answers == s.answers {
        QuietStepKeeps(s, step.t, e);
      } else {
        AnswerStepKeeps(s, step.t, e, a);
      }
    } else if step.WriteDone? {
      var a := WriteDoneAnswer(s, step.t, e);
      AnswerStepKeeps(s, step.t, e, a);
    } else {
      EachQuiet(s, step, e);
      QuietStepKeeps(s, step.t, e);
    }
  }

  lemma RaiseStopKeeps(s: State)
    requires Inv(s) && !s.down && DoRaiseStop(s).Some?
    ensures Inv(DoRaiseStop(s).value)
  {
    hide AnswersOk, QueueOk, OutcomeOk, CountOk;
    var s' := DoRaiseStop(s).value;
    forall t: Tid ensures PcOk(s', t) {
      PlaceOf(s, t);
    }
    forall f | f in s'.futs ensures FutOk(s', f) {
      FutureOf(s, f);
    }
    forall i | i in s'.insts ensures InstOk(s', i) {
      InstanceOf(s, i);
    }
    AnswersStand(s, s');
  }

  lemma AnswersStand(s: State, s': State)
    requires AnswersOk(s) && QueueOk(s) && s'.answers == s.answers && s'.futs == s.futs && s'.queue == s.queue
    ensures AnswersOk(s') && QueueOk(s')
  {
    forall k | 0 <= k < |s.answers| ensures AnswerOk(s', s.answers[k]) {
      assert AnswerOk(s, s.answers[k]);
    }
  }

  /** When every thread is gone and no call is in flight, all that is left of a future is
      its receipt, or nothing. */
  lemma AtRest(s: State, f: Fid)
    requires Inv(s) && f in s.futs && Joined(s)
    requires forall t | t in s.pcs && IsHost(s, t) :: s.pcs[t] == Idle
    ensures s.queue == []
    ensures var fut := s.futs[f];
            !InPool(fut.hold) && fut.issued && fut.out.done && fut.mu == None && !fut.hold.rcpt.Unlinked?
    ensures forall t: Tid :: Pc0(s, t) == Idle || Pc0(s, t) == WExited
  {
    hide Inv, EarlyOk, OutcomeOk;
    Crew(s);
    PlaceOf(s, 0);
    FutureOf(s, f);
    assert Pc0(s, 0) == WExited;
    forall t: Tid ensures Pc0(s, t) == Idle || Pc0(s, t) == WExited {
      PlaceOf(s, t);
    }
  }

  lemma Crew(s: State)
    requires Inv(s)
    ensures s.nworkers >= 1
  {
  }

  lemma FreeAllFuture(s: State, f: Fid)
    requires Inv(s) && !s.down && DoFreeAll(s).Some? && f in s.futs
    ensures FutOk(DoFreeAll(s).value, f)
    ensures DoFreeAll(s).value.futs[f].hold.frees == 1
  {
    hide Inv, OutcomeOk;
    FutureOf(s, f);
    AtRest(s, f);
  }

  lemma FreeAllKeeps(s: State)
    requires Inv(s) && !s.down && DoFreeAll(s).Some?
    ensures Inv(DoFreeAll(s).value)
  {
    hide AnswerOk, FutOk, AnswersOk, QueueOk;
    var s' := DoFreeAll(s).value;
    Crew(s);
    PlaceOf(s, 0);
    assert Pc0(s, 0) == WExited;
    forall t: Tid ensures PcOk(s', t) {
      PlaceOf(s, t);
    }
    forall f | f in s'.futs ensures FutOk(s', f) {
      FreeAllFuture(s, f);
    }
    forall i | i in s'.insts ensures InstOk(s', i) {
      InstanceOf(s, i);
      if s.insts[i].mu.Some? {
        PlaceOf(s, s.insts[i].mu.value);
      }
    }
    AnswersOutlive(s, s');
  }

  lemma AnswersOutlive(s: State, s': State)
    requires AnswersOk(s) && s'.answers == s.answers && s.queue == [] && s'.queue == []
    requires forall f | f in s.futs :: f in s'.futs && s'.futs[f].out == s.futs[f].out && s'.futs[f].mu == s.futs[f].mu
    ensures AnswersOk(s') && QueueOk(s')
  {
    forall k | 0 <= k < |s.answers| ensures AnswerOk(s', s.answers[k]) {
      assert AnswerOk(s, s.answers[k]);
    }
  }

  /** Every step keeps the invariant. */
  lemma NextKeeps(s: State, step: Step)
    requires Inv(s) && Next(s, step).Some?
    ensures Inv(Next(s, step).value)
  {
    hide Inv, Apply, EffectOf, DoRaiseStop, DoFreeAll;
    if step.RaiseStop? {
      RaiseStopKeeps(s);
    } else if step.FreeAll? {
      FreeAllKeeps(s);
    } else {
      ThreadStepKeeps(s, step, EffectOf(s, step).value);
    }
  }

  lemma {:induction false} RunKeeps(s: State, steps: seq<Step>)
    requires Inv(s) && RunOf(s, steps).Some?
    ensures Inv(RunOf(s, steps).value)
    decreases |steps|
  {
    hide Inv, Next;
    if steps != [] {
      NextKeeps(s, steps[0]);
      RunKeeps(Next(s, steps[0]).value, steps[1..]);
    }
  }

  /** The invariant holds in every state of every run. */
  lemma ReachableKeeps(s: State)
    requires Reachable(s)
    ensures Inv(s)
  {
    var n: nat, steps :| n >= 1 && RunOf(Init(n), steps) == Some(s);
    InitInv(n);
    RunKeeps(Init(n), steps);
  }
}
