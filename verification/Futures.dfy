/** The future, pool and break protocol as a step system: host threads that fulfil,
    wait, release and break, pool workers that drain one queue, and a shutdown, all
    interleaved at the grain of one lock acquisition. Each step is what one thread does
    inside one critical section, or between two of them. */
module Futures {
  import opened Basics

  type Tid = nat
  type Iid = nat
  type Fid = nat

  /** Where the pool's hold on a future is. */
  datatype Loc = NotQueued | Queued | With(w: Tid) | Dropped

  /** Where the receipt's hold is: on the instance's list, in the hands of the thread
      that unlinked it, or given up. */
  datatype Receipt = Linked | Unlinked(t: Tid) | Gone

  /** What the first future_finish published. */
  datatype Published = Published(st: Status, val: int)

  /** The outcome half of a future: `pub` and `deliveries` record history. */
  datatype Outcome = Outcome(done: bool, waited: bool, st: Status, val: int, pub: Option<Published>, deliveries: nat)

  /** The holds on a future: its count, who has each, and how often it was freed. */
  datatype Hold = Hold(refcnt: nat, loc: Loc, rcpt: Receipt, frees: nat)

  /** One GeasFuture. `pointers` says frame, refs or ref_slots point into the instance
      heap; `slotsOk` that the body left every slot its declared type. */
  datatype Fut = Fut(
    c: Iid, sync: bool, maker: Tid, issued: bool,
    out: Outcome, hold: Hold, mu: Option<Tid>,
    pointers: bool, hasRefs: bool, slotsOk: bool)

  /** One instance: its recursive lock, whether its state refuses fulfilments, and
      whether its heap is still there. */
  datatype Inst = Inst(signer: Tid, broken: bool, heap: bool, mu: Option<Tid>, depth: nat)

  datatype Pc =
    // a host thread
    | Idle
    | Preparing(f: Fid)
    | Publishing(f: Fid, ready: bool, verdict: Status)
    | Waiting(f: Fid)
    | Writing(f: Fid, slots: nat)
    | Releasing(f: Fid)
    | Unreffing(f: Fid)
    | Breaking(c: Iid, todo: set<Fid>)
    // a pool worker
    | WIdle
    | WHave(f: Fid)
    | WLocked(f: Fid)
    | WRunning(f: Fid, stack: seq<Iid>)
    | WFinished(f: Fid)
    | WDropping(f: Fid)
    | WExited

  /** What a wait answered, and whether it was the one that took the outcome. */
  datatype Answer = Answer(f: Fid, st: Status, val: Option<int>, took: bool)

  datatype State = State(
    nworkers: nat,
    insts: map<Iid, Inst>,
    futs: map<Fid, Fut>,
    queue: seq<Fid>,
    pcs: map<Tid, Pc>,
    answers: seq<Answer>,
    stop: bool,
    down: bool)

  function Pc0(s: State, t: Tid): Pc {
    if t in s.pcs then s.pcs[t] else if t < s.nworkers then WIdle else Idle
  }

  // ---- what the future operations do to one future ----

  /** future_finish: publishes once; a later completion changes nothing. */
  function Finish(f: Fut, st: Status, val: int): Fut {
    if f.out.done then f
    else f.(out := f.out.(done := true, st := st, val := val, pub := Some(Published(st, val))))
  }

  /** future_forfeit: an unwaited future loses its outcome and its heap pointers. */
  function Forfeit(f: Fut): Fut {
    if f.out.waited then f
    else f.(out := f.out.(done := true, st := ErrState, val := 0), pointers := false, hasRefs := false)
  }

  /** The one wait that takes the outcome. */
  function Take(f: Fut): Fut {
    f.(out := f.out.(waited := true, deliveries := f.out.deliveries + 1))
  }

  /** future_unref: one hold less, and the struct is freed with the last. */
  function Unref(h: Hold): Hold
    requires h.refcnt > 0
  {
    h.(refcnt := h.refcnt - 1, frees := h.frees + (if h.refcnt == 1 then 1 else 0))
  }

  function Fresh(c: Iid, sync: bool, maker: Tid): Fut {
    Fut(c, sync, maker, false, Outcome(false, false, OK, 0, None, 0), Hold(1, NotQueued, Linked, 0), None,
        false, false, true)
  }

  // ---- the steps ----

  datatype Step =
    | Sign(t: Tid, i: Iid)
    | NewFuture(t: Tid, f: Fid, c: Iid, sync: bool)
    | Prepare(t: Tid, verdict: Status, refs: bool)
    | Publish(t: Tid)
    | StartWait(t: Tid, f: Fid)
    | Wake(t: Tid, nrefs: nat)
    | WriteRef(t: Tid)
    | WriteDone(t: Tid)
    | Unlink(t: Tid)
    | DropReceipt(t: Tid)
    | StartBreak(t: Tid, c: Iid)
    | ForfeitOne(t: Tid, f: Fid)
    | Reclaim(t: Tid)
    | Dequeue(t: Tid)
    | Exit(t: Tid)
    | Lock(t: Tid)
    | Refuse(t: Tid, gate: Status)
    | Run(t: Tid)
    | NestEnter(t: Tid, x: Iid)
    | NestRefuse(t: Tid, x: Iid)
    | NestExit(t: Tid, breaks: bool)
    | NestBreak(t: Tid, x: Iid)
    | Return(t: Tid, st: Status, val: int, slotsOk: bool, breaks: bool)
    | Unlock(t: Tid)
    | DropPool(t: Tid)
    | RaiseStop
    | FreeAll

  predicate Alive(s: State, f: Fid) {
    f in s.futs && s.futs[f].hold.frees == 0
  }

  predicate Unlocked(s: State, c: Iid) {
    c in s.insts && s.insts[c].mu == None
  }

  predicate IsHost(s: State, t: Tid) {
    t >= s.nworkers
  }

  predicate HostSigned(s: State, c: Iid) {
    c in s.insts && IsHost(s, s.insts[c].signer)
  }

  /** Where a delivered wait goes: the synchronous form releases its own receipt. */
  function AfterWait(sync: bool, f: Fid): Pc {
    if sync then Releasing(f) else Idle
  }

  /** What one thread's step does: where it goes, the one future and the one instance it
      changes, and the queue and the answers after it. Everything else stands. */
  datatype Effect = Effect(
    pc: Pc, fut: Option<(Fid, Fut)>, inst: Option<(Iid, Inst)>, queue: seq<Fid>, answers: seq<Answer>)

  function Apply(s: State, t: Tid, e: Effect): State {
    s.(pcs := s.pcs[t := e.pc],
       futs := if e.fut.Some? then s.futs[e.fut.value.0 := e.fut.value.1] else s.futs,
       insts := if e.inst.Some? then s.insts[e.inst.value.0 := e.inst.value.1] else s.insts,
       queue := e.queue,
       answers := e.answers)
  }

  function Go(s: State, pc: Pc): Effect {
    Effect(pc, None, None, s.queue, s.answers)
  }

  function GoFut(s: State, pc: Pc, f: Fid, fut: Fut): Effect {
    Effect(pc, Some((f, fut)), None, s.queue, s.answers)
  }

  function GoInst(s: State, pc: Pc, i: Iid, inst: Inst): Effect {
    Effect(pc, None, Some((i, inst)), s.queue, s.answers)
  }

  /** geas_contract_sign's publication, by a host or from a body. */
  function DoSign(s: State, t: Tid, i: Iid): Option<Effect> {
    if i in s.insts || !(Pc0(s, t).Idle? || Pc0(s, t).WRunning?) then None
    else Some(GoInst(s, Pc0(s, t), i, Inst(t, false, true, None, 0)))
  }

  /** future_new, under the instance lock. */
  function DoNewFuture(s: State, t: Tid, f: Fid, c: Iid, sync: bool): Option<Effect> {
    if !IsHost(s, t) || Pc0(s, t) != Idle || s.stop || f in s.futs || !HostSigned(s, c) || !Unlocked(s, c) then None
    else Some(GoFut(s, Preparing(f), f, Fresh(c, sync, t)))
  }

  /** The validation and copy in of geas_pledge_fulfill, under the instance lock. A
      refusal found after the refs were copied leaves them behind. */
  function DoPrepare(s: State, t: Tid, verdict: Status, refs: bool): Option<Effect> {
    var pc := Pc0(s, t);
    if !pc.Preparing? || pc.f !in s.futs || !Unlocked(s, s.futs[pc.f].c) then None
    else
      var fut := s.futs[pc.f];
      if s.insts[fut.c].broken then Some(Go(s, Publishing(pc.f, false, ErrState)))
      else
        Some(GoFut(s, Publishing(pc.f, verdict == OK, verdict), pc.f,
                   fut.(pointers := refs || verdict == OK, hasRefs := refs)))
  }

  /** Enqueue with the pool's own hold, or finish with the refusal on the spot. */
  function DoPublish(s: State, t: Tid): Option<Effect> {
    var pc := Pc0(s, t);
    if !pc.Publishing? || pc.f !in s.futs || s.futs[pc.f].mu.Some? then None
    else
      var fut := s.futs[pc.f].(issued := true);
      var next := if fut.sync then Waiting(pc.f) else Idle;
      if pc.ready then
        Some(GoFut(s, next, pc.f, fut.(hold := fut.hold.(refcnt := 2, loc := Queued))).(queue := s.queue + [pc.f]))
      else Some(GoFut(s, next, pc.f, Finish(fut, pc.verdict, 0)))
  }

  /** geas_future_wait on a receipt the asynchronous form returned. */
  function DoStartWait(s: State, t: Tid, f: Fid): Option<Effect> {
    if !IsHost(s, t) || Pc0(s, t) != Idle || f !in s.futs || !s.futs[f].issued || s.futs[f].sync then None
    else Some(GoFut(s, Waiting(f), f, s.futs[f]))
  }

  /** A wait's answer, and where the thread goes with it. */
  function Answered(s: State, f: Fid, fut: Fut, a: Answer): Effect {
    GoFut(s, AfterWait(fut.sync, f), f, fut).(answers := s.answers + [a])
  }

  /** The wait past its condition variable, up to the write back. */
  function DoWake(s: State, t: Tid, nrefs: nat): Option<Effect> {
    var pc := Pc0(s, t);
    if !pc.Waiting? || pc.f !in s.futs || !s.futs[pc.f].out.done || s.futs[pc.f].mu.Some? then None
    else
      var fut := s.futs[pc.f];
      if fut.out.waited then Some(Answered(s, pc.f, fut, Answer(pc.f, ErrState, None, false)))
      else if fut.out.st == OK && fut.hasRefs && fut.pointers then
        if !fut.slotsOk then Some(Answered(s, pc.f, Take(fut), Answer(pc.f, ErrType, None, true)))
        else Some(GoFut(s, Writing(pc.f, nrefs), pc.f, Take(fut).(mu := Some(t))))
      else Some(Answered(s, pc.f, Take(fut), Answer(pc.f, fut.out.st, Some(fut.out.val), true)))
  }

  /** One slot written back to the host, under the future's lock. */
  function DoWriteRef(s: State, t: Tid): Option<Effect> {
    var pc := Pc0(s, t);
    if !pc.Writing? || pc.slots == 0 then None else Some(Go(s, Writing(pc.f, pc.slots - 1)))
  }

  function DoWriteDone(s: State, t: Tid): Option<Effect> {
    var pc := Pc0(s, t);
    if !pc.Writing? || pc.slots != 0 || pc.f !in s.futs then None
    else
      var fut := s.futs[pc.f];
      Some(Answered(s, pc.f, fut.(mu := None), Answer(pc.f, fut.out.st, Some(fut.out.val), true)))
  }

  /** future_release, first half: off the list, under the instance lock. */
  function DoUnlink(s: State, t: Tid): Option<Effect> {
    var pc := Pc0(s, t);
    if !pc.Releasing? || pc.f !in s.futs || !Unlocked(s, s.futs[pc.f].c) then None
    else
      var fut := s.futs[pc.f];
      Some(GoFut(s, Unreffing(pc.f), pc.f, fut.(hold := fut.hold.(rcpt := Unlinked(t)))))
  }

  /** future_release, second half. */
  function DoDropReceipt(s: State, t: Tid): Option<Effect> {
    var pc := Pc0(s, t);
    if !pc.Unreffing? || pc.f !in s.futs || s.futs[pc.f].mu.Some? || s.futs[pc.f].hold.refcnt == 0 then None
    else
      var fut := s.futs[pc.f];
      Some(GoFut(s, Idle, pc.f, fut.(hold := Unref(fut.hold).(rcpt := Gone))))
  }

  /** The futures on an instance's list. */
  function ListOf(s: State, c: Iid): set<Fid> {
    set f | f in s.futs && s.futs[f].c == c && s.futs[f].hold.rcpt == Linked
  }

  function DoStartBreak(s: State, t: Tid, c: Iid): Option<Effect> {
    if !IsHost(s, t) || Pc0(s, t) != Idle || !HostSigned(s, c) || !Unlocked(s, c) then None
    else Some(GoInst(s, Breaking(c, ListOf(s, c)), c, s.insts[c].(mu := Some(t), depth := 1)))
  }

  function DoForfeitOne(s: State, t: Tid, f: Fid): Option<Effect> {
    var pc := Pc0(s, t);
    if !pc.Breaking? || f !in pc.todo || f !in s.futs || s.futs[f].mu.Some? then None
    else Some(GoFut(s, Breaking(pc.c, pc.todo - {f}), f, Forfeit(s.futs[f])))
  }

  /** The heap goes, the state turns Broken, the lock is released. */
  function DoReclaim(s: State, t: Tid): Option<Effect> {
    var pc := Pc0(s, t);
    if !pc.Breaking? || pc.todo != {} || pc.c !in s.insts then None
    else Some(GoInst(s, Idle, pc.c, s.insts[pc.c].(broken := true, heap := false, mu := None, depth := 0)))
  }

  function DoDequeue(s: State, w: Tid): Option<Effect> {
    if IsHost(s, w) || Pc0(s, w) != WIdle || s.queue == [] || s.queue[0] !in s.futs then None
    else
      var f := s.queue[0];
      var fut := s.futs[f];
      Some(GoFut(s, WHave(f), f, fut.(hold := fut.hold.(loc := With(w)))).(queue := s.queue[1..]))
  }

  /** Only an empty queue after qstop lets a worker go. */
  function DoExit(s: State, w: Tid): Option<Effect> {
    if IsHost(s, w) || Pc0(s, w) != WIdle || s.queue != [] || !s.stop then None else Some(Go(s, WExited))
  }

  function DoLock(s: State, w: Tid): Option<Effect> {
    var pc := Pc0(s, w);
    if !pc.WHave? || pc.f !in s.futs || !Unlocked(s, s.futs[pc.f].c) then None
    else
      var c := s.futs[pc.f].c;
      Some(GoInst(s, WLocked(pc.f), c, s.insts[c].(mu := Some(w), depth := 1)))
  }

  /** run_task without the body: the state refuses, or the transaction gate does. */
  function DoRefuse(s: State, w: Tid, gate: Status): Option<Effect> {
    var pc := Pc0(s, w);
    if !pc.WLocked? || pc.f !in s.futs || s.futs[pc.f].c !in s.insts || s.futs[pc.f].mu.Some? then None
    else if !s.insts[s.futs[pc.f].c].broken && gate == OK then None
    else
      var st := if s.insts[s.futs[pc.f].c].broken then ErrState else gate;
      Some(GoFut(s, WFinished(pc.f), pc.f, Finish(s.futs[pc.f], st, 0)))
  }

  function DoRun(s: State, w: Tid): Option<Effect> {
    var pc := Pc0(s, w);
    if !pc.WLocked? || pc.f !in s.futs || s.futs[pc.f].c !in s.insts || s.insts[s.futs[pc.f].c].broken then None
    else Some(Go(s, WRunning(pc.f, [])))
  }

  /** fulfill_inline on an instance this thread signed: a recursive lock acquisition, and
      with the state open to fulfilments a nested body. */
  function DoNestEnter(s: State, w: Tid, x: Iid): Option<Effect> {
    var pc := Pc0(s, w);
    if !pc.WRunning? || x !in s.insts || s.insts[x].signer != w || s.insts[x].broken
      || !(s.insts[x].mu == None || s.insts[x].mu == Some(w)) then None
    else
      Some(GoInst(s, WRunning(pc.f, pc.stack + [x]), x, s.insts[x].(mu := Some(w), depth := s.insts[x].depth + 1)))
  }

  /** fulfill_inline without a body: locked, refused by the state, the arguments or the
      transaction gate, and unlocked again. */
  function DoNestRefuse(s: State, w: Tid, x: Iid): Option<Effect> {
    var pc := Pc0(s, w);
    if !pc.WRunning? || x !in s.insts || s.insts[x].signer != w
      || !(s.insts[x].mu == None || s.insts[x].mu == Some(w)) then None
    else Some(Go(s, pc))
  }

  /** The nested body returns: latch and policy, which may break the instance by itself,
      then the lock. */
  function DoNestExit(s: State, w: Tid, breaks: bool): Option<Effect> {
    var pc := Pc0(s, w);
    if !pc.WRunning? || pc.stack == [] || pc.stack[|pc.stack| - 1] !in s.insts
       || s.insts[pc.stack[|pc.stack| - 1]].depth == 0 then None
    else
      var x := pc.stack[|pc.stack| - 1];
      var inst := s.insts[x];
      Some(GoInst(s, WRunning(pc.f, pc.stack[..|pc.stack| - 1]), x,
                  inst.(broken := inst.broken || breaks,
                        depth := inst.depth - 1, mu := if inst.depth == 1 then None else inst.mu)))
  }

  /** A body breaking an instance it signed and is not itself inside of. */
  function DoNestBreak(s: State, w: Tid, x: Iid): Option<Effect> {
    var pc := Pc0(s, w);
    if !pc.WRunning? || x !in s.insts || s.insts[x].signer != w || s.insts[x].mu != None then None
    else Some(GoInst(s, pc, x, s.insts[x].(broken := true, heap := false)))
  }

  /** The body returns: latch, policy (which may break the instance by itself, keeping
      its heap) and the published outcome, all under the instance lock. */
  function DoReturn(s: State, w: Tid, st: Status, val: int, slotsOk: bool, breaks: bool): Option<Effect> {
    var pc := Pc0(s, w);
    if !pc.WRunning? || pc.stack != [] || pc.f !in s.futs || s.futs[pc.f].c !in s.insts
      || s.futs[pc.f].mu.Some? then None
    else
      var fut := s.futs[pc.f];
      var inst := s.insts[fut.c];
      Some(GoInst(s, WFinished(pc.f), fut.c, inst.(broken := inst.broken || breaks))
           .(fut := Some((pc.f, Finish(fut.(slotsOk := slotsOk), st, val)))))
  }

  function DoUnlock(s: State, w: Tid): Option<Effect> {
    var pc := Pc0(s, w);
    if !pc.WFinished? || pc.f !in s.futs || s.futs[pc.f].c !in s.insts then None
    else
      var c := s.futs[pc.f].c;
      Some(GoInst(s, WDropping(pc.f), c, s.insts[c].(mu := None, depth := 0)))
  }

  function DoDropPool(s: State, w: Tid): Option<Effect> {
    var pc := Pc0(s, w);
    if !pc.WDropping? || pc.f !in s.futs || s.futs[pc.f].mu.Some? || s.futs[pc.f].hold.refcnt == 0 then None
    else
      var fut := s.futs[pc.f];
      Some(GoFut(s, WIdle, pc.f, fut.(hold := Unref(fut.hold).(loc := Dropped))))
  }

  /** Shutdown is called with no fulfilment half started. */
  function DoRaiseStop(s: State): Option<State> {
    if s.stop || exists t | t in s.pcs :: s.pcs[t].Preparing? || s.pcs[t].Publishing? then None
    else Some(s.(stop := true))
  }

  predicate Joined(s: State) {
    forall w | 0 <= w < s.nworkers :: Pc0(s, w) == WExited
  }

  /** future_free by the shutdown walk, whatever the count says. */
  function Reap(h: Hold): Hold {
    h.(refcnt := 0, rcpt := Gone, frees := h.frees + 1)
  }

  /** The walk that frees what is still linked, after the joins and with no host call in
      flight. */
  function DoFreeAll(s: State): Option<State> {
    if s.down || !s.stop || !Joined(s) || exists t | t in s.pcs :: IsHost(s, t) && s.pcs[t] != Idle then None
    else
      Some(s.(down := true,
              futs := map f | f in s.futs ::
                if s.futs[f].hold.rcpt == Linked then s.futs[f].(hold := Reap(s.futs[f].hold)) else s.futs[f]))
  }

  /** The effect of a step that is one thread's own; the thread is `step.t`. */
  function EffectOf(s: State, step: Step): Option<Effect>
    requires !step.RaiseStop? && !step.FreeAll?
  {
    match step
    case Sign(t, i) => DoSign(s, t, i)
    case NewFuture(t, f, c, sync) => DoNewFuture(s, t, f, c, sync)
    case Prepare(t, verdict, refs) => DoPrepare(s, t, verdict, refs)
    case Publish(t) => DoPublish(s, t)
    case StartWait(t, f) => DoStartWait(s, t, f)
    case Wake(t, nrefs) => DoWake(s, t, nrefs)
    case WriteRef(t) => DoWriteRef(s, t)
    case WriteDone(t) => DoWriteDone(s, t)
    case Unlink(t) => DoUnlink(s, t)
    case DropReceipt(t) => DoDropReceipt(s, t)
    case StartBreak(t, c) => DoStartBreak(s, t, c)
    case ForfeitOne(t, f) => DoForfeitOne(s, t, f)
    case Reclaim(t) => DoReclaim(s, t)
    case Dequeue(t) => DoDequeue(s, t)
    case Exit(t) => DoExit(s, t)
    case Lock(t) => DoLock(s, t)
    case Refuse(t, gate) => DoRefuse(s, t, gate)
    case Run(t) => DoRun(s, t)
    case NestEnter(t, x) => DoNestEnter(s, t, x)
    case NestRefuse(t, x) => DoNestRefuse(s, t, x)
    case NestExit(t, breaks) => DoNestExit(s, t, breaks)
    case NestBreak(t, x) => DoNestBreak(s, t, x)
    case Return(t, st, val, slotsOk, breaks) => DoReturn(s, t, st, val, slotsOk, breaks)
    case Unlock(t) => DoUnlock(s, t)
    case DropPool(t) => DoDropPool(s, t)
  }

  /** One step of the whole system; None when the step is not enabled. Nothing happens
      after the runtime is gone. */
  function Next(s: State, step: Step): Option<State> {
    if s.down then None
    else if step.RaiseStop? then DoRaiseStop(s)
    else if step.FreeAll? then DoFreeAll(s)
    else
      match EffectOf(s, step)
      case None => None
      case Some(e) => Some(Apply(s, step.t, e))
  }

  function Init(nworkers: nat): State {
    State(nworkers, map[], map[], [], map[], [], false, false)
  }

  /** The state a run of steps reaches, if every one of them was enabled. */
  function RunOf(s: State, steps: seq<Step>): Option<State>
    decreases |steps|
  {
    if steps == [] then Some(s)
    else
      match Next(s, steps[0])
      case None => None
      case Some(s') => RunOf(s', steps[1..])
  }

  /** A state some run from a fresh runtime with at least one worker reaches. */
  ghost predicate Reachable(s: State) {
    exists n: nat, steps: seq<Step> :: n >= 1 && RunOf(Init(n), steps) == Some(s)
  }
}
