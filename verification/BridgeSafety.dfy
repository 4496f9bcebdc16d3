/** What the bridge promises over every run of every number of servers. */
module BridgeSafety {
  import opened Basics
  import opened Bridge

  // ---- histories ----

  predicate FateOk(f: Fate) {
    && f.tries <= 1 && f.breaks <= 1 && !(f.tries == 1 && f.drained)
    && (f.breaks == 1 ==> f.tries == 1 || f.drained)
  }

  /** What a session's history must be while it is where it is. */
  predicate PlaceOk(w: World, r: Rid, id: nat) {
    var p := Rep(w, r);
    && (id in p.live ==> p.live[id].sid < |w.fates| && w.fates[p.live[id].sid] == Fate(0, 0, false))
    && (id in p.ending ==>
          var e := p.ending[id];
          && e.s.sid < |w.fates|
          && (if e.tried then w.fates[e.s.sid].breaks == 0 && (w.fates[e.s.sid].tries == 1 || w.fates[e.s.sid].drained)
              else w.fates[e.s.sid] == Fate(0, 0, false)))
  }

  function SidAt(w: World, r: Rid, id: nat): Option<nat> {
    var p := Rep(w, r);
    if id in p.live then Some(p.live[id].sid) else if id in p.ending then Some(p.ending[id].s.sid) else None
  }

  ghost predicate SidsApart(w: World) {
    forall r: Rid, q: Rid, id: nat, jd: nat :: SidAt(w, r, id).Some? && SidAt(w, r, id) == SidAt(w, q, jd) ==>
      r == q && id == jd
  }

  ghost predicate Placed(w: World) {
    forall r: Rid, id: nat :: PlaceOk(w, r, id)
  }

  predicate FatesOk(w: World) {
    forall k | 0 <= k < |w.fates| :: FateOk(w.fates[k])
  }

  ghost predicate HistoryOk(w: World) {
    SidsApart(w) && Placed(w) && FatesOk(w)
  }

  ghost predicate IdsAllOk(w: World) {
    forall r: Rid :: IdsOk(Rep(w, r))
  }

  ghost predicate RowsOk(w: World) {
    (forall token: Token :: RowOk(w, token)) && (forall r: Rid :: CopyOk(w, r))
  }

  /** A row, and every copy read from one, is what its token's parks say. */
  predicate RowOk(w: World, token: Token) {
    token in w.rows ==> token in w.last && w.rows[token] == Cell(w.last[token], Parks(w, token))
  }

  predicate CopyOk(w: World, r: Rid) {
    var c := Rep(w, r).resumer;
    !c.Free? ==>
      && c.gen <= Parks(w, c.token) && c.token in w.last
      && (c.gen == Parks(w, c.token) ==> c.copy == w.last[c.token])
  }

  ghost predicate Inv(w: World) {
    Exclusive(w) && IdsAllOk(w) && HistoryOk(w) && RowsOk(w)
  }

  lemma StartInv()
    ensures Inv(START)
  {
  }

  /** A step is one server's own. */
  lemma OneServer(w: World, step: Step, r: Rid)
    requires Next(w, step).Some? && r != step.r
    ensures Rep(Next(w, step).value, r) == Rep(w, r)
  {
  }

  lemma IdsArrive(w: World, step: Step)
    requires IdsOk(Rep(w, step.r)) && Next(w, step).Some? && (step.Open? || step.Enter?)
    ensures IdsOk(Rep(Next(w, step).value, step.r))
  {
    hide DoPop, DoPark, DoDelete, DoWork, DoBreakCall, DoFinish, DoRead, DoCrash, DoDrain;
  }

  lemma IdsStay(w: World, step: Step)
    requires IdsOk(Rep(w, step.r)) && Next(w, step).Some? && (step.Work? || step.BreakCall? || step.Pop?)
    ensures IdsOk(Rep(Next(w, step).value, step.r))
  {
    hide DoOpen, DoPark, DoDelete, DoEnter, DoFinish, DoRead, DoCrash, DoDrain;
  }

  lemma IdsEnd(w: World, step: Step)
    requires IdsOk(Rep(w, step.r)) && Next(w, step).Some? && (step.Park? || step.Finish? || step.Drain?)
    ensures IdsOk(Rep(Next(w, step).value, step.r))
  {
    hide DoOpen, DoPop, DoDelete, DoEnter, DoWork, DoBreakCall, DoRead, DoCrash;
  }

  lemma IdsLock(w: World, step: Step)
    requires IdsOk(Rep(w, step.r)) && Next(w, step).Some? && (step.Read? || step.Delete? || step.Crash?)
    ensures IdsOk(Rep(Next(w, step).value, step.r))
  {
    hide DoOpen, DoPop, DoPark, DoEnter, DoWork, DoBreakCall, DoFinish, DoDrain;
  }

  lemma IdsOwn(w: World, step: Step)
    requires IdsOk(Rep(w, step.r)) && Next(w, step).Some?
    ensures IdsOk(Rep(Next(w, step).value, step.r))
  {
    hide Next, IdsOk;
    match step
    case Open(_, _, _) => IdsArrive(w, step);
    case Enter(_) => IdsArrive(w, step);
    case Work(_, _, _) => IdsStay(w, step);
    case BreakCall(_, _) => IdsStay(w, step);
    case Pop(_, _) => IdsStay(w, step);
    case Park(_, _, _) => IdsEnd(w, step);
    case Finish(_, _) => IdsEnd(w, step);
    case Drain(_) => IdsEnd(w, step);
    case _ => IdsLock(w, step);
  }

  lemma IdsKeep(w: World, step: Step)
    requires IdsAllOk(w) && Next(w, step).Some?
    ensures IdsAllOk(Next(w, step).value)
  {
    hide IdsOk, Next;
    IdsOwn(w, step);
    forall r: Rid ensures IdsOk(Rep(Next(w, step).value, r)) {
      assert IdsOk(Rep(w, r));
      if r != step.r {
        OneServer(w, step, r);
      }
    }
  }

  lemma RowsKeep(w: World, step: Step)
    requires RowsOk(w) && Next(w, step).Some?
    ensures RowsOk(Next(w, step).value)
  {
    hide Next, RowOk, CopyOk;
    var w' := Next(w, step).value;
    forall token: Token ensures RowOk(w', token) {
      assert RowOk(w, token);
      RowKept(w, step, token);
    }
    forall r: Rid ensures CopyOk(w', r) {
      assert CopyOk(w, r);
      assert step.Read? ==> RowOk(w, step.token);
      if r != step.r {
        OneServer(w, step, r);
      }
      CopyKept(w, step, r);
    }
  }

  lemma RowKept(w: World, step: Step, token: Token)
    requires RowOk(w, token) && Next(w, step).Some?
    ensures RowOk(Next(w, step).value, token)
  {
    hide DoDrain;
    if step.Drain? {
      DrainLeaves(w, step.r);
    }
  }

  lemma DrainLeaves(w: World, r: Rid)
    ensures var w' := DoDrain(w, r).value;
            w'.rows == w.rows && w'.parks == w.parks && w'.last == w.last && Rep(w', r).resumer == Rep(w, r).resumer
  {
  }

  lemma CopyKept(w: World, step: Step, r: Rid)
    requires CopyOk(w, r) && Next(w, step).Some? && (step.Read? ==> RowOk(w, step.token))
    requires r != step.r ==> Rep(Next(w, step).value, r) == Rep(w, r)
    ensures CopyOk(Next(w, step).value, r)
  {
    hide DoDrain;
    if step.Drain? {
      DrainLeaves(w, step.r);
    }
  }

  // ---- one session's history ----

  /** A session enters under a new number. */
  lemma NewSession(w: World, w': World, r: Rid, id: nat)
    requires HistoryOk(w) && SidAt(w, r, id) == None && id in Rep(w', r).live && id !in Rep(w', r).ending
    requires w'.fates == w.fates + [Fate(0, 0, false)] && SidAt(w', r, id) == Some(|w.fates|)
    requires forall q: Rid, jd: nat | q != r || jd != id :: SameEntry(w, w', q, jd)
    ensures HistoryOk(w')
  {
    forall q: Rid, jd: nat ensures PlaceOk(w', q, jd) {
      assert PlaceOk(w, q, jd);
      assert q != r || jd != id ==> SameEntry(w, w', q, jd);
    }
    forall q: Rid, jd: nat
      ensures q != r || jd != id ==>
                SidAt(w', q, jd) == SidAt(w, q, jd) && SidAt(w, q, jd) != Some(|w.fates|)
    {
      assert PlaceOk(w, q, jd);
      assert q != r || jd != id ==> SameEntry(w, w', q, jd);
    }
  }

  predicate SameEntry(w: World, w': World, r: Rid, id: nat) {
    var (p, q) := (Rep(w, r), Rep(w', r));
    && (id in q.live <==> id in p.live) && (id in p.live ==> q.live[id].sid == p.live[id].sid)
    && (id in q.ending <==> id in p.ending)
    && (id in p.ending ==> q.ending[id].tried == p.ending[id].tried && q.ending[id].s.sid == p.ending[id].s.sid)
  }

  predicate Gone(w: World, r: Rid, id: nat) {
    id !in Rep(w, r).live && id !in Rep(w, r).ending
  }

  /** One session's place and history change together; its number does not. */
  lemma OneSession(w: World, w': World, r: Rid, id: nat)
    requires HistoryOk(w) && IdsAllOk(w) && SidAt(w, r, id).Some? && |w'.fates| == |w.fates|
    requires forall k | 0 <= k < |w.fates| && SidAt(w, r, id) != Some(k) :: w'.fates[k] == w.fates[k]
    requires forall q: Rid, jd: nat | q != r || jd != id :: SameEntry(w, w', q, jd)
    requires SidAt(w', r, id) == SidAt(w, r, id) || SidAt(w', r, id) == None
    requires PlaceOk(w', r, id) && SidAt(w, r, id).value < |w.fates| && FateOk(w'.fates[SidAt(w, r, id).value])
    ensures HistoryOk(w')
  {
    forall q: Rid, jd: nat ensures PlaceOk(w', q, jd) {
      assert PlaceOk(w, q, jd);
      assert q != r || jd != id ==> SameEntry(w, w', q, jd);
      assert q != r || jd != id ==> SidAt(w, q, jd) != SidAt(w, r, id);
      assert IdsOk(Rep(w, q));
    }
    forall q: Rid, jd: nat ensures SidAt(w', q, jd) == SidAt(w, q, jd) || SidAt(w', q, jd) == None {
      assert q != r || jd != id ==> SameEntry(w, w', q, jd);
    }
  }

  lemma PlaceOf(w: World, r: Rid, id: nat)
    requires HistoryOk(w)
    ensures PlaceOk(w, r, id)
    ensures SidAt(w, r, id).Some? ==> SidAt(w, r, id).value < |w.fates| && FateOk(w.fates[SidAt(w, r, id).value])
  {
    assert PlaceOk(w, r, id);
  }

  lemma ArrivalKeeps(w: World, step: Step)
    requires HistoryOk(w) && IdsAllOk(w) && Next(w, step).Some? && (step.Open? || step.Enter?)
    ensures HistoryOk(Next(w, step).value)
  {
    hide HistoryOk, DoPop, DoPark, DoDelete, DoWork, DoBreakCall, DoFinish, DoRead, DoCrash, DoDrain;
    assert IdsOk(Rep(w, step.r));
    NewSession(w, Next(w, step).value, step.r, Rep(w, step.r).nextId);
  }

  lemma WorkKeeps(w: World, step: Step)
    requires HistoryOk(w) && IdsAllOk(w) && Next(w, step).Some? && step.Work?
    ensures HistoryOk(Next(w, step).value)
  {
    hide HistoryOk, DoOpen, DoPop, DoPark, DoDelete, DoEnter, DoBreakCall, DoFinish, DoRead, DoCrash, DoDrain;
    assert IdsOk(Rep(w, step.r));
    PlaceOf(w, step.r, step.id);
    OneSession(w, Next(w, step).value, step.r, step.id);
  }

  lemma BreakCallKeeps(w: World, step: Step)
    requires HistoryOk(w) && IdsAllOk(w) && Next(w, step).Some? && step.BreakCall?
    ensures HistoryOk(Next(w, step).value)
  {
    hide HistoryOk, DoOpen, DoPop, DoPark, DoDelete, DoEnter, DoWork, DoFinish, DoRead, DoCrash, DoDrain;
    assert IdsOk(Rep(w, step.r));
    PlaceOf(w, step.r, step.id);
    OneSession(w, Next(w, step).value, step.r, step.id);
  }

  lemma PopKeeps(w: World, step: Step)
    requires HistoryOk(w) && IdsAllOk(w) && Next(w, step).Some? && step.Pop?
    ensures HistoryOk(Next(w, step).value)
  {
    hide HistoryOk, DoOpen, DoPark, DoDelete, DoEnter, DoWork, DoBreakCall, DoFinish, DoRead, DoCrash, DoDrain;
    assert IdsOk(Rep(w, step.r));
    PlaceOf(w, step.r, step.id);
    OneSession(w, Next(w, step).value, step.r, step.id);
  }

  lemma ParkFates(w: World, step: Step)
    requires Next(w, step).Some? && step.Park? && step.id in Rep(w, step.r).ending
    ensures var w' := Next(w, step).value;
            && |w'.fates| == |w.fates|
            && forall k | 0 <= k < |w.fates| && Rep(w, step.r).ending[step.id].s.sid != k :: w'.fates[k] == w.fates[k]
  {
  }

  lemma ParkOwn(w: World, step: Step, jd: nat)
    requires Next(w, step).Some? && step.Park? && jd != step.id
    ensures SameEntry(w, Next(w, step).value, step.r, jd)
  {
  }

  /** Parking one session leaves the others' places and histories alone. */
  lemma ParkApart(w: World, step: Step)
    requires Next(w, step).Some? && step.Park? && step.id in Rep(w, step.r).ending
    requires IdsOk(Rep(w, step.r))
    ensures var w' := Next(w, step).value;
            && |w'.fates| == |w.fates|
            && (forall k | 0 <= k < |w.fates| && SidAt(w, step.r, step.id) != Some(k) :: w'.fates[k] == w.fates[k])
            && (forall q: Rid, jd: nat | q != step.r || jd != step.id :: SameEntry(w, w', q, jd))
  {
    hide Next;
    ParkFates(w, step);
    forall q: Rid, jd: nat | q != step.r || jd != step.id ensures SameEntry(w, Next(w, step).value, q, jd) {
      if q == step.r {
        ParkOwn(w, step, jd);
      } else {
        OneServer(w, step, q);
      }
    }
  }

  lemma ParkHere(w: World, step: Step)
    requires Next(w, step).Some? && step.Park? && SidAt(w, step.r, step.id).Some?
    requires PlaceOk(w, step.r, step.id) && IdsOk(Rep(w, step.r))
    ensures var (w', sid) := (Next(w, step).value, SidAt(w, step.r, step.id));
            && SidAt(w', step.r, step.id) == sid && PlaceOk(w', step.r, step.id)
            && sid.value < |w'.fates| && FateOk(w'.fates[sid.value])
  {
  }

  lemma ParkKeeps(w: World, step: Step)
    requires HistoryOk(w) && IdsAllOk(w) && Next(w, step).Some? && step.Park?
    ensures HistoryOk(Next(w, step).value)
  {
    assert IdsOk(Rep(w, step.r));
    hide HistoryOk, IdsAllOk, Next;
    EndHas(w, step);
    PlaceOf(w, step.r, step.id);
    ParkApart(w, step);
    ParkHere(w, step);
    OneSession(w, Next(w, step).value, step.r, step.id);
  }

  lemma FinishKeeps(w: World, step: Step)
    requires HistoryOk(w) && IdsAllOk(w) && Next(w, step).Some? && step.Finish?
    ensures HistoryOk(Next(w, step).value)
  {
    hide HistoryOk, DoOpen, DoPop, DoPark, DoDelete, DoEnter, DoWork, DoBreakCall, DoRead, DoCrash, DoDrain;
    assert IdsOk(Rep(w, step.r));
    PlaceOf(w, step.r, step.id);
    OneSession(w, Next(w, step).value, step.r, step.id);
  }

  lemma CrashKeeps(w: World, r: Rid)
    requires HistoryOk(w)
    ensures HistoryOk(DoCrash(w, r).value)
  {
    var w' := DoCrash(w, r).value;
    forall q: Rid, jd: nat ensures PlaceOk(w', q, jd)
      && (SidAt(w', q, jd) == SidAt(w, q, jd) || SidAt(w', q, jd) == None) {
      assert PlaceOk(w, q, jd);
    }
  }

  lemma LockKeeps(w: World, step: Step)
    requires HistoryOk(w) && Next(w, step).Some? && (step.Read? || step.Delete?)
    ensures HistoryOk(Next(w, step).value)
  {
    hide DoOpen, DoPop, DoPark, DoEnter, DoWork, DoBreakCall, DoFinish, DoCrash, DoDrain;
    var w' := Next(w, step).value;
    forall q: Rid, jd: nat ensures PlaceOk(w', q, jd) && SidAt(w', q, jd) == SidAt(w, q, jd) {
      assert PlaceOk(w, q, jd);
    }
  }

  lemma DrainKeeps(w: World, r: Rid)
    requires HistoryOk(w) && IdsAllOk(w)
    ensures HistoryOk(DoDrain(w, r).value)
  {
    var w' := DoDrain(w, r).value;
    assert IdsOk(Rep(w, r));
    forall q: Rid, jd: nat ensures PlaceOk(w', q, jd) && SidAt(w', q, jd) == SidAt(w, q, jd) {
      assert PlaceOk(w, q, jd);
      if q != r && SidAt(w, q, jd).Some? {
        NotDrained(w, r, q, jd);
      } else if jd in Rep(w, r).ending {
        NotDrained(w, r, r, jd);
      }
    }
    forall k | 0 <= k < |w.fates| ensures FateOk(w'.fates[k]) {
      if id :| id in Rep(w, r).live && Rep(w, r).live[id].sid == k {
        assert PlaceOk(w, r, id);
      }
    }
  }

  /** Draining r touches the history of no session but r's live ones. */
  lemma NotDrained(w: World, r: Rid, q: Rid, jd: nat)
    requires HistoryOk(w) && SidAt(w, q, jd).Some? && (q != r || jd !in Rep(w, r).live)
    ensures SidAt(w, q, jd).value < |w.fates|
    ensures DoDrain(w, r).value.fates[SidAt(w, q, jd).value] == w.fates[SidAt(w, q, jd).value]
  {
    assert PlaceOk(w, q, jd);
    forall id | id in Rep(w, r).live ensures Rep(w, r).live[id].sid != SidAt(w, q, jd).value {
      assert SidAt(w, r, id) == Some(Rep(w, r).live[id].sid);
    }
  }

  lemma HistoryKeeps(w: World, step: Step)
    requires HistoryOk(w) && IdsAllOk(w) && Next(w, step).Some?
    ensures HistoryOk(Next(w, step).value)
  {
    hide HistoryOk, IdsAllOk;
    match step
    case Open(_, _, _) => ArrivalKeeps(w, step);
    case Enter(_) => ArrivalKeeps(w, step);
    case Work(_, _, _) => WorkKeeps(w, step);
    case BreakCall(_, _) => BreakCallKeeps(w, step);
    case Pop(_, _) => PopKeeps(w, step);
    case Park(_, _, _) => ParkKeeps(w, step);
    case Finish(_, _) => FinishKeeps(w, step);
    case Read(_, _) => LockKeeps(w, step);
    case Delete(_) => LockKeeps(w, step);
    case Crash(r) => CrashKeeps(w, r);
    case Drain(r) => DrainKeeps(w, r);
  }

  lemma NextKeeps(w: World, step: Step)
    requires Inv(w) && Next(w, step).Some?
    ensures Inv(Next(w, step).value)
  {
    hide Next, HistoryOk, RowsOk, Exclusive;
    IdsKeep(w, step);
    RowsKeep(w, step);
    HistoryKeeps(w, step);
    assert IdsOk(Rep(w, step.r));
    ExclusiveStep(w, step);
  }

  lemma {:induction false} RunKeeps(w: World, steps: seq<Step>)
    requires Inv(w) && RunOf(w, steps).Some?
    ensures Inv(RunOf(w, steps).value)
    decreases |steps|
  {
    hide Inv, Next;
    if steps != [] {
      NextKeeps(w, steps[0]);
      RunKeeps(Next(w, steps[0]).value, steps[1..]);
    }
  }

  lemma ReachableInv(w: World)
    requires Reachable(w)
    ensures Inv(w)
  {
    var steps :| RunOf(START, steps) == Some(w);
    StartInv();
    RunKeeps(START, steps);
  }

  // ---- the theorems ----

  /** One holder per token: its live session, its session popped and not yet parked, a
      claim on its way into a table, or its row; never two, on any servers. */
  lemma OneHolder(w: World, token: Token, g: Holder, h: Holder)
    requires Reachable(w) && Holds(w, g, token) && Holds(w, h, token)
    ensures g == h
  {
    hide Reachable, HistoryOk, RowsOk;
    ReachableInv(w);
  }

  /** Each session is parked at most once and broken at most once; and one that has been
      broken was either tried for parking or drained by a shutdown, not both. */
  lemma EndsOnce(w: World, sid: nat)
    requires Reachable(w) && sid < |w.fates|
    ensures var f := w.fates[sid];
            f.tries <= 1 && f.breaks <= 1 && (f.breaks == 1 ==> (f.tries == 1 <==> !f.drained))
  {
    hide Reachable, Exclusive, RowsOk, Placed, SidsApart;
    ReachableInv(w);
    assert FateOk(w.fates[sid]);
  }

  /** How a session's history reads once it is over. */
  predicate Over(f: Fate) {
    f.breaks == 1 && f.tries <= 1 && (f.tries == 1 <==> !f.drained)
  }

  /** A break in the history stands, and the history it stands in is a whole one. */
  lemma OverStays(w: World, step: Step, sid: nat)
    requires Inv(w) && Next(w, step).Some? && sid < |w.fates| && w.fates[sid].breaks >= 1
    ensures sid < |Next(w, step).value.fates| && Next(w, step).value.fates[sid].breaks >= 1
  {
    hide Inv;
  }

  lemma ArrivalHolds(w: World, step: Step, id: nat)
    requires IdsOk(Rep(w, step.r)) && Next(w, step).Some? && SidAt(w, step.r, id).Some?
    requires step.Open? || step.Enter? || step.Read? || step.Delete?
    ensures SidAt(Next(w, step).value, step.r, id) == SidAt(w, step.r, id)
  {
    hide DoPop, DoPark, DoWork, DoBreakCall, DoFinish, DoCrash, DoDrain;
  }

  lemma WorkHolds(w: World, step: Step, id: nat)
    requires IdsOk(Rep(w, step.r)) && Next(w, step).Some? && SidAt(w, step.r, id).Some? && step.Work?
    ensures SidAt(Next(w, step).value, step.r, id) == SidAt(w, step.r, id)
  {
  }

  lemma BreakCallHolds(w: World, step: Step, id: nat)
    requires IdsOk(Rep(w, step.r)) && Next(w, step).Some? && SidAt(w, step.r, id).Some? && step.BreakCall?
    ensures SidAt(Next(w, step).value, step.r, id) == SidAt(w, step.r, id)
  {
  }

  lemma EndingHolds(w: World, step: Step, id: nat)
    requires IdsOk(Rep(w, step.r)) && Next(w, step).Some? && SidAt(w, step.r, id).Some?
    requires step.Pop? || step.Park?
    ensures SidAt(Next(w, step).value, step.r, id) == SidAt(w, step.r, id)
  {
    hide DoOpen, DoDelete, DoEnter, DoWork, DoBreakCall, DoFinish, DoRead, DoCrash, DoDrain;
  }

  lemma FinishBreaks(w: World, step: Step, id: nat)
    requires IdsOk(Rep(w, step.r)) && Next(w, step).Some? && step.Finish?
    requires SidAt(w, step.r, id).Some? && SidAt(w, step.r, id).value < |w.fates|
    ensures var (w', sid) := (Next(w, step).value, SidAt(w, step.r, id).value);
            SidAt(w', step.r, id) == Some(sid) || (sid < |w'.fates| && w'.fates[sid].breaks >= 1)
  {
    hide DoOpen, DoPop, DoPark, DoDelete, DoEnter, DoWork, DoBreakCall, DoRead, DoCrash, DoDrain;
  }

  /** A session leaves its server's table and its ending only by being broken. */
  lemma LeavesBroken(w: World, step: Step, r: Rid, id: nat)
    requires HistoryOk(w) && IdsAllOk(w) && Next(w, step).Some? && step != Crash(r) && SidAt(w, r, id).Some?
    ensures var (w', sid) := (Next(w, step).value, SidAt(w, r, id).value);
            SidAt(w', r, id) == Some(sid) || (sid < |w'.fates| && w'.fates[sid].breaks >= 1)
  {
    assert IdsOk(Rep(w, r));
    PlaceOf(w, r, id);
    if r != step.r {
      OneServer(w, step, r);
      hide Next, HistoryOk, IdsAllOk;
    } else {
      hide HistoryOk, IdsAllOk, IdsOk, DoOpen, DoPop, DoPark, DoDelete, DoEnter, DoWork, DoBreakCall, DoFinish, DoRead,
        DoCrash, DoDrain, SidAt;
      match step
      case Drain(_) => DrainHolds(w, r, id);
      case Finish(_, _) => FinishBreaks(w, step, id);
      case Pop(_, _) => EndingHolds(w, step, id);
      case Park(_, _, _) => EndingHolds(w, step, id);
      case Work(_, _, _) => WorkHolds(w, step, id);
      case BreakCall(_, _) => BreakCallHolds(w, step, id);
      case Crash(_) =>
      case _ => ArrivalHolds(w, step, id);
    }
  }

  lemma DrainHolds(w: World, r: Rid, id: nat)
    requires IdsOk(Rep(w, r))
    ensures SidAt(DoDrain(w, r).value, r, id) == SidAt(w, r, id)
  {
  }

  /** Exactly once: for as long as its server stands, a session is in the table or on its
      way out of it, or it has been broken once and tried for parking once, unless a
      shutdown drained it. */
  lemma {:induction false} EndsExactlyOnce(w: World, r: Rid, id: nat, steps: seq<Step>)
    requires Inv(w) && SidAt(w, r, id).Some? && RunOf(w, steps).Some? && Crash(r) !in steps
    ensures var (w', sid) := (RunOf(w, steps).value, SidAt(w, r, id).value);
            SidAt(w', r, id) == Some(sid) || (sid < |w'.fates| && Over(w'.fates[sid]))
    decreases |steps|
  {
    hide Inv, Next, SidAt, Over;
    if steps != [] {
      var (w1, sid) := (Next(w, steps[0]).value, SidAt(w, r, id).value);
      NextKeeps(w, steps[0]);
      LeavesBrokenInv(w, steps[0], r, id);
      if SidAt(w1, r, id) == Some(sid) {
        EndsExactlyOnce(w1, r, id, steps[1..]);
      } else {
        StaysOver(w1, sid, steps[1..]);
      }
    }
  }

  lemma LeavesBrokenInv(w: World, step: Step, r: Rid, id: nat)
    requires Inv(w) && Next(w, step).Some? && step != Crash(r) && SidAt(w, r, id).Some?
    ensures var (w', sid) := (Next(w, step).value, SidAt(w, r, id).value);
            SidAt(w', r, id) == Some(sid) || (sid < |w'.fates| && w'.fates[sid].breaks >= 1)
  {
    hide Exclusive, HistoryOk, IdsAllOk, RowsOk, Next, SidAt;
    LeavesBroken(w, step, r, id);
  }

  lemma {:induction false} StaysOver(w: World, sid: nat, steps: seq<Step>)
    requires Inv(w) && RunOf(w, steps).Some? && sid < |w.fates| && w.fates[sid].breaks >= 1
    ensures var w' := RunOf(w, steps).value; sid < |w'.fates| && Over(w'.fates[sid])
    decreases |steps|
  {
    hide Inv, Next, Over;
    if steps == [] {
      IsOver(w, sid);
    } else {
      NextKeeps(w, steps[0]);
      OverStays(w, steps[0], sid);
      StaysOver(Next(w, steps[0]).value, sid, steps[1..]);
    }
  }

  lemma IsOver(w: World, sid: nat)
    requires Inv(w) && sid < |w.fates| && w.fates[sid].breaks >= 1
    ensures Over(w.fates[sid])
  {
    hide Exclusive, RowsOk, IdsAllOk, Placed, SidsApart;
    assert FateOk(w.fates[sid]);
  }

  /** What its server owes a session next on its way out. */
  function OwedStep(w: World, r: Rid, id: nat, ok: bool): Step {
    var p := Rep(w, r);
    if id in p.live then Pop(r, id)
    else if id in p.ending && !p.ending[id].tried then Park(r, id, ok)
    else Finish(r, id)
  }

  /** Nothing any server does can keep a session from ending: from wherever it is, the
      step it is owed is there to take, and at most three of them end it. */
  lemma {:induction false} EndingRun(w: World, r: Rid, id: nat, ok: bool) returns (steps: seq<Step>)
    requires Inv(w) && SidAt(w, r, id).Some?
    ensures |steps| <= Stages(w, r, id) <= 3 && forall k | 0 <= k < |steps| :: steps[k].r == r
    ensures RunOf(w, steps).Some?
    ensures var (w', sid) := (RunOf(w, steps).value, SidAt(w, r, id).value);
            sid < |w'.fates| && Over(w'.fates[sid])
    decreases Stages(w, r, id)
  {
    hide Inv, Next, SidAt, Over, OwedStep, Stages;
    var step := OwedStep(w, r, id, ok);
    Owed(w, r, id, ok);
    NextKeeps(w, step);
    var w1 := Next(w, step).value;
    if SidAt(w1, r, id) == SidAt(w, r, id) {
      var rest := EndingRun(w1, r, id, ok);
      steps := [step] + rest;
      assert steps[1..] == rest;
    } else {
      steps := [step];
      assert steps[1..] == [];
      IsOver(w1, SidAt(w, r, id).value);
    }
  }

  function Stages(w: World, r: Rid, id: nat): nat {
    var p := Rep(w, r);
    if id in p.live then 3 else if id in p.ending then if p.ending[id].tried then 1 else 2 else 0
  }

  lemma Owed(w: World, r: Rid, id: nat, ok: bool)
    requires Inv(w) && SidAt(w, r, id).Some?
    ensures var (step, sid) := (OwedStep(w, r, id, ok), SidAt(w, r, id).value);
            && step.r == r && step != Crash(r) && Next(w, step).Some?
            && var w' := Next(w, step).value;
               && Stages(w', r, id) < Stages(w, r, id) <= 3
               && (SidAt(w', r, id) == Some(sid) || (sid < |w'.fates| && w'.fates[sid].breaks >= 1))
               && (SidAt(w', r, id) == Some(sid) ==> Stages(w, r, id) > 1)
  {
    hide Exclusive, HistoryOk, RowsOk, DoOpen, DoDelete, DoEnter, DoWork, DoBreakCall, DoRead, DoCrash, DoDrain;
    assert IdsOk(Rep(w, r));
    LeavesBroken(w, OwedStep(w, r, id, ok), r, id);
  }

  /** Only the first pop of an id finds it, for as long as the server stands. */
  lemma {:induction false} PoppedOnce(w: World, r: Rid, id: nat, steps: seq<Step>)
    requires Inv(w) && id < Rep(w, r).nextId && id !in Rep(w, r).live && RunOf(w, steps).Some? && Crash(r) !in steps
    ensures DoPop(RunOf(w, steps).value, r, id) == None
    decreases |steps|
  {
    hide Inv, Next, DoPop;
    if steps == [] {
      NoPop(w, r, id);
    } else {
      NextKeeps(w, steps[0]);
      StaysOut(w, steps[0], r, id);
      PoppedOnce(Next(w, steps[0]).value, r, id, steps[1..]);
    }
  }

  lemma NoPop(w: World, r: Rid, id: nat)
    requires id !in Rep(w, r).live
    ensures DoPop(w, r, id) == None
  {
  }

  lemma StaysOut(w: World, step: Step, r: Rid, id: nat)
    requires id < Rep(w, r).nextId && id !in Rep(w, r).live && Next(w, step).Some? && step != Crash(r)
    ensures id < Rep(Next(w, step).value, r).nextId && id !in Rep(Next(w, step).value, r).live
  {
    if r != step.r {
      OneServer(w, step, r);
    }
  }

  // ---- a broken session ----

  /** The session under an id here, live or on its way out and not yet parked. */
  function HereAt(w: World, r: Rid, id: nat): Option<Session> {
    var p := Rep(w, r);
    if id in p.live then Some(p.live[id])
    else if id in p.ending && !p.ending[id].tried then Some(p.ending[id].s)
    else None
  }

  /** A call of Break breaks it, and keeps its token. */
  lemma BreakCallBreaks(w: World, r: Rid, id: nat)
    requires IdsOk(Rep(w, r)) && DoBreakCall(w, r, id).Some?
    ensures var (a, b) := (HereAt(w, r, id), HereAt(DoBreakCall(w, r, id).value, r, id));
            a.Some? && b == Some(a.value.(broken := true)) && Spoiled(DoBreakCall(w, r, id).value, r, id)
    ensures DoBreakCall(w, r, id).value.rows == w.rows
  {
  }

  /** A pledge call lands on the session it finds, live or on its way out, unless it is
      broken, and moves its state. */
  lemma WorkWorks(w: World, r: Rid, id: nat, payload: int)
    requires IdsOk(Rep(w, r))
    ensures DoWork(w, r, id, payload).Some? <==> HereAt(w, r, id).Some? && !HereAt(w, r, id).value.broken
    ensures DoWork(w, r, id, payload).Some? ==>
              var w' := DoWork(w, r, id, payload).value;
              HereAt(w', r, id) == Some(HereAt(w, r, id).value.(payload := payload)) && w'.rows == w.rows
  {
  }

  /** Its session here, if it has one, is broken; and no other is yet to come under its id. */
  predicate Spoiled(w: World, r: Rid, id: nat) {
    id < Rep(w, r).nextId && (HereAt(w, r, id).Some? ==> HereAt(w, r, id).value.broken)
  }

  lemma SpoiledCall(w: World, step: Step, id: nat)
    requires IdsOk(Rep(w, step.r)) && Next(w, step).Some? && Spoiled(w, step.r, id)
    requires step.Work? || step.BreakCall?
    ensures Spoiled(Next(w, step).value, step.r, id)
  {
  }

  lemma SpoiledEnd(w: World, step: Step, id: nat)
    requires IdsOk(Rep(w, step.r)) && Next(w, step).Some? && Spoiled(w, step.r, id)
    requires step.Pop? || step.Park? || step.Finish?
    ensures Spoiled(Next(w, step).value, step.r, id)
  {
  }

  lemma SpoiledArrival(w: World, step: Step, id: nat)
    requires IdsOk(Rep(w, step.r)) && Next(w, step).Some? && Spoiled(w, step.r, id)
    requires step.Open? || step.Enter? || step.Read? || step.Delete?
    ensures Spoiled(Next(w, step).value, step.r, id)
  {
  }

  lemma BrokenHere(w: World, step: Step, r: Rid, id: nat)
    requires IdsOk(Rep(w, r)) && Next(w, step).Some? && Spoiled(w, r, id) && step != Crash(r)
    ensures Spoiled(Next(w, step).value, r, id)
  {
    if r != step.r {
      OneServer(w, step, r);
      hide Next;
    } else {
      hide DoOpen, DoPop, DoPark, DoDelete, DoEnter, DoWork, DoBreakCall, DoFinish, DoRead, DoCrash, DoDrain, IdsOk;
      match step
      case Drain(_) => DrainGone(w, r, id);
      case Pop(_, _) => SpoiledEnd(w, step, id);
      case Park(_, _, _) => SpoiledEnd(w, step, id);
      case Finish(_, _) => SpoiledEnd(w, step, id);
      case Work(_, _, _) => SpoiledCall(w, step, id);
      case BreakCall(_, _) => SpoiledCall(w, step, id);
      case Crash(_) =>
      case _ => SpoiledArrival(w, step, id);
    }
  }

  lemma DrainGone(w: World, r: Rid, id: nat)
    ensures Rep(DoDrain(w, r).value, r).nextId == Rep(w, r).nextId
    ensures IdsOk(Rep(w, r)) && id in Rep(w, r).live ==> HereAt(DoDrain(w, r).value, r, id) == None
    ensures id !in Rep(w, r).live ==> HereAt(DoDrain(w, r).value, r, id) == HereAt(w, r, id)
  {
  }

  /** Once broken by a call, a session never parks: its end tries and writes no row. */
  lemma {:induction false} BrokenNeverParks(w: World, r: Rid, id: nat, steps: seq<Step>, ok: bool)
    requires Inv(w) && Spoiled(w, r, id) && RunOf(w, steps).Some? && Crash(r) !in steps
    ensures var w' := RunOf(w, steps).value;
            DoPark(w', r, id, ok).Some? ==> DoPark(w', r, id, ok).value.rows == w'.rows
    decreases |steps|
  {
    hide Inv, Next;
    if steps == [] {
      BrokenPark(w, r, id, ok);
    } else {
      assert IdsOk(Rep(w, r)) by {
        IdsHere(w, r);
      }
      NextKeeps(w, steps[0]);
      BrokenHere(w, steps[0], r, id);
      BrokenNeverParks(Next(w, steps[0]).value, r, id, steps[1..], ok);
    }
  }

  lemma IdsHere(w: World, r: Rid)
    requires Inv(w)
    ensures IdsOk(Rep(w, r))
  {
  }

  lemma BrokenPark(w: World, r: Rid, id: nat, ok: bool)
    requires Inv(w) && Spoiled(w, r, id)
    ensures DoPark(w, r, id, ok).Some? ==> DoPark(w, r, id, ok).value.rows == w.rows
  {
    hide Exclusive, HistoryOk, RowsOk;
    assert IdsOk(Rep(w, r));
  }

  /** And one that is not broken does, if the store lets it: the row holds its state. */
  lemma WholeParks(w: World, r: Rid, id: nat)
    requires id in Rep(w, r).ending && !Rep(w, r).ending[id].tried && !Rep(w, r).ending[id].s.broken
    ensures var (s, w') := (Rep(w, r).ending[id].s, DoPark(w, r, id, true));
            w'.Some? && s.token in w'.value.rows && w'.value.rows[s.token].payload == s.payload
  {
  }

  // ---- is a claim current? ----

  /** How many steps of a run wrote the token's row. */
  function Reparks(w: World, steps: seq<Step>, token: Token): nat
    decreases |steps|
  {
    if steps == [] || Next(w, steps[0]).None? then 0
    else
      var w' := Next(w, steps[0]).value;
      (if Writes(w, steps[0], token) then 1 else 0) + Reparks(w', steps[1..], token)
  }

  /** A park that succeeds. */
  predicate Writes(w: World, step: Step, token: Token) {
    && step.Park? && step.ok && step.id in Rep(w, step.r).ending
    && var s := Rep(w, step.r).ending[step.id].s; s.token == token && !s.broken
  }

  lemma OneRepark(w: World, step: Step, token: Token)
    requires Next(w, step).Some?
    ensures Parks(Next(w, step).value, token) == Parks(w, token) + if Writes(w, step, token) then 1 else 0
  {
    hide DoDrain;
    if step.Drain? {
      DrainLeaves(w, step.r);
    }
  }

  lemma {:induction false} ParksCount(w: World, steps: seq<Step>, token: Token)
    requires RunOf(w, steps).Some?
    ensures Parks(RunOf(w, steps).value, token) == Parks(w, token) + Reparks(w, steps, token)
    decreases |steps|
  {
    hide Next, Parks, Writes;
    if steps != [] {
      OneRepark(w, steps[0], token);
      ParksCount(Next(w, steps[0]).value, steps[1..], token);
    }
  }

  /** A server holding its resume lock still holds the copy it read. */
  lemma {:induction false} CopyHeld(w: World, r: Rid, steps: seq<Step>)
    requires RunOf(w, steps).Some? && Rep(w, r).resumer.Reading? && Crash(r) !in steps && Delete(r) !in steps
    ensures Rep(RunOf(w, steps).value, r).resumer == Rep(w, r).resumer
    decreases |steps|
  {
    hide Next;
    if steps != [] {
      CopyStays(w, steps[0], r);
      CopyHeld(Next(w, steps[0]).value, r, steps[1..]);
    }
  }

  lemma CopyStays(w: World, step: Step, r: Rid)
    requires Next(w, step).Some? && Rep(w, r).resumer.Reading? && step != Crash(r) && step != Delete(r)
    ensures Rep(Next(w, step).value, r).resumer == Rep(w, r).resumer
  {
    hide DoDrain;
    if r != step.r {
      OneServer(w, step, r);
    } else if step.Drain? {
      DrainLeaves(w, step.r);
    }
  }

  /** A claim carries the last parked state exactly when its token was not parked again
      between the read and the DELETE: then copy, row and last park are one; otherwise the
      copy is of an earlier park than the row deleted. */
  lemma {:induction false} ClaimCurrentIff(w: World, r: Rid, token: Token, steps: seq<Step>)
    requires Reachable(w) && DoRead(w, r, token).Some?
    requires var read := DoRead(w, r, token).value;
             && Crash(r) !in steps && Delete(r) !in steps && RunOf(read, steps).Some?
             && token in RunOf(read, steps).value.rows
    ensures var read := DoRead(w, r, token).value;
            var w2 := RunOf(read, steps).value;
            && DoDelete(w2, r).Some?
            && var c := Rep(DoDelete(w2, r).value, r).resumer;
               && c.Claimed? && c.token == token
               && (Reparks(read, steps, token) == 0 ==>
                     Cell(c.copy, c.gen) == w2.rows[token] && token in w2.last && c.copy == w2.last[token])
               && (Reparks(read, steps, token) > 0 ==> c.gen < w2.rows[token].gen)
  {
    hide Reachable, Next, Exclusive, HistoryOk, IdsAllOk;
    ReachableInv(w);
    var read := DoRead(w, r, token).value;
    ReadIsStep(w, r, token);
    NextKeeps(w, Read(r, token));
    RunKeeps(read, steps);
    var w2 := RunOf(read, steps).value;
    CopyHeld(read, r, steps);
    ParksCount(read, steps, token);
    assert RowOk(w, token) && RowOk(w2, token) && CopyOk(w2, r);
  }

  lemma ReadIsStep(w: World, r: Rid, token: Token)
    ensures Next(w, Read(r, token)) == DoRead(w, r, token)
  {
  }

  // ---- one server ----

  /** On a single server the row read is the row deleted: nobody else can touch it. */
  ghost predicate Solo(w: World, r: Rid) {
    && (forall q: Rid | q != r :: Rep(w, q) == FRESH)
    && var c := Rep(w, r).resumer;
       && (c.Reading? ==> c.token in w.rows && w.rows[c.token] == Cell(c.copy, c.gen))
       && (c.Claimed? ==> c.token in w.last && c.copy == w.last[c.token])
  }

  lemma SoloStep(w: World, step: Step)
    requires Inv(w) && Solo(w, step.r) && Next(w, step).Some?
    ensures Solo(Next(w, step).value, step.r)
  {
    hide HistoryOk, IdsAllOk, DoDrain;
    forall q: Rid | q != step.r ensures Rep(Next(w, step).value, q) == FRESH {
      OneServer(w, step, q);
    }
    SoloCopy(w, step);
  }

  lemma SoloCopy(w: World, step: Step)
    requires Inv(w) && Solo(w, step.r) && Next(w, step).Some?
    ensures var (c, w') := (Rep(Next(w, step).value, step.r).resumer, Next(w, step).value);
            && (c.Reading? ==> c.token in w'.rows && w'.rows[c.token] == Cell(c.copy, c.gen))
            && (c.Claimed? ==> c.token in w'.last && c.copy == w'.last[c.token])
  {
    hide HistoryOk, IdsAllOk, DoDrain, Exclusive;
    var c := Rep(w, step.r).resumer;
    if step.Drain? {
      DrainLeaves(w, step.r);
    } else if step.Park? && !c.Free? {
      OneAtATime(w, step, c.token);
    } else if step.Delete? {
      assert RowOk(w, c.token);
    }
  }

  /** No session of a token is ending while its row stands or its claim is under way. */
  lemma OneAtATime(w: World, step: Step, token: Token)
    requires Exclusive(w) && step.Park? && Next(w, step).Some?
    requires Holds(w, InStore, token) || Holds(w, ClaimAt(step.r), token)
    ensures Rep(w, step.r).ending[step.id].s.token != token
  {
    var other := EndingAt(step.r, step.id);
    assert Holds(w, other, token) ==> other == InStore || other == ClaimAt(step.r);
  }

  lemma {:induction false} SoloRun(w: World, r: Rid, steps: seq<Step>)
    requires Inv(w) && Solo(w, r) && RunOf(w, steps).Some? && forall k | 0 <= k < |steps| :: steps[k].r == r
    ensures Inv(RunOf(w, steps).value) && Solo(RunOf(w, steps).value, r)
    decreases |steps|
  {
    hide Inv, Next, Solo;
    if steps != [] {
      NextKeeps(w, steps[0]);
      SoloStep(w, steps[0]);
      SoloRun(Next(w, steps[0]).value, r, steps[1..]);
    }
  }

  /** Over every run of a single server, what a resume stands up is the last state parked
      under its token, and the row it read is there to be deleted. */
  lemma {:induction false} SoloResumesLast(r: Rid, steps: seq<Step>)
    requires RunOf(START, steps).Some? && forall k | 0 <= k < |steps| :: steps[k].r == r
    ensures var w := RunOf(START, steps).value;
            var c := Rep(w, r).resumer;
            && (c.Claimed? ==> c.token in w.last && c.copy == w.last[c.token])
            && (c.Reading? ==>
                  && c.token in w.rows && DoDelete(w, r).Some?
                  && Rep(DoDelete(w, r).value, r).resumer.Claimed?)
  {
    hide Inv;
    StartInv();
    SoloRun(START, r, steps);
  }

  // ---- two servers ----

  /** The interleaving that claims a stale copy: server 1 reads the row, server 0 resumes,
      works and parks again, and server 1's DELETE takes the new row. */
  const STALE_CLAIM: seq<Step> := [
    Open(0, 7, 100), Pop(0, 1), Park(0, 1, true), Read(1, 7), Read(0, 7), Delete(0), Enter(0),
    Work(0, 2, 200), Pop(0, 2), Park(0, 2, true), Delete(1)
  ]

  /** Token 7's row, last park and number of parks. */
  predicate Stored(w: World, row: Option<Cell>, parks: nat) {
    && (if row.Some? then 7 in w.rows && w.rows[7] == row.value && 7 in w.last
       && w.last[7] == row.value.payload else 7 !in w.rows)
    && Parks(w, 7) == parks
  }

  predicate LiveIs(w: World, id: nat, payload: int) {
    && id in Rep(w, 0).live
    && var s := Rep(w, 0).live[id]; s.token == 7 && s.payload == payload && !s.broken
  }

  /** The first session, parked. */
  lemma FirstPark() returns (w: World)
    ensures RunOf(START, STALE_CLAIM) == RunOf(w, STALE_CLAIM[3..])
    ensures Stored(w, Some(Cell(100, 1)), 1) && Rep(w, 0).nextId == 2 && Rep(w, 0).resumer == Free
      && Rep(w, 1).resumer == Free
  {
    hide RunOf;
    var s := STALE_CLAIM;
    assert s[0..] == s;
    w := OneOf(START, s, 0, DoOpen(START, 0, 7, 100));
    assert LiveIs(w, 1, 100);
    var w2 := OneOf(w, s, 1, DoPop(w, 0, 1));
    assert EndingIs(w2, 1, 100);
    w := OneOf(w2, s, 2, DoPark(w2, 0, 1, true));
  }

  /** Both servers read the row; server 0 claims it and stands it up. */
  lemma BothRead(w: World) returns (w': World)
    requires Stored(w, Some(Cell(100, 1)), 1) && Rep(w, 0).nextId == 2 && Rep(w, 0).resumer == Free
      && Rep(w, 1).resumer == Free
    ensures RunOf(w, STALE_CLAIM[3..]) == RunOf(w', STALE_CLAIM[7..])
    ensures Stored(w', None, 1) && LiveIs(w', 2, 100) && Rep(w', 1).resumer == Reading(7, 100, 1)
  {
    hide RunOf;
    var s := STALE_CLAIM;
    var w4 := OneOf(w, s, 3, DoRead(w, 1, 7));
    var w5 := OneOf(w4, s, 4, DoRead(w4, 0, 7));
    var w6 := OneOf(w5, s, 5, DoDelete(w5, 0));
    w' := OneOf(w6, s, 6, DoEnter(w6, 0));
  }

  /** Server 0 works on the session, and its stream ends. */
  lemma ThenEnds(w: World) returns (w': World)
    requires Stored(w, None, 1) && LiveIs(w, 2, 100) && Rep(w, 1).resumer == Reading(7, 100, 1)
    ensures RunOf(w, STALE_CLAIM[7..]) == RunOf(w', STALE_CLAIM[9..])
    ensures Stored(w', None, 1) && EndingIs(w', 2, 200) && Rep(w', 1).resumer == Reading(7, 100, 1)
  {
    hide RunOf;
    var w8 := OneOf(w, STALE_CLAIM, 7, DoWork(w, 0, 2, 200));
    assert LiveIs(w8, 2, 200);
    w' := OneOf(w8, STALE_CLAIM, 8, DoPop(w8, 0, 2));
  }

  predicate EndingIs(w: World, id: nat, payload: int) {
    && id in Rep(w, 0).ending && !Rep(w, 0).ending[id].tried
    && var s := Rep(w, 0).ending[id].s; s.token == 7 && s.payload == payload && !s.broken
  }

  /** Server 0 parks it again; server 1 then deletes the newer row. */
  lemma ThenDelete(w: World) returns (w': World)
    requires Stored(w, None, 1) && EndingIs(w, 2, 200) && Rep(w, 1).resumer == Reading(7, 100, 1)
    ensures RunOf(w, STALE_CLAIM[9..]) == Some(w')
    ensures Rep(w', 1).resumer == Claimed(7, 100, 1) && 7 in w'.last && w'.last[7] == 200 && 7 !in w'.rows
  {
    var w10 := OneOf(w, STALE_CLAIM, 9, DoPark(w, 0, 2, true));
    assert Stored(w10, Some(Cell(200, 2)), 2);
    w' := OneOf(w10, STALE_CLAIM, 10, DoDelete(w10, 1));
    assert STALE_CLAIM[11..] == [];
  }

  lemma StaleClaim()
    ensures RunOf(START, STALE_CLAIM).Some?
    ensures var w := RunOf(START, STALE_CLAIM).value;
            Rep(w, 1).resumer == Claimed(7, 100, 1) && 7 in w.last && w.last[7] == 200 && 7 !in w.rows
  {
    hide RunOf;
    var w3 := FirstPark();
    var w7 := BothRead(w3);
    var w9 := ThenEnds(w7);
    var w := ThenDelete(w9);
  }

  lemma OneOf(w: World, steps: seq<Step>, k: nat, next: Option<World>) returns (w': World)
    requires k < |steps| && Next(w, steps[k]) == next && next.Some?
    ensures w' == next.value
    ensures RunOf(w, steps[k..]) == RunOf(w', steps[k + 1..])
  {
    w' := next.value;
    assert steps[k..][1..] == steps[k + 1..];
  }
}
