/** All or nothing, once only, and what an uncommitted episode leaves behind. */
module EpisodeTheorems {
  import opened Basics
  import opened Values
  import opened Requirements
  import opened PolicyRuns
  import opened Episodes

  // ---- which writes survive ----

  /** The writes made with no episode open, and those of committed episodes. */
  function Survivors(ws: seq<Write>, committed: seq<nat>): seq<Write> {
    if ws == [] then []
    else
      var last := ws[|ws| - 1];
      Survivors(ws[..|ws| - 1], committed)
      + if last.episode.None? || last.episode.value in committed then [last] else []
  }

  lemma {:induction false} SurvivorsSplit(a: seq<Write>, b: seq<Write>, committed: seq<nat>)
    ensures Survivors(a + b, committed) == Survivors(a, committed) + Survivors(b, committed)
    decreases |b|
  {
    if b == [] {
      assert a + b == a;
    } else {
      assert (a + b)[..|a + b| - 1] == a + b[..|b| - 1];
      SurvivorsSplit(a, b[..|b| - 1], committed);
    }
  }

  /** One more commit brings back exactly the writes of its episode. */
  lemma {:induction false} SurvivorsCommit(ws: seq<Write>, committed: seq<nat>, s: nat)
    requires s !in committed
    ensures (forall w | w in ws :: w.episode != Some(s)) ==> Survivors(ws, committed + [s]) == Survivors(ws, committed)
    ensures (forall w | w in ws :: w.episode == Some(s)) ==>
              Survivors(ws, committed + [s]) == ws && Survivors(ws, committed) == []
    decreases |ws|
  {
    if ws != [] {
      assert ws == ws[..|ws| - 1] + [ws[|ws| - 1]];
      SurvivorsCommit(ws[..|ws| - 1], committed, s);
    }
  }

  lemma {:induction false} SurvivorsAre(ws: seq<Write>, committed: seq<nat>, w: Write)
    ensures w in Survivors(ws, committed) <==> w in ws && (w.episode.None? || w.episode.value in committed)
    decreases |ws|
  {
    if ws != [] {
      assert ws == ws[..|ws| - 1] + [ws[|ws| - 1]];
      SurvivorsAre(ws[..|ws| - 1], committed, w);
    }
  }

  // ---- the invariant ----

  predicate OneOpen(txn: seq<Txn>) {
    forall s, t | 0 <= s < t < |txn| && txn[s] == Open :: txn[t] != Open
  }

  function Buffered(c: Conn): seq<Write> {
    if c.buffer.Some? then c.buffer.value else []
  }

  /** The connection is in a transaction exactly while one episode is open. */
  predicate ConnOk(x: Inst) {
    if x.connected then OneOpen(x.txn) && (x.conn.buffer.Some? <==> OpenEpisode(x).Some?) else x.conn.buffer.None?
  }

  /** Every committed episode is done and its every pledge kept; none committed twice. */
  predicate CommittedOk(x: Inst)
    requires Shaped(x)
  {
    && (forall k | 0 <= k < |x.committed| ::
          var s := x.committed[k]; s < |x.txn| && x.txn[s] == Done && SubAll(x.d, x.latches, s, Kept))
    && (forall j, k | 0 <= j < k < |x.committed| :: x.committed[j] != x.committed[k])
  }

  predicate TagsOk(x: Inst) {
    forall w | w in x.written && w.episode.Some? :: w.episode.value < |x.txn| && x.txn[w.episode.value] != Unopened
  }

  /** The log is what survives of the writes up to the open episode's own. */
  predicate LogOk(written: seq<Write>, c: Conn, committed: seq<nat>, open: Option<nat>) {
    var n := |written| - |Buffered(c)|;
    && n >= 0 && written[n..] == Buffered(c)
    && c.durable == Survivors(written[..n], committed)
    && (c.buffer.Some? ==>
          && (forall w | w in written[n..] :: w.episode == open)
          && (forall w | w in written[..n] :: w.episode != open))
  }

  predicate Inv(x: Inst) {
    Shaped(x) && ConnOk(x) && CommittedOk(x) && TagsOk(x) && LogOk(x.written, x.conn, x.committed, OpenEpisode(x))
  }

  lemma OpenIs(txn: seq<Txn>, s: nat)
    requires s < |txn| && txn[s] == Open && OneOpen(txn)
    ensures OpenAt(txn, |txn|) == Some(s)
  {
  }

  lemma NoneOpen(txn: seq<Txn>)
    requires forall s | 0 <= s < |txn| :: txn[s] != Open
    ensures OpenAt(txn, |txn|) == None
  {
  }

  /** An instance just signed, or just resumed from its row: nothing open, nothing written. */
  predicate Starting(x: Inst) {
    && Shaped(x) && x.conn == Conn([], None) && x.written == [] && x.committed == []
    && forall s | 0 <= s < |x.txn| :: x.txn[s] != Open
  }

  lemma SignStarts(d: Desc, transactional: seq<bool>, connected: bool)
    requires |transactional| == |d.subs|
    ensures Starting(Sign(d, transactional, connected))
  {
  }

  lemma NothingYet(x: Inst)
    requires Shaped(x) && x.conn == Conn([], None) && x.written == [] && x.committed == []
    ensures CommittedOk(x) && LogOk(x.written, x.conn, x.committed, None)
  {
    hide SubAll;
    assert Survivors([], []) == [];
  }

  lemma StartInv(x: Inst)
    requires Starting(x)
    ensures Inv(x)
  {
    hide LogOk, OpenAt, CommittedOk;
    NoneOpen(x.txn);
    NothingYet(x);
  }

  lemma BeginKeeps(x: Inst, s: nat)
    requires Inv(x) && x.connected && s < |x.txn| && x.txn[s] == Unopened && x.conn.buffer.None?
    ensures Inv(x.(conn := x.conn.(buffer := Some([])), txn := x.txn[s := Open]))
  {
    OpenIs(x.txn[s := Open], s);
  }

  lemma TxnBeforeKeeps(x: Inst, p: nat, beginOk: bool)
    requires Inv(x)
    ensures TxnBefore(x, p, beginOk).Ok? ==> Inv(TxnBefore(x, p, beginOk).value)
  {
    hide Inv;
    assert Shaped(x) by { ShapeOf(x); }
    var s := TxnSub(x, p);
    if s.Some? && x.connected && x.txn[s.value] == Unopened && Begin(x.conn, beginOk).Some? {
      BeginKeeps(x, s.value);
    }
  }

  lemma ShapeOf(x: Inst)
    requires Inv(x)
    ensures Shaped(x)
  {
  }

  lemma LatchKeeps(x: Inst, p: nat, out: Value)
    requires Inv(x)
    ensures Inv(Judge(LatchPledge(x, p, out)))
  {
    hide Survivors;
    var y := LatchPledge(x, p, out);
    forall k | 0 <= k < |x.committed| ensures SubAll(y.d, y.latches, x.committed[k], Kept) {
      SubAllGrows(x.d, x.latches, y.latches, x.committed[k], Kept);
    }
  }

  lemma LogPut(written: seq<Write>, c: Conn, committed: seq<nat>, w: Write)
    requires LogOk(written, c, committed, w.episode) && (c.buffer.None? ==> w.episode.None?)
    ensures LogOk(written + [w], Put(c, w), committed, w.episode)
  {
    var n := |written| - |Buffered(c)|;
    var after := written + [w];
    if c.buffer.None? {
      assert written[..n] == written && after[..n + 1] == after && after[..|after| - 1] == written;
    } else {
      assert after[..n] == written[..n] && after[n..] == written[n..] + [w];
    }
  }

  lemma Store1Keeps(x: Inst, id: int, ok: bool)
    requires Inv(x)
    ensures Inv(Store1(x, id, ok))
  {
    hide CommittedOk, OneOpen, OpenAt, LogOk;
    if x.connected && ok {
      LogPut(x.written, x.conn, x.committed, Write(id, OpenEpisode(x)));
      CommittedSame(x, Store1(x, id, ok));
    }
  }

  lemma CommittedSame(x: Inst, y: Inst)
    requires Shaped(x) && CommittedOk(x) && Shaped(y)
    requires y.d == x.d && y.latches == x.latches && y.txn == x.txn && y.committed == x.committed
    ensures CommittedOk(y)
  {
  }

  lemma LogSplit(written: seq<Write>, c: Conn, committed: seq<nat>, s: nat)
    requires LogOk(written, c, committed, Some(s)) && c.buffer.Some? && s !in committed
    ensures Survivors(written, committed) == c.durable
    ensures Survivors(written, committed + [s]) == c.durable + c.buffer.value
  {
    var n := |written| - |Buffered(c)|;
    assert written == written[..n] + written[n..];
    SurvivorsSplit(written[..n], written[n..], committed);
    SurvivorsSplit(written[..n], written[n..], committed + [s]);
    SurvivorsCommit(written[..n], committed, s);
    SurvivorsCommit(written[n..], committed, s);
  }

  lemma LogClosed(written: seq<Write>, c: Conn, committed: seq<nat>)
    requires c.buffer.None? && c.durable == Survivors(written, committed)
    ensures LogOk(written, c, committed, None)
  {
    assert written[..|written|] == written;
  }

  lemma FreshCommit(x: Inst, s: nat)
    requires Shaped(x) && CommittedOk(x) && s < |x.txn| && x.txn[s] == Open
    ensures s !in x.committed
  {
  }

  /** The episode's writes go with its buffer. */
  lemma RollbackKeeps(x: Inst, s: nat)
    requires Inv(x) && x.connected && s < |x.txn| && x.txn[s] == Open
    ensures Inv(x.(conn := Rollback(x.conn), txn := x.txn[s := Done]))
  {
    hide LogOk, Survivors, SubAll;
    OpenIs(x.txn, s);
    NoneOpen(x.txn[s := Done]);
    FreshCommit(x, s);
    LogSplit(x.written, x.conn, x.committed, s);
    LogClosed(x.written, Rollback(x.conn), x.committed);
  }

  /** The buffer becomes durable in one piece. */
  lemma CommitKeeps(x: Inst, s: nat)
    requires Inv(x) && x.connected && s < |x.txn| && x.txn[s] == Open && SubAll(x.d, x.latches, s, Kept)
    ensures Inv(x.(conn := Conn(x.conn.durable + Buffered(x.conn), None),
                   txn := x.txn[s := Done], committed := x.committed + [s]))
  {
    hide LogOk, Survivors, SubAll;
    OpenIs(x.txn, s);
    NoneOpen(x.txn[s := Done]);
    FreshCommit(x, s);
    LogSplit(x.written, x.conn, x.committed, s);
    LogClosed(x.written, Conn(x.conn.durable + Buffered(x.conn), None), x.committed + [s]);
  }

  lemma TxnAfterKeeps(x: Inst, p: nat, st: Status, out: Value, commitOk: bool)
    requires Inv(x)
    ensures Inv(TxnAfter(x, p, st, out, commitOk).0)
  {
    ShapeOf(x);
    var s := TxnSub(x, p);
    if s.Some? && x.connected && x.txn[s.value] == Open {
      RollbackKeeps(x, s.value);
      OpenIs(x.txn, s.value);
      if SubAll(x.d, x.latches, s.value, Kept) {
        CommitKeeps(x, s.value);
      }
    }
  }

  lemma {:induction false} FulfilKeeps(x: Inst, call: Act)
    requires Inv(x) && call.Call?
    ensures Inv(Fulfil(x, call).0)
    decreases call
  {
    hide Inv, TxnAfter, TxnBefore, LatchPledge, Judge, Shaped;
    ShapeOf(x);
    if Takes(x.life) && call.p < |x.latches| && TxnBefore(x, call.p, call.beginOk).Ok? {
      TxnBeforeKeeps(x, call.p, call.beginOk);
      var x1 := TxnBefore(x, call.p, call.beginOk).value;
      BodyKeeps(x1, call.acts);
      var x2 := Body(x1, call.acts);
      LatchKeeps(x2, call.p, call.out);
      var x3 := if call.st == OK then Judge(LatchPledge(x2, call.p, call.out)) else x2;
      TxnAfterKeeps(x3, call.p, call.st, call.out, call.commitOk);
    }
  }

  /** Wherever a body is cut short, the invariant stands: acts is any part of one. */
  lemma {:induction false} BodyKeeps(x: Inst, acts: seq<Act>)
    requires Inv(x)
    ensures Inv(Body(x, acts))
    decreases acts
  {
    hide Inv, Shaped;
    ShapeOf(x);
    if acts != [] {
      match acts[0]
      case Store(id, ok) =>
        Store1Keeps(x, id, ok);
        BodyKeeps(Store1(x, id, ok), acts[1..]);
      case Call(_, _, _, _, _, _) =>
        FulfilKeeps(x, acts[0]);
        BodyKeeps(Fulfil(x, acts[0]).0, acts[1..]);
    }
  }

  lemma BreakKeeps(x: Inst)
    requires Inv(x)
    ensures Inv(Break(x))
  {
    if x.connected && x.conn.buffer.Some? {
      var s := OpenEpisode(x).value;
      RollbackKeeps(x, s);
    }
  }

  // ---- how one state follows another ----

  /** What every later state keeps: commits, durable writes, done episodes and latches. */
  predicate Later(x: Inst, y: Inst) {
    && y.d == x.d && y.transactional == x.transactional && |y.txn| == |x.txn|
    && x.committed <= y.committed && x.conn.durable <= y.conn.durable && x.written <= y.written
    && (forall s | 0 <= s < |x.txn| && x.txn[s] == Done :: y.txn[s] == Done)
    && (forall k | |x.committed| <= k < |y.committed| :: y.committed[k] < |x.txn| && x.txn[y.committed[k]] != Done)
    && Extends(x.latches, y.latches)
    && (y.connected ==> x.connected)
    && (x.life == Broken ==> y.life == Broken)
  }

  lemma LaterTrans(x: Inst, y: Inst, z: Inst)
    requires Later(x, y) && Later(y, z)
    ensures Later(x, z)
  {
  }

  lemma TxnBeforeLater(x: Inst, p: nat, beginOk: bool)
    requires Shaped(x)
    ensures TxnBefore(x, p, beginOk).Ok? ==> Later(x, TxnBefore(x, p, beginOk).value)
  {
  }

  lemma TxnAfterLater(x: Inst, p: nat, st: Status, out: Value, commitOk: bool)
    requires Shaped(x)
    ensures Later(x, TxnAfter(x, p, st, out, commitOk).0)
  {
  }

  lemma {:induction false} FulfilLater(x: Inst, call: Act)
    requires Shaped(x) && call.Call?
    ensures Later(x, Fulfil(x, call).0)
    decreases call
  {
    if Takes(x.life) && call.p < |x.latches| && TxnBefore(x, call.p, call.beginOk).Ok? {
      hide TxnAfter, TxnBefore, Later;
      TxnBeforeLater(x, call.p, call.beginOk);
      var x1 := TxnBefore(x, call.p, call.beginOk).value;
      BodyLater(x1, call.acts);
      var x2 := Body(x1, call.acts);
      LaterTrans(x, x1, x2);
      var x3 := if call.st == OK then Judge(LatchPledge(x2, call.p, call.out)) else x2;
      JudgeLater(x2, call.p, call.out);
      LaterSelf(x2);
      LaterTrans(x, x2, x3);
      TxnAfterLater(x3, call.p, call.st, call.out, call.commitOk);
      LaterTrans(x, x3, TxnAfter(x3, call.p, call.st, call.out, call.commitOk).0);
    }
  }

  lemma LaterSelf(x: Inst)
    ensures Later(x, x)
  {
  }

  lemma JudgeLater(x: Inst, p: nat, out: Value)
    requires Shaped(x)
    ensures Later(x, Judge(LatchPledge(x, p, out)))
  {
  }

  lemma {:induction false} BodyLater(x: Inst, acts: seq<Act>)
    requires Shaped(x)
    ensures Later(x, Body(x, acts))
    decreases acts
  {
    if acts != [] {
      var y := if acts[0].Store? then Store1(x, acts[0].id, acts[0].ok) else Fulfil(x, acts[0]).0;
      if acts[0].Call? {
        FulfilLater(x, acts[0]);
      }
      BodyLater(y, acts[1..]);
      LaterTrans(x, y, Body(y, acts[1..]));
    }
  }

  lemma BreakLater(x: Inst)
    requires Shaped(x)
    ensures Later(x, Break(x))
  {
  }

  // ---- runs ----

  datatype Event = Fulfilment(call: Act) | Teardown

  function React(x: Inst, e: Event): (y: Inst)
    requires Shaped(x)
    ensures Shaped(y) && y.d == x.d
  {
    match e
    case Fulfilment(call) => if call.Call? then Fulfil(x, call).0 else x
    case Teardown => Break(x)
  }

  function Lives(x: Inst, es: seq<Event>): (y: Inst)
    requires Shaped(x)
    ensures Shaped(y) && |y.txn| == |x.txn|
    decreases |es|
  {
    if es == [] then x else Lives(React(x, es[0]), es[1..])
  }

  lemma {:induction false} LivesKeep(x: Inst, es: seq<Event>)
    requires Inv(x)
    ensures Inv(Lives(x, es)) && Later(x, Lives(x, es))
    decreases |es|
  {
    hide Inv, Later;
    ShapeOf(x);
    if es == [] {
      LaterSelf(x);
    } else {
      var y := React(x, es[0]);
      if es[0].Teardown? {
        BreakKeeps(x);
        BreakLater(x);
      } else if es[0].call.Call? {
        FulfilKeeps(x, es[0].call);
        FulfilLater(x, es[0].call);
      } else {
        LaterSelf(x);
      }
      LivesKeep(y, es[1..]);
      LaterTrans(x, y, Lives(y, es[1..]));
    }
  }

  // ---- every moment of a run ----

  /** A moment of a call under way: its body about to make its k-th act, or back from the
      last; inside the nested call that act is; or, after the body, latched and judged. */
  datatype Moment = Cut(k: nat) | Within(k: nat, inner: Moment) | Judged

  /** The instance at a moment of a call, if the call gets there. */
  function Inside(x: Inst, call: Act, m: Moment): (y: Option<Inst>)
    requires Shaped(x) && call.Call?
    ensures y.Some? ==> Shaped(y.value)
    decreases m
  {
    if !Takes(x.life) || call.p >= |x.latches| || TxnBefore(x, call.p, call.beginOk).Err? then None
    else
      var x1 := TxnBefore(x, call.p, call.beginOk).value;
      match m
      case Cut(k) => if k <= |call.acts| then Some(Body(x1, call.acts[..k])) else None
      case Within(k, inner) =>
        if k < |call.acts| && call.acts[k].Call? then Inside(Body(x1, call.acts[..k]), call.acts[k], inner) else None
      case Judged =>
        var x2 := Body(x1, call.acts);
        Some(if call.st == OK then Judge(LatchPledge(x2, call.p, call.out)) else x2)
  }

  lemma {:induction false} InsideKeeps(x: Inst, call: Act, m: Moment)
    requires Inv(x) && Shaped(x) && call.Call? && Inside(x, call, m).Some?
    ensures Inv(Inside(x, call, m).value) && Later(x, Inside(x, call, m).value)
    decreases m
  {
    hide Inv, Later, TxnBefore, LatchPledge, Judge, Shaped;
    TxnBeforeKeeps(x, call.p, call.beginOk);
    TxnBeforeLater(x, call.p, call.beginOk);
    var x1 := TxnBefore(x, call.p, call.beginOk).value;
    var acts := if m.Judged? then call.acts else call.acts[..m.k];
    BodyKeeps(x1, acts);
    BodyLater(x1, acts);
    var x2 := Body(x1, acts);
    LaterTrans(x, x1, x2);
    match m
    case Cut(_) =>
    case Within(k, inner) =>
      InsideKeeps(x2, call.acts[k], inner);
      LaterTrans(x, x2, Inside(x2, call.acts[k], inner).value);
    case Judged =>
      LatchKeeps(x2, call.p, call.out);
      JudgeLater(x2, call.p, call.out);
      LaterTrans(x, x2, Judge(LatchPledge(x2, call.p, call.out)));
  }

  /** Between two calls of a run, or at some moment of one. */
  ghost predicate Passes(x0: Inst, es: seq<Event>, x: Inst)
    requires Shaped(x0)
  {
    || x == Lives(x0, es)
    || exists call: Act, m: Moment :: call.Call? && Inside(Lives(x0, es), call, m) == Some(x)
  }

  /** Every state of every run of a signed or a resumed instance, the moments inside its
      bodies and nested bodies included. */
  ghost predicate Occurs(x: Inst) {
    exists x0: Inst, es: seq<Event> :: Starting(x0) && Passes(x0, es, x)
  }

  lemma OccursInv(x: Inst)
    requires Occurs(x)
    ensures Inv(x)
  {
    hide Inv, Passes, Later;
    var x0: Inst, es: seq<Event> :| Starting(x0) && Passes(x0, es, x);
    StartInv(x0);
    LivesKeep(x0, es);
    PassesInv(x0, es, x);
  }

  lemma PassesInv(x0: Inst, es: seq<Event>, x: Inst)
    requires Shaped(x0) && Passes(x0, es, x) && Inv(Lives(x0, es))
    ensures Inv(x)
  {
    hide Inv, Later, Inside, Lives;
    if x != Lives(x0, es) {
      var call: Act, m: Moment :| call.Call? && Inside(Lives(x0, es), call, m) == Some(x);
      InsideKeeps(Lives(x0, es), call, m);
    }
  }

  // ---- the theorems ----

  /** All or nothing: at every moment of every run, inside a body too, the durable log is
      exactly the writes made with no episode open and the whole of each episode that
      committed, in the order they were made. */
  lemma AllOrNothing(x: Inst)
    requires Occurs(x)
    ensures x.conn.durable == Survivors(x.written, x.committed)
  {
    hide Inv, Occurs;
    OccursInv(x);
    DurableIs(x);
  }

  lemma DurableIs(x: Inst)
    requires Inv(x)
    ensures x.conn.durable == Survivors(x.written, x.committed)
  {
    hide CommittedOk, TagsOk;
    if x.conn.buffer.Some? {
      var s := OpenEpisode(x).value;
      assert s !in x.committed by { OpenNotCommitted(x, s); }
      LogSplit(x.written, x.conn, x.committed, s);
    } else {
      assert x.written[..|x.written|] == x.written;
    }
  }

  lemma OpenNotCommitted(x: Inst, s: nat)
    requires Inv(x) && s < |x.txn| && x.txn[s] == Open
    ensures s !in x.committed
  {
    FreshCommit(x, s);
  }

  /** An episode is durable whole or not at all, and its writes are durable exactly when it
      committed. */
  lemma EpisodeWhole(x: Inst, s: nat, w: Write)
    requires Occurs(x) && w in x.written && w.episode == Some(s)
    ensures w in x.conn.durable <==> s in x.committed
  {
    hide Inv, Occurs;
    OccursInv(x);
    DurableIs(x);
    SurvivorsAre(x.written, x.committed, w);
  }

  /** While its store is open, an instance is in a transaction exactly when one episode is
      open, and never are two. */
  lemma InTransactionIff(x: Inst)
    requires Occurs(x) && x.connected
    ensures x.conn.buffer.Some? <==> exists s | 0 <= s < |x.txn| :: x.txn[s] == Open
    ensures forall s, t | 0 <= s < t < |x.txn| :: !(x.txn[s] == Open && x.txn[t] == Open)
  {
    hide Occurs;
    OccursInv(x);
  }

  /** Each episode commits at most once, and only with all its pledges kept. */
  lemma CommitsOnceComplete(x: Inst)
    requires Occurs(x)
    ensures Shaped(x)
    ensures forall j, k | 0 <= j < k < |x.committed| :: x.committed[j] != x.committed[k]
    ensures forall k | 0 <= k < |x.committed| ::
              x.committed[k] < |x.txn| && x.txn[x.committed[k]] == Done && SubAll(x.d, x.latches, x.committed[k], Kept)
  {
    hide Occurs;
    OccursInv(x);
  }

  /** A done episode stays done through every run and at every moment of its calls, and
      with the store open refuses each of its pledges without running it. */
  lemma {:induction false} DoneStaysDone(x: Inst, s: nat, es: seq<Event>, call: Act)
    requires Inv(x) && s < |x.txn| && x.txn[s] == Done && call.Call?
    ensures var y := Lives(x, es);
            && y.txn[s] == Done
            && (y.connected && Takes(y.life) && TxnSub(y, call.p) == Some(s) ==> Fulfil(y, call) == (y, ErrState))
            && forall m: Moment | Inside(y, call, m).Some? ::
                 var z := Inside(y, call, m).value; s < |z.txn| && z.txn[s] == Done
    ensures forall k | |x.committed| <= k < |Lives(x, es).committed| :: Lives(x, es).committed[k] != s
  {
    hide Inv, Inside;
    ShapeOf(x);
    LivesKeep(x, es);
    var y := Lives(x, es);
    ShapeOf(y);
    forall m: Moment | Inside(y, call, m).Some?
      ensures var z := Inside(y, call, m).value; s < |z.txn| && z.txn[s] == Done
    {
      InsideKeeps(y, call, m);
    }
  }

  /** While one episode is open, another transactional subcontract's first pledge is
      refused by the backend: nothing runs, and its episode stays unopened. */
  lemma SecondEpisodeRefused(x: Inst, s: nat, t: nat, call: Act)
    requires Occurs(x) && x.connected && Takes(x.life) && s < |x.txn| && x.txn[s] == Open
    requires Shaped(x) && call.Call? && TxnSub(x, call.p) == Some(t) && x.txn[t] == Unopened
    ensures Fulfil(x, call) == (x, ErrStore)
  {
    hide Occurs, LogOk, CommittedOk, TagsOk, Body, TxnAfter, Judge, LatchPledge;
    OccursInv(x);
    OpenIs(x.txn, s);
  }

  /** A write made while an episode is open rides it, whatever pledge made it: at every
      later moment it is durable exactly when that episode has committed. */
  lemma LooseWriteRides(x: Inst, s: nat, id: int, y: Inst)
    requires Occurs(x) && x.connected && s < |x.txn| && x.txn[s] == Open
    requires Occurs(y) && Later(Store1(x, id, true), y)
    ensures Store1(x, id, true).conn.durable == x.conn.durable
    ensures Write(id, Some(s)) in y.written
    ensures Write(id, Some(s)) in y.conn.durable <==> s in y.committed
  {
    hide Occurs;
    OccursInv(x);
    OpenIs(x.txn, s);
    var w := Write(id, Some(s));
    var z := Store1(x, id, true);
    assert z.written[|z.written| - 1] == w && y.written[|z.written| - 1] == w;
    EpisodeWhole(y, s, w);
  }

  /** A refused commit comes after the latch and the policy: the pledge stays kept, the
      episode is done, and none of its writes is durable. */
  lemma RefusedCommit(x: Inst, call: Act, s: nat)
    requires Inv(x) && x.connected && Takes(x.life) && call.Call? && TxnSub(x, call.p) == Some(s)
    requires call.st == OK && !(call.out.Res? && call.out.tag == 1) && !call.commitOk
    requires TxnBefore(x, call.p, call.beginOk).Ok?
    requires var x2 := Body(TxnBefore(x, call.p, call.beginOk).value, call.acts);
             && x2.txn[s] == Open && x2.connected && x2.latches[call.p] == Pending
             && SubAll(x.d, x2.latches[call.p := Kept], s, Kept)
    ensures var x2 := Body(TxnBefore(x, call.p, call.beginOk).value, call.acts);
            var (y, st) := Fulfil(x, call);
            && st == ErrStore && y.latches == x2.latches[call.p := Kept] && y.life == Policy(x.d, x2.life, y.latches)
            && y.txn[s] == Done && s !in y.committed && y.conn == Conn(x2.conn.durable, None)
  {
    hide Inv;
    TxnBeforeKeeps(x, call.p, call.beginOk);
    var x1 := TxnBefore(x, call.p, call.beginOk).value;
    BodyKeeps(x1, call.acts);
    BodyLater(x1, call.acts);
    OpenNotCommitted(Body(x1, call.acts), s);
  }

  /** Once broken, by its policy or torn down, an instance runs nothing and commits
      nothing: what an open episode had buffered is never durable. */
  lemma {:induction false} BrokenWritesNothing(x: Inst, es: seq<Event>)
    requires Shaped(x) && x.life == Broken
    ensures Lives(x, es).conn.durable == x.conn.durable && Lives(x, es).committed == x.committed
    decreases |es|
  {
    if es != [] {
      BrokenWritesNothing(React(x, es[0]), es[1..]);
    }
  }

  /** That holds between calls. A call whose own Ok breaks the instance, or inside which a
      nested one does, still settles its transaction: with its episode complete it commits,
      into an instance that stays broken. */
  lemma BrokenCallCommits(x: Inst, call: Act, s: nat)
    requires Inv(x) && x.connected && Takes(x.life) && call.Call? && TxnSub(x, call.p) == Some(s)
    requires call.st == OK && !(call.out.Res? && call.out.tag == 1) && call.commitOk
    requires TxnBefore(x, call.p, call.beginOk).Ok?
    requires var x2 := Body(TxnBefore(x, call.p, call.beginOk).value, call.acts);
             && x2.txn[s] == Open && x2.connected && x2.latches[call.p] == Pending
             && Policy(x.d, x2.life, x2.latches[call.p := Kept]) == Broken
             && SubAll(x.d, x2.latches[call.p := Kept], s, Kept)
    ensures var x2 := Body(TxnBefore(x, call.p, call.beginOk).value, call.acts);
            var (y, st) := Fulfil(x, call);
            && st == OK && y.life == Broken && y.committed == x2.committed + [s]
            && y.conn == Conn(x2.conn.durable + Buffered(x2.conn), None)
  {
    hide Inv, Policy, SubAll;
    TxnBeforeKeeps(x, call.p, call.beginOk);
    var x1 := TxnBefore(x, call.p, call.beginOk).value;
    BodyKeeps(x1, call.acts);
    BodyLater(x1, call.acts);
    OpenBuffers(Body(x1, call.acts), s);
  }

  lemma OpenBuffers(x: Inst, s: nat)
    requires Inv(x) && x.connected && s < |x.txn| && x.txn[s] == Open
    ensures x.conn.buffer.Some?
  {
    OpenIs(x.txn, s);
  }

  /** A transactional pledge A, and a loose pledge B whose failure breaks the contract. */
  function BreakingPair(): Desc {
    Desc(["A", "B"], [0, -1], [Some("s")], true, [Atom(-1, 1, true)], [], [], [Push(0)])
  }

  function FailingB(): Act {
    Call(1, true, [], OK, Res(1, None), true)
  }

  /** A's body: a write, a call of B that fails, and another write. */
  function BodyOfA(): seq<Act> {
    [Store(1, true), FailingB(), Store(2, true)]
  }

  lemma FailingBBreaks(x: Inst)
    requires Shaped(x) && x.d == BreakingPair() && x.latches == [Pending, Pending] && x.life == Signed
    ensures Fulfil(x, FailingB()).0 == x.(life := Broken, latches := [Pending, Failed])
  {
    hide Policy;
    BBreaks();
    assert x.latches[1 := Failed] == [Pending, Failed] && Body(x, []) == x;
  }

  lemma BBreaks()
    ensures Policy(BreakingPair(), Signed, [Pending, Failed]) == Broken
  {
    hide Line;
    var (d, l) := (BreakingPair(), [Pending, Failed]);
    assert Postfix(Leaf(0)) == d.brk;
    LineOfTree(d, l, Leaf(0));
    assert l[1] == Failed && Armed(l);
  }

  lemma BodyOfAWrites(x: Inst)
    requires Shaped(x) && x.d == BreakingPair() && x.latches == [Pending, Pending] && x.life == Signed
    requires x.connected && x.conn == Conn([], Some([])) && x.txn == [Open] && x.written == []
    ensures var (u, v) := (Write(1, Some(0)), Write(2, Some(0)));
            Body(x, BodyOfA()) == x.(life := Broken, latches := [Pending, Failed], conn := Conn([], Some([u, v])),
                                     written := [u, v])
  {
    hide Fulfil;
    var (acts, y) := (BodyOfA(), Store1(x, 1, true));
    OpenIs(x.txn, 0);
    assert acts[1..] == [FailingB(), Store(2, true)] && acts[1..][1..] == [Store(2, true)];
    FailingBBreaks(y);
    var z := Fulfil(y, FailingB()).0;
    assert Body(x, acts) == Body(y, acts[1..]) == Body(z, [Store(2, true)]);
    assert Body(z, [Store(2, true)]) == Store1(z, 2, true) by {
      assert [Store(2, true)][1..] == [] && Body(Store1(z, 2, true), []) == Store1(z, 2, true);
    }
    var (u, v) := (Write(1, Some(0)), Write(2, Some(0)));
    assert [] + [u] == [u] && [u] + [v] == [u, v];
    assert y.conn == Conn([], Some([u])) && y.written == [u];
  }

  /** Both writes, the one made while the instance was already broken too, are durable. */
  lemma BrokenYetCommits()
    ensures var x := Sign(BreakingPair(), [true], true);
            var y := Fulfil(x, Call(0, true, BodyOfA(), OK, ZERO, true)).0;
            y.life == Broken && y.conn.durable == [Write(1, Some(0)), Write(2, Some(0))] && y.committed == [0]
  {
    hide Body, Inv, SubAll;
    var x := Sign(BreakingPair(), [true], true);
    var x1 := TxnBefore(x, 0, true).value;
    assert x.latches == [Pending, Pending] && x1.txn == [Open];
    assert TxnBefore(x, 0, true).Ok? && x1.conn == Conn([], Some([])) && x1.d == BreakingPair();
    BodyOfAWrites(x1);
    var x2 := Body(x1, BodyOfA());
    assert x2.latches[0 := Kept] == [Kept, Failed];
    SignStarts(BreakingPair(), [true], true);
    StartInv(x);
    assert SubAll(x.d, [Kept, Failed], 0, Kept) by { OnlyA(); }
    assert Policy(x.d, x2.life, [Kept, Failed]) == Broken;
    BrokenCallCommits(x, Call(0, true, BodyOfA(), OK, ZERO, true), 0);
  }

  lemma OnlyA()
    ensures SubAll(BreakingPair(), [Kept, Failed], 0, Kept)
  {
    assert InSub(BreakingPair(), 0, 0);
  }
}
