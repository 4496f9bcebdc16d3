/** What the requirements policy keeps over whole runs of one instance, and the surface
    that reports which items are kept, failed or pending. The runs here are of calls that do
    not nest: each is over before the next begins, so none latches after Broken. A call still
    under way when a nested one breaks the instance does; Episodes has those. */
module PolicyRuns {
  import opened Basics
  import opened Requirements

  /** One call on a signed instance: a body's outcome, a call that ends before it has one,
      or an explicit break. */
  datatype Event = Outcome(p: nat, err: bool) | NoOutcome | Tear

  datatype Pos = Pos(st: Life, l: seq<Latch>)

  /** The first outcome latches; later ones change nothing. */
  function Latched(l: seq<Latch>, p: nat, err: bool): (r: seq<Latch>)
    requires p < |l|
    ensures |r| == |l|
  {
    if l[p] != Pending then l else l[p := if err then Failed else Kept]
  }

  predicate Takes(st: Life) {
    st == Signed || st == Partial || st == Fulfilled
  }

  function After(d: Desc, x: Pos, e: Event): (y: Pos)
    requires |x.l| == |d.subOf|
    ensures |y.l| == |d.subOf|
  {
    match e
    case Outcome(p, err) =>
      if !Takes(x.st) || p >= |x.l| then x
      else
        var l' := Latched(x.l, p, err);
        Pos(Policy(d, x.st, l'), l')
    case NoOutcome => x
    case Tear => if x.st == Unsigned then x else x.(st := Broken)
  }

  function Run(d: Desc, x: Pos, evs: seq<Event>): (y: Pos)
    requires |x.l| == |d.subOf|
    ensures |y.l| == |d.subOf|
    decreases |evs|
  {
    if evs == [] then x else After(d, Run(d, x, evs[..|evs| - 1]), evs[|evs| - 1])
  }

  lemma RunSnoc(d: Desc, x: Pos, evs: seq<Event>, e: Event)
    requires |x.l| == |d.subOf|
    ensures Run(d, x, evs + [e]) == After(d, Run(d, x, evs), e)
  {
    assert (evs + [e])[..|evs|] == evs;
  }

  function AllPending(n: nat): seq<Latch> {
    seq(n, _ => Pending)
  }

  /** Just after sign: the policy has not run yet. */
  function Start(d: Desc): Pos {
    Pos(Signed, AllPending(|d.subOf|))
  }

  /** An explicit break breaks any signed contract and leaves its latches. */
  lemma TearBreaks(d: Desc, x: Pos)
    requires |x.l| == |d.subOf|
    ensures After(d, x, Tear).l == x.l
    ensures After(d, x, Tear).st == if x.st == Unsigned then Unsigned else Broken
  {
  }

  // ---- every policy ----

  /** Broken is terminal. */
  lemma {:induction false} BrokenStays(d: Desc, x: Pos, evs: seq<Event>)
    requires |x.l| == |d.subOf| && x.st == Broken
    ensures Run(d, x, evs) == x
    decreases |evs|
  {
    if evs != [] {
      BrokenStays(d, x, evs[..|evs| - 1]);
    }
  }

  /** Latches only ever fill in. */
  predicate Extends(a: seq<Latch>, b: seq<Latch>) {
    |a| == |b| && forall i | 0 <= i < |a| :: a[i] == Pending || b[i] == a[i]
  }

  lemma {:induction false} LatchesStand(d: Desc, x: Pos, evs: seq<Event>)
    requires |x.l| == |d.subOf|
    ensures Extends(x.l, Run(d, x, evs).l)
    decreases |evs|
  {
    if evs != [] {
      LatchesStand(d, x, evs[..|evs| - 1]);
    }
  }

  /** Without an explicit break, no contract breaks before one of its pledges failed. */
  lemma {:induction false} NoBreakUnarmed(d: Desc, evs: seq<Event>)
    requires Tear !in evs
    ensures var y := Run(d, Start(d), evs); y.st == Broken ==> Armed(y.l)
    decreases |evs|
  {
    if evs != [] {
      var front := evs[..|evs| - 1];
      NoBreakUnarmed(d, front);
    }
  }

  // ---- lines without negation ----

  lemma SubAllGrows(d: Desc, a: seq<Latch>, b: seq<Latch>, s: int, want: Latch)
    requires |a| == |d.subOf| && Extends(a, b) && want != Pending && SubAll(d, a, s, want)
    ensures SubAll(d, b, s, want)
  {
  }

  lemma AtomGrows(d: Desc, a: seq<Latch>, b: seq<Latch>, x: Atom)
    requires |a| == |d.subOf| && Extends(a, b) && AtomTrue(d, a, x)
    ensures AtomTrue(d, b, x)
  {
    if x.sub >= 0 {
      SubAllGrows(d, a, b, x.sub, Want(x));
    }
  }

  predicate Below(s: seq<bool>, t: seq<bool>) {
    |s| == |t| && forall i | 0 <= i < |s| :: s[i] ==> t[i]
  }

  lemma {:induction false} StepsGrow(d: Desc, a: seq<Latch>, b: seq<Latch>, s: seq<bool>, t: seq<bool>, ops: seq<Op>)
    requires |a| == |d.subOf| && Extends(a, b) && Not !in ops
    requires |s| <= STACK_MAX && Below(s, t)
    ensures var (x, y) := (Steps(d, a, s, ops), Steps(d, b, t, ops));
            (x.None? <==> y.None?) && (x.Some? ==> Below(x.value, y.value))
    decreases |ops|
  {
    if ops != [] {
      StepGrows(d, a, b, s, t, ops[0]);
      var x := Step(d, a, s, ops[0]);
      if x.Some? {
        StepsGrow(d, a, b, x.value, Step(d, b, t, ops[0]).value, ops[1..]);
      }
    }
  }

  lemma StepGrows(d: Desc, a: seq<Latch>, b: seq<Latch>, s: seq<bool>, t: seq<bool>, op: Op)
    requires |a| == |d.subOf| && Extends(a, b) && op != Not
    requires |s| <= STACK_MAX && Below(s, t)
    ensures var (x, y) := (Step(d, a, s, op), Step(d, b, t, op));
            (x.None? <==> y.None?) && (x.Some? ==> Below(x.value, y.value))
  {
    if op.Push? && op.atom < |d.atoms| && AtomTrue(d, a, d.atoms[op.atom]) {
      AtomGrows(d, a, b, d.atoms[op.atom]);
    }
  }

  lemma LineGrows(d: Desc, a: seq<Latch>, b: seq<Latch>, ops: seq<Op>)
    requires |a| == |d.subOf| && Extends(a, b) && Not !in ops && Line(d, a, ops)
    ensures Line(d, b, ops)
  {
    StepsGrow(d, a, b, [], [], ops);
  }

  lemma DefaultGrows(d: Desc, a: seq<Latch>, b: seq<Latch>)
    requires |a| == |d.subOf| && Extends(a, b)
    ensures DefaultLine(d, a, false) ==> DefaultLine(d, b, false)
    ensures DefaultPartial(d, a) ==> DefaultPartial(d, b)
  {
    var items := ItemAtoms(d, false);
    if DefaultLine(d, a, false) {
      forall k | 0 <= k < |items| ensures AtomTrue(d, b, items[k]) {
        AtomGrows(d, a, b, items[k]);
      }
    }
    if DefaultPartial(d, a) {
      var s :| 0 <= s < |d.subs| && SubAll(d, a, s, Kept);
      SubAllGrows(d, a, b, s, Kept);
    }
  }

  predicate NoNegation(d: Desc) {
    Not !in d.fulfill && Not !in d.partial
  }

  function Rank(st: Life): nat {
    match st
    case Unsigned => 0
    case Signed => 1
    case Partial => 2
    case Fulfilled => 3
    case Broken => 4
  }

  lemma PolicyGrows(d: Desc, a: seq<Latch>, b: seq<Latch>)
    requires |a| == |d.subOf| && Extends(a, b)
    ensures Not !in d.fulfill && Fulfills(d, a) ==> Fulfills(d, b)
    ensures Not !in d.partial && Partials(d, a) ==> Partials(d, b)
  {
    if !HasTrees(d) {
      DefaultGrows(d, a, b);
    } else {
      if Not !in d.fulfill && Fulfills(d, a) {
        LineGrows(d, a, b, d.fulfill);
      }
      if Not !in d.partial && Partials(d, a) {
        LineGrows(d, a, b, d.partial);
      }
    }
  }

  // ---- when a state never falls ----

  function LatchCount(l: seq<Latch>): nat {
    if l == [] then 0 else LatchCount(l[..|l| - 1]) + (if l[|l| - 1] == Pending then 0 else 1)
  }

  lemma {:induction false} CountWithout(l: seq<Latch>, i: nat)
    requires i < |l| && l[i] != Pending
    ensures LatchCount(l[i := Pending]) == LatchCount(l) - 1
    decreases |l|
  {
    var m := l[i := Pending];
    if i == |l| - 1 {
      assert m[..|l| - 1] == l[..|l| - 1];
    } else {
      assert m[..|l| - 1] == l[..|l| - 1][i := Pending];
      CountWithout(l[..|l| - 1], i);
    }
  }

  /** The latches can be filled in, in some order, without the break line ever firing. */
  ghost predicate Attainable(d: Desc, l: seq<Latch>)
    requires |l| == |d.subOf|
    decreases LatchCount(l)
  {
    || l == AllPending(|l|)
    || (!Breaks(d, l)
        && exists i: nat ::
             i < |l| && l[i] != Pending && (CountWithout(l, i); Attainable(d, l[i := Pending])))
  }

  /** The state the latches stand for while nothing has broken. */
  function StateAt(d: Desc, l: seq<Latch>): Life
    requires |l| == |d.subOf|
  {
    if l == AllPending(|l|) then Signed
    else if Fulfills(d, l) then Fulfilled
    else if Partials(d, l) then Partial
    else Signed
  }

  /** One more latch lets go of neither line: fulfill holds on, and partial holds on or
      gives way to fulfill. */
  predicate HoldsOn(d: Desc, l: seq<Latch>, l': seq<Latch>)
    requires |l| == |l'| == |d.subOf|
  {
    && (Fulfills(d, l) ==> Fulfills(d, l'))
    && (Partials(d, l) ==> Fulfills(d, l') || Partials(d, l'))
  }

  /** Whichever latch fills in next, the lines hold on or the break line fires. */
  predicate CalmAt(d: Desc, l: seq<Latch>)
    requires |l| == |d.subOf|
  {
    forall p, err: bool | 0 <= p < |l| && l[p] == Pending ::
      Breaks(d, Latched(l, p, err)) || HoldsOn(d, l, Latched(l, p, err))
  }

  /** A condition on the policy's lines over the fillings of the latches: wherever the
      contract can get to unbroken after its first outcome, no line that held is let go.
      SteadyBySweep decides it from the descriptor. */
  ghost predicate Steady(d: Desc) {
    forall l: seq<Latch> | |l| == |d.subOf| && l != AllPending(|l|) && Attainable(d, l) :: CalmAt(d, l)
  }

  /** In every run, every step keeps or raises the state, or breaks the contract. */
  ghost predicate NeverFalls(d: Desc) {
    forall evs: seq<Event>, e: Event ::
      Rank(Run(d, Start(d), evs).st) <= Rank(After(d, Run(d, Start(d), evs), e).st)
  }

  /** Everywhere a run gets, it is broken or where its latches say. */
  lemma {:induction false} RunIsAt(d: Desc, evs: seq<Event>)
    ensures var y := Run(d, Start(d), evs);
            y.st == Broken || (Attainable(d, y.l) && y.st == StateAt(d, y.l))
    decreases |evs|
  {
    if evs != [] {
      var x := Run(d, Start(d), evs[..|evs| - 1]);
      RunIsAt(d, evs[..|evs| - 1]);
      OneMore(d, x, evs[|evs| - 1]);
    }
  }

  lemma OneMore(d: Desc, x: Pos, e: Event)
    requires |x.l| == |d.subOf| && (x.st == Broken || (Attainable(d, x.l) && x.st == StateAt(d, x.l)))
    ensures var y := After(d, x, e); y.st == Broken || (Attainable(d, y.l) && y.st == StateAt(d, y.l))
  {
    hide Breaks, Fulfills, Partials;
    if e.Outcome? && Takes(x.st) && e.p < |x.l| && x.l[e.p] == Pending {
      var l' := Latched(x.l, e.p, e.err);
      assert l'[e.p] != Pending && l'[e.p := Pending] == x.l;
    }
  }

  /** Every attainable filling is where some run gets. */
  lemma {:induction false} SomeRunTo(d: Desc, l: seq<Latch>) returns (evs: seq<Event>)
    requires |l| == |d.subOf| && Attainable(d, l)
    ensures Run(d, Start(d), evs) == Pos(StateAt(d, l), l)
    decreases LatchCount(l)
  {
    if l == AllPending(|l|) {
      evs := [];
    } else {
      hide Breaks, Fulfills, Partials, Run, Attainable;
      var i, less := LastLatch(d, l);
      var front := SomeRunTo(d, less);
      evs := front + [Outcome(i, l[i] == Failed)];
      RunSnoc(d, Start(d), front, Outcome(i, l[i] == Failed));
    }
  }

  /** The state that latches stand for falls exactly when a line is let go. */
  lemma CalmIsRank(d: Desc, l: seq<Latch>, p: nat, err: bool)
    requires |l| == |d.subOf| && p < |l| && l[p] == Pending && l != AllPending(|l|)
    ensures HoldsOn(d, l, Latched(l, p, err)) <==> Rank(StateAt(d, l)) <= Rank(StateAt(d, Latched(l, p, err)))
  {
    hide Fulfills, Partials;
    assert Latched(l, p, err)[p] != Pending;
  }

  /** The state of a contract never falls, in any run, exactly when its policy is steady. */
  lemma NeverFallsExactly(d: Desc)
    ensures NeverFalls(d) <==> Steady(d)
  {
    hide CalmAt, HoldsOn;
    if Steady(d) {
      forall evs: seq<Event>, e: Event
        ensures Rank(Run(d, Start(d), evs).st) <= Rank(After(d, Run(d, Start(d), evs), e).st)
      {
        RunIsAt(d, evs);
        SteadyStep(d, Run(d, Start(d), evs), e);
      }
    }
    if NeverFalls(d) {
      forall l: seq<Latch> | |l| == |d.subOf| && l != AllPending(|l|) && Attainable(d, l) ensures CalmAt(d, l) {
        NeverFallsAt(d, l);
      }
    }
  }

  lemma NeverFallsAt(d: Desc, l: seq<Latch>)
    requires NeverFalls(d) && |l| == |d.subOf| && l != AllPending(|l|) && Attainable(d, l)
    ensures CalmAt(d, l)
  {
    hide Breaks, HoldsOn, Attainable;
    var evs := SomeRunTo(d, l);
    forall p, err: bool | 0 <= p < |l| && l[p] == Pending
      ensures Breaks(d, Latched(l, p, err)) || HoldsOn(d, l, Latched(l, p, err))
    {
      CalmIsRank(d, l, p, err);
      assert Rank(Run(d, Start(d), evs).st) <= Rank(After(d, Run(d, Start(d), evs), Outcome(p, err)).st);
      assert Latched(l, p, err)[p] != Pending;
    }
  }

  lemma SteadyStep(d: Desc, x: Pos, e: Event)
    requires Steady(d) && |x.l| == |d.subOf|
    requires x.st == Broken || (Attainable(d, x.l) && x.st == StateAt(d, x.l))
    ensures Rank(x.st) <= Rank(After(d, x, e).st)
  {
    hide Breaks, Fulfills, Partials, Attainable, HoldsOn;
    if e.Outcome? && Takes(x.st) && e.p < |x.l| && x.l[e.p] == Pending && !Breaks(d, Latched(x.l, e.p, e.err))
      && x.l != AllPending(|x.l|)
    {
      assert CalmAt(d, x.l);
      CalmIsRank(d, x.l, e.p, e.err);
      assert Latched(x.l, e.p, e.err)[e.p] != Pending;
    }
  }

  // ---- deciding it ----

  lemma {:induction false} CountWith(l: seq<Latch>, p: nat, err: bool)
    requires p < |l| && l[p] == Pending
    ensures LatchCount(Latched(l, p, err)) == LatchCount(l) + 1
  {
    CountWithout(Latched(l, p, err), p);
    assert Latched(l, p, err)[p := Pending] == l;
  }

  lemma {:induction false} CountBounds(l: seq<Latch>)
    ensures LatchCount(l) <= |l|
    ensures LatchCount(l) == 0 <==> l == AllPending(|l|)
    ensures LatchCount(l) == |l| <==> Pending !in l
    decreases |l|
  {
    if l != [] {
      CountBounds(l[..|l| - 1]);
      assert l == l[..|l| - 1] + [l[|l| - 1]];
    }
  }

  /** The attainable fillings with k latches set. */
  ghost predicate Layer(d: Desc, k: nat, layer: set<seq<Latch>>) {
    forall l: seq<Latch> :: l in layer <==> |l| == |d.subOf| && LatchCount(l) == k && Attainable(d, l)
  }

  /** The fillings one more latch makes of these without breaking. */
  function Grown(d: Desc, layer: set<seq<Latch>>): set<seq<Latch>>
    requires forall l | l in layer :: |l| == |d.subOf|
  {
    set l, p, err: bool | l in layer && 0 <= p < |l| && l[p] == Pending && !Breaks(d, Latched(l, p, err)) ::
      Latched(l, p, err)
  }

  /** A latch set last, with the filling it was set on. */
  lemma LastLatch(d: Desc, l: seq<Latch>) returns (i: nat, less: seq<Latch>)
    requires |l| == |d.subOf| && Attainable(d, l) && l != AllPending(|l|)
    ensures i < |l| && l[i] != Pending && less == l[i := Pending] && Attainable(d, less) && !Breaks(d, l)
    ensures LatchCount(less) == LatchCount(l) - 1 && Latched(less, i, l[i] == Failed) == l
  {
    hide Breaks;
    i :| i < |l| && l[i] != Pending && (CountWithout(l, i); Attainable(d, l[i := Pending]));
    CountWithout(l, i);
    less := l[i := Pending];
  }

  /** And a filling one more latch makes. */
  lemma NextLatch(d: Desc, l: seq<Latch>, p: nat, err: bool)
    requires |l| == |d.subOf| && Attainable(d, l) && p < |l| && l[p] == Pending && !Breaks(d, Latched(l, p, err))
    ensures Attainable(d, Latched(l, p, err)) && LatchCount(Latched(l, p, err)) == LatchCount(l) + 1
  {
    hide Breaks;
    CountWith(l, p, err);
    var m := Latched(l, p, err);
    assert m[p] != Pending && m[p := Pending] == l;
    CountWithout(m, p);
  }

  lemma GrownIsLayer(d: Desc, k: nat, layer: set<seq<Latch>>)
    requires Layer(d, k, layer)
    ensures Layer(d, k + 1, Grown(d, layer))
  {
    hide Breaks, Attainable, LatchCount, Latched;
    var next := Grown(d, layer);
    forall l: seq<Latch> ensures l in next <==> |l| == |d.subOf| && LatchCount(l) == k + 1 && Attainable(d, l) {
      if l in next {
        var m, p, err: bool :| m in layer && 0 <= p < |m| && m[p] == Pending && !Breaks(d, Latched(m, p, err))
          && l == Latched(m, p, err);
        NextLatch(d, m, p, err);
      }
      if |l| == |d.subOf| && LatchCount(l) == k + 1 && Attainable(d, l) {
        CountBounds(l);
        var i, m := LastLatch(d, l);
        assert m in layer;
      }
    }
  }

  /** Decides from the descriptor alone, before any instance is signed, what holds at every
      attainable filling: a sweep, one more latch at a time. */
  method Sweep(d: Desc, ok: seq<Latch> -> bool) returns (all: bool)
    ensures all <==> forall l: seq<Latch> | |l| == |d.subOf| && Attainable(d, l) :: ok(l)
  {
    hide Attainable;
    var n := |d.subOf|;
    var layer := { AllPending(n) };
    OnlyOneEmpty(d);
    for k := 0 to n
      invariant Layer(d, k, layer)
      invariant forall l: seq<Latch> | |l| == n && LatchCount(l) < k && Attainable(d, l) :: ok(l)
    {
      if exists l | l in layer :: !ok(l) {
        return false;
      }
      GrownIsLayer(d, k, layer);
      layer := Grown(d, layer);
    }
    all := forall l | l in layer :: ok(l);
    forall l: seq<Latch> | |l| == n && Attainable(d, l) ensures LatchCount(l) <= n {
      CountBounds(l);
    }
  }

  /** Whether a contract's state can fall. */
  method SteadyBySweep(d: Desc) returns (steady: bool)
    ensures steady <==> Steady(d)
    ensures steady <==> NeverFalls(d)
  {
    hide CalmAt, Attainable, NeverFalls;
    NeverFallsExactly(d);
    steady := Sweep(d, l => |l| == |d.subOf| && l != AllPending(|l|) ==> CalmAt(d, l));
  }

  lemma OnlyOneEmpty(d: Desc)
    ensures Layer(d, 0, { AllPending(|d.subOf|) })
  {
    forall l: seq<Latch> ensures LatchCount(l) == 0 <==> l == AllPending(|l|) {
      CountBounds(l);
    }
  }

  // ---- when Fulfilled is for good ----

  /** Fulfilled here, and whichever latch fills in next, fulfilled there and not broken. */
  predicate LastsAt(d: Desc, l: seq<Latch>)
    requires |l| == |d.subOf|
  {
    forall p, err: bool | 0 <= p < |l| && l[p] == Pending ::
      !Breaks(d, Latched(l, p, err)) && Fulfills(d, Latched(l, p, err))
  }

  ghost predicate Lasting(d: Desc) {
    forall l: seq<Latch> | |l| == |d.subOf| && l != AllPending(|l|) && Attainable(d, l) && Fulfills(d, l) ::
      LastsAt(d, l)
  }

  /** In every run, nothing but an explicit break ends Fulfilled. */
  ghost predicate FulfilledLasts(d: Desc) {
    forall evs: seq<Event>, e: Event | e != Tear && Run(d, Start(d), evs).st == Fulfilled ::
      After(d, Run(d, Start(d), evs), e).st == Fulfilled
  }

  /** Fulfilled is for good, in every run, exactly when no latch filled in where the fulfill
      line holds makes it let go or the break line fire. */
  lemma FulfilledLastsExactly(d: Desc)
    ensures FulfilledLasts(d) <==> Lasting(d)
  {
    hide LastsAt, Attainable, Breaks, Fulfills, Run;
    if Lasting(d) {
      forall evs: seq<Event>, e: Event | e != Tear && Run(d, Start(d), evs).st == Fulfilled
        ensures After(d, Run(d, Start(d), evs), e).st == Fulfilled
      {
        RunIsAt(d, evs);
        LastsOne(d, Run(d, Start(d), evs), e);
      }
    }
    if FulfilledLasts(d) {
      forall l: seq<Latch> | |l| == |d.subOf| && l != AllPending(|l|) && Attainable(d, l) && Fulfills(d, l)
        ensures LastsAt(d, l)
      {
        FulfilledLastsAt(d, l);
      }
    }
  }

  lemma LastsOne(d: Desc, x: Pos, e: Event)
    requires Lasting(d) && |x.l| == |d.subOf| && e != Tear
    requires x.st == Fulfilled && Attainable(d, x.l) && x.st == StateAt(d, x.l)
    ensures After(d, x, e).st == Fulfilled
  {
    hide Fulfills, Partials, Breaks;
    assert LastsAt(d, x.l);
  }

  lemma FulfilledLastsAt(d: Desc, l: seq<Latch>)
    requires FulfilledLasts(d) && |l| == |d.subOf| && l != AllPending(|l|) && Attainable(d, l) && Fulfills(d, l)
    ensures LastsAt(d, l)
  {
    hide Fulfills, Partials, Breaks, Attainable;
    var evs := SomeRunTo(d, l);
    forall p, err: bool | 0 <= p < |l| && l[p] == Pending
      ensures !Breaks(d, Latched(l, p, err)) && Fulfills(d, Latched(l, p, err))
    {
      assert After(d, Run(d, Start(d), evs), Outcome(p, err)).st == Fulfilled;
    }
  }

  method FulfilledBySweep(d: Desc) returns (lasts: bool)
    ensures lasts <==> Lasting(d)
    ensures lasts <==> FulfilledLasts(d)
  {
    hide LastsAt, Attainable, FulfilledLasts, Fulfills;
    FulfilledLastsExactly(d);
    lasts := Sweep(d, l => |l| == |d.subOf| && l != AllPending(|l|) && Fulfills(d, l) ==> LastsAt(d, l));
  }

  // ---- breaking around an unfinished subcontract ----

  /** Some latch filled in here breaks the contract while subcontract s has a pledge pending
      and none failed. */
  predicate ExposedAt(d: Desc, l: seq<Latch>, s: nat)
    requires |l| == |d.subOf|
  {
    && (exists q | 0 <= q < |l| :: InSub(d, s, q) && l[q] == Pending)
    && exists p, err: bool | 0 <= p < |l| && l[p] == Pending ::
         Breaks(d, Latched(l, p, err)) && Unfailed(d, Latched(l, p, err), s)
  }

  /** Subcontract s has pledges, and none of them has failed. */
  predicate Unfailed(d: Desc, l: seq<Latch>, s: nat)
    requires |l| == |d.subOf|
  {
    && (exists q | 0 <= q < |l| :: InSub(d, s, q))
    && forall q | 0 <= q < |l| && InSub(d, s, q) :: l[q] != Failed
  }

  ghost predicate Exposed(d: Desc, s: nat) {
    exists l: seq<Latch> :: |l| == |d.subOf| && Attainable(d, l) && ExposedAt(d, l, s)
  }

  method ExposedBySweep(d: Desc, s: nat) returns (exposed: bool)
    ensures exposed <==> Exposed(d, s)
  {
    hide ExposedAt, Attainable;
    var safe := Sweep(d, l => |l| == |d.subOf| ==> !ExposedAt(d, l, s));
    exposed := !safe;
  }

  /** Where every filling that fires the armed break line has a failed pledge in s, or s has
      no pledge, s is never exposed; and so it is with the structural default. */
  lemma GuardedUnexposed(d: Desc, s: nat)
    requires forall l: seq<Latch> | |l| == |d.subOf| && Breaks(d, l) :: !Unfailed(d, l, s)
    ensures !Exposed(d, s)
  {
    hide Breaks, Unfailed;
  }

  lemma DefaultGuards(d: Desc, s: nat)
    requires !HasTrees(d) && s < |d.subs|
    ensures !Exposed(d, s)
  {
    forall l: seq<Latch> | |l| == |d.subOf| && Breaks(d, l) ensures !Unfailed(d, l, s) {
      var items := ItemAtoms(d, true);
      assert items[s] == Atom(s, -1, true) && AtomTrue(d, l, items[s]);
      var q :| 0 <= q < |l| && InSub(d, s, q);
      assert l[q] == Failed;
    }
    GuardedUnexposed(d, s);
  }

  /** Without negation in the fulfill and partial lines every policy is steady. */
  lemma NoNegationNeverFalls(d: Desc)
    requires NoNegation(d)
    ensures NeverFalls(d)
  {
    hide Attainable;
    forall l: seq<Latch> | |l| == |d.subOf| && l != AllPending(|l|) && Attainable(d, l) ensures CalmAt(d, l) {
      forall p, err: bool | 0 <= p < |l| && l[p] == Pending
        ensures HoldsOn(d, l, Latched(l, p, err))
      {
        PolicyGrows(d, l, Latched(l, p, err));
      }
    }
    NeverFallsExactly(d);
  }

  /** The negated line that does fall: `partial: !A` holds while A is pending and lets go
      once A is kept. */
  function NegatedPartial(): Desc {
    Desc(["A", "B"], [-1, -1], [], true, [Atom(-1, 0, false)], [], [Push(0), Not], [])
  }

  lemma NegatedPartialFalls()
    ensures var d := NegatedPartial();
            && Run(d, Start(d), [Outcome(1, false)]).st == Partial
            && Run(d, Start(d), [Outcome(1, false), Outcome(0, false)]).st == Signed
  {
    var d := NegatedPartial();
    var (b, a) := (Outcome(1, false), Outcome(0, false));
    assert [] + [b] == [b] && [b] + [a] == [b, a];
    RunSnoc(d, Start(d), [], b);
    RunSnoc(d, Start(d), [b], a);
    var l1 := [Pending, Kept];
    assert Latched(Start(d).l, 1, false) == l1;
    NegatedLine(d, l1);
    NegatedLine(d, [Kept, Kept]);
  }

  lemma NegatedPartialUnsteady()
    ensures !NeverFalls(NegatedPartial()) && !Steady(NegatedPartial())
  {
    var d := NegatedPartial();
    NegatedPartialFalls();
    RunSnoc(d, Start(d), [Outcome(1, false)], Outcome(0, false));
    assert [Outcome(1, false)] + [Outcome(0, false)] == [Outcome(1, false), Outcome(0, false)];
    assert Rank(Run(d, Start(d), [Outcome(1, false)]).st) > Rank(After(d, Run(d, Start(d), [Outcome(1, false)]),
      Outcome(0, false)).st);
    NeverFallsExactly(d);
  }

  lemma NegatedLine(d: Desc, l: seq<Latch>)
    requires d == NegatedPartial() && |l| == 2 && Failed !in l
    ensures Policy(d, Signed, l) == Policy(d, Partial, l) == if l[0] == Kept then Signed else Partial
  {
    assert Postfix(Neg(Leaf(0))) == d.partial;
    LineOfTree(d, l, Neg(Leaf(0)));
  }

  /** Fulfilled is for good when the fulfill line has no negation and never holds together
      with the break line. */
  lemma {:induction false} FulfilledStays(d: Desc, x: Pos, evs: seq<Event>)
    requires |x.l| == |d.subOf| && x.st == Fulfilled && Fulfills(d, x.l) && Tear !in evs && Not !in d.fulfill
    requires forall l: seq<Latch> | |l| == |d.subOf| :: !(Breaks(d, l) && Fulfills(d, l))
    ensures var y := Run(d, x, evs); y.st == Fulfilled && Fulfills(d, y.l)
    decreases |evs|
  {
    if evs != [] {
      FulfilledStays(d, x, evs[..|evs| - 1]);
      var y := Run(d, x, evs[..|evs| - 1]);
      var e := evs[|evs| - 1];
      if e.Outcome? && e.p < |y.l| {
        PolicyGrows(d, y.l, Latched(y.l, e.p, e.err));
      }
    }
  }

  /** The structural defaults meet both conditions. */
  lemma DefaultsDisjoint(d: Desc, l: seq<Latch>)
    requires !HasTrees(d) && |l| == |d.subOf|
    ensures !(Breaks(d, l) && Fulfills(d, l)) && NoNegation(d)
  {
    var (good, bad) := (ItemAtoms(d, false), ItemAtoms(d, true));
    LooseSame(d, |d.subOf|);
    if good != [] {
      Opposed(d, l, good[0], bad[0]);
    }
  }

  lemma Opposed(d: Desc, l: seq<Latch>, a: Atom, b: Atom)
    requires |l| == |d.subOf| && a.sub == b.sub && a.pledge == b.pledge && !a.wantFailed && b.wantFailed
    ensures !(AtomTrue(d, l, a) && AtomTrue(d, l, b))
  {
  }

  lemma {:induction false} LooseSame(d: Desc, n: nat)
    requires n <= |d.subOf|
    ensures var (good, bad) := (LooseAtoms(d, n, false), LooseAtoms(d, n, true));
            && |good| == |bad|
            && forall k | 0 <= k < |good| :: good[k].sub == bad[k].sub == -1 && good[k].pledge == bad[k].pledge
                                             && !good[k].wantFailed && bad[k].wantFailed
  {
    if n > 0 {
      LooseSame(d, n - 1);
    }
  }

  // ---- the partial result ----

  /** An item's state: a subcontract's when all its pledges agree. */
  function SubState(d: Desc, l: seq<Latch>, s: nat): Latch
    requires |l| == |d.subOf|
  {
    if SubAll(d, l, s, Kept) then Kept else if SubAll(d, l, s, Failed) then Failed else Pending
  }

  /** The names of the first n subcontracts in state k; the anonymous ones are no items. */
  function SubNames(d: Desc, l: seq<Latch>, k: Latch, n: nat): seq<string>
    requires |l| == |d.subOf| && n <= |d.subs|
  {
    if n == 0 then []
    else
      SubNames(d, l, k, n - 1)
      + if d.subs[n - 1].Some? && SubState(d, l, n - 1) == k then [d.subs[n - 1].value] else []
  }

  function LooseNames(d: Desc, l: seq<Latch>, k: Latch, n: nat): seq<string>
    requires d.Valid() && |l| == |d.subOf| && n <= |l|
  {
    if n == 0 then []
    else LooseNames(d, l, k, n - 1) + if Loose(d, n - 1) && l[n - 1] == k then [d.pledges[n - 1]] else []
  }

  /** The items in state k: subcontracts first, then loose pledges, in descriptor order. */
  function ItemsIn(d: Desc, l: seq<Latch>, k: Latch): seq<string>
    requires d.Valid() && |l| == |d.subOf|
  {
    SubNames(d, l, k, |d.subs|) + LooseNames(d, l, k, |l|)
  }

  /** What the latches of subcontract s say of it: kept (failed) when it has a pledge and all
      its pledges are, pending otherwise. */
  predicate SubSays(d: Desc, l: seq<Latch>, s: nat, k: Latch)
    requires |l| == |d.subOf|
  {
    var same := forall i, j | 0 <= i < |l| && 0 <= j < |l| && d.subOf[i] == s && d.subOf[j] == s :: l[i] == l[j];
    match k
    case Pending => !((s in d.subOf) && same && forall i | 0 <= i < |l| && d.subOf[i] == s :: l[i] != Pending)
    case _ => (s in d.subOf) && same && forall i | 0 <= i < |l| && d.subOf[i] == s :: l[i] == k
  }

  lemma SubStateSays(d: Desc, l: seq<Latch>, s: nat, k: Latch)
    requires |l| == |d.subOf| && s < |d.subs|
    ensures SubState(d, l, s) == k <==> SubSays(d, l, s, k)
  {
    forall i | 0 <= i < |l| ensures InSub(d, s, i) <==> d.subOf[i] == s {
    }
    if s in d.subOf {
      var q :| 0 <= q < |d.subOf| && d.subOf[q] == s;
      assert InSub(d, s, q);
    }
  }

  /** A list holds the names of exactly the items in its state: named subcontracts as their
      latches say, and loose pledges by their own. */
  lemma ItemsAre(d: Desc, l: seq<Latch>, k: Latch, name: string)
    requires d.Valid() && |l| == |d.subOf|
    ensures name in ItemsIn(d, l, k) <==>
            || (exists s | 0 <= s < |d.subs| :: d.subs[s] == Some(name) && SubSays(d, l, s, k))
            || exists i | 0 <= i < |l| :: Loose(d, i) && l[i] == k && d.pledges[i] == name
  {
    hide SubSays, SubState;
    SubNamesAre(d, l, k, |d.subs|, name);
    LooseNamesAre(d, l, k, |l|, name);
  }

  lemma {:induction false} SubNamesAre(d: Desc, l: seq<Latch>, k: Latch, n: nat, name: string)
    requires |l| == |d.subOf| && n <= |d.subs|
    ensures name in SubNames(d, l, k, n) <==>
            exists s | 0 <= s < n :: d.subs[s] == Some(name) && SubSays(d, l, s, k)
  {
    hide SubSays, SubState;
    if n > 0 {
      SubNamesAre(d, l, k, n - 1, name);
      SubStateSays(d, l, n - 1, k);
    }
  }

  lemma {:induction false} LooseNamesAre(d: Desc, l: seq<Latch>, k: Latch, n: nat, name: string)
    requires d.Valid() && |l| == |d.subOf| && n <= |l|
    ensures name in LooseNames(d, l, k, n) <==>
            exists i | 0 <= i < n :: Loose(d, i) && l[i] == k && d.pledges[i] == name
  {
    if n > 0 {
      LooseNamesAre(d, l, k, n - 1, name);
    }
  }

  method PartialScan(d: Desc, l: seq<Latch>, k: Latch, want: nat) returns (n: nat, name: Option<string>)
    requires d.Valid() && |l| == |d.subOf|
    ensures n == |ItemsIn(d, l, k)|
    ensures name == if want < n then Some(ItemsIn(d, l, k)[want]) else None
  {
    n, name := 0, None;
    for s := 0 to |d.subs|
      invariant n == |SubNames(d, l, k, s)|
      invariant name == if want < n then Some(SubNames(d, l, k, s)[want]) else None
    {
      if d.subs[s].None? {
        continue;
      }
      var kept := SubAllLoop(d, l, s, Kept);
      var failed := SubAllLoop(d, l, s, Failed);
      if (if kept then Kept else if failed then Failed else Pending) != k {
        continue;
      }
      if n == want {
        name := d.subs[s];
      }
      n := n + 1;
    }
    ghost var subs := SubNames(d, l, k, |d.subs|);
    for i := 0 to |l|
      invariant n == |subs + LooseNames(d, l, k, i)|
      invariant name == if want < n then Some((subs + LooseNames(d, l, k, i))[want]) else None
    {
      if !Loose(d, i) || l[i] != k {
        continue;
      }
      if n == want {
        name := Some(d.pledges[i]);
      }
      n := n + 1;
    }
  }

  function NamedSubs(d: Desc, n: nat): nat
    requires n <= |d.subs|
  {
    if n == 0 then 0 else NamedSubs(d, n - 1) + (if d.subs[n - 1].Some? then 1 else 0)
  }

  function LooseCount(d: Desc, n: nat): nat
    requires n <= |d.subOf|
  {
    if n == 0 then 0 else LooseCount(d, n - 1) + (if Loose(d, n - 1) then 1 else 0)
  }

  /** Every item is in exactly one of the three lists. */
  lemma PartialCountsAll(d: Desc, l: seq<Latch>)
    requires d.Valid() && |l| == |d.subOf|
    ensures |ItemsIn(d, l, Kept)| + |ItemsIn(d, l, Failed)| + |ItemsIn(d, l, Pending)|
            == NamedSubs(d, |d.subs|) + LooseCount(d, |l|)
  {
    SubsCounted(d, l, |d.subs|);
    LooseCounted(d, l, |l|);
  }

  lemma {:induction false} SubsCounted(d: Desc, l: seq<Latch>, n: nat)
    requires |l| == |d.subOf| && n <= |d.subs|
    ensures |SubNames(d, l, Kept, n)| + |SubNames(d, l, Failed, n)| + |SubNames(d, l, Pending, n)| == NamedSubs(d, n)
  {
    if n > 0 {
      SubsCounted(d, l, n - 1);
    }
  }

  lemma {:induction false} LooseCounted(d: Desc, l: seq<Latch>, n: nat)
    requires d.Valid() && |l| == |d.subOf| && n <= |l|
    ensures |LooseNames(d, l, Kept, n)| + |LooseNames(d, l, Failed, n)| + |LooseNames(d, l, Pending, n)|
            == LooseCount(d, n)
  {
    if n > 0 {
      LooseCounted(d, l, n - 1);
    }
  }
}
