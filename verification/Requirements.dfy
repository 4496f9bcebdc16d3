/** The requirements policy: latches, the postfix evaluator of a policy line, the
    structural defaults and the priority the state follows. */
module Requirements {
  import opened Basics

  datatype Latch = Pending | Kept | Failed

  datatype Life = Unsigned | Signed | Fulfilled | Partial | Broken

  /** One atom: a subcontract's pledges, or else one pledge, all of one latch. */
  datatype Atom = Atom(sub: int, pledge: int, wantFailed: bool)

  datatype Op = Push(atom: nat) | Not | And | Or | Junk

  /** What the policy reads of a contract descriptor: each pledge's subcontract index, the
      subcontracts' names (None for an anonymous one), the atoms and the three lines. */
  datatype Desc = Desc(
    pledges: seq<string>, subOf: seq<int>, subs: seq<Option<string>>,
    hasReqs: bool, atoms: seq<Atom>, fulfill: seq<Op>, partial: seq<Op>, brk: seq<Op>)
  {
    predicate Valid() {
      |pledges| == |subOf|
    }
  }

  const STACK_MAX := 128

  predicate Loose(d: Desc, i: nat)
    requires i < |d.subOf|
  {
    d.subOf[i] < 0 || d.subOf[i] >= |d.subs|
  }

  // ---- atoms ----

  predicate InSub(d: Desc, s: int, i: int) {
    0 <= i < |d.subOf| && d.subOf[i] == s && 0 <= s < |d.subs|
  }

  /** Every pledge of the subcontract has this latch, and there is one. */
  predicate SubAll(d: Desc, l: seq<Latch>, s: int, want: Latch)
    requires |l| == |d.subOf|
  {
    && (exists i | 0 <= i < |l| :: InSub(d, s, i))
    && (forall i | 0 <= i < |l| && InSub(d, s, i) :: l[i] == want)
  }

  method SubAllLoop(d: Desc, l: seq<Latch>, s: int, want: Latch) returns (all: bool)
    requires |l| == |d.subOf|
    ensures all == SubAll(d, l, s, want)
  {
    var seen := false;
    for i := 0 to |l|
      invariant seen <==> exists j | 0 <= j < i :: InSub(d, s, j)
      invariant forall j | 0 <= j < i && InSub(d, s, j) :: l[j] == want
    {
      if d.subOf[i] == s && 0 <= d.subOf[i] < |d.subs| {
        assert InSub(d, s, i);
        seen := true;
        if l[i] != want {
          return false;
        }
      }
    }
    return seen;
  }

  function Want(a: Atom): Latch {
    if a.wantFailed then Failed else Kept
  }

  predicate AtomTrue(d: Desc, l: seq<Latch>, a: Atom)
    requires |l| == |d.subOf|
  {
    if a.sub >= 0 then SubAll(d, l, a.sub, Want(a))
    else 0 <= a.pledge < |l| && l[a.pledge] == Want(a)
  }

  method AtomTruth(d: Desc, l: seq<Latch>, a: Atom) returns (r: bool)
    requires |l| == |d.subOf|
    ensures r == AtomTrue(d, l, a)
  {
    if a.sub >= 0 {
      r := SubAllLoop(d, l, a.sub, Want(a));
    } else {
      r := 0 <= a.pledge < |l| && l[a.pledge] == Want(a);
    }
  }

  // ---- lines ----

  /** One op on the stack; None for a malformed program. */
  function Step(d: Desc, l: seq<Latch>, st: seq<bool>, op: Op): (r: Option<seq<bool>>)
    requires |l| == |d.subOf| && |st| <= STACK_MAX
    ensures r.Some? ==> |r.value| <= STACK_MAX
  {
    var n := |st|;
    match op
    case Push(a) => if n >= STACK_MAX || a >= |d.atoms| then None else Some(st + [AtomTrue(d, l, d.atoms[a])])
    case Not => if n < 1 then None else Some(st[..n - 1] + [!st[n - 1]])
    case And => if n < 2 then None else Some(st[..n - 2] + [st[n - 2] && st[n - 1]])
    case Or => if n < 2 then None else Some(st[..n - 2] + [st[n - 2] || st[n - 1]])
    case Junk => None
  }

  function Steps(d: Desc, l: seq<Latch>, st: seq<bool>, ops: seq<Op>): (r: Option<seq<bool>>)
    requires |l| == |d.subOf| && |st| <= STACK_MAX
    decreases |ops|
  {
    if ops == [] then Some(st)
    else
      match Step(d, l, st, ops[0])
      case None => None
      case Some(st') => Steps(d, l, st', ops[1..])
  }

  lemma StepsFrom(d: Desc, l: seq<Latch>, st: seq<bool>, ops: seq<Op>, i: nat)
    requires |l| == |d.subOf| && |st| <= STACK_MAX && i <= |ops|
    ensures Steps(d, l, st, ops[i..])
            == if i == |ops| then Some(st)
               else if Step(d, l, st, ops[i]).None? then None
               else Steps(d, l, Step(d, l, st, ops[i]).value, ops[i + 1..])
  {
    assert i < |ops| ==> ops[i..][1..] == ops[i + 1..];
  }

  /** A line's value: what its program leaves alone on the stack, else false. */
  predicate Line(d: Desc, l: seq<Latch>, ops: seq<Op>)
    requires |l| == |d.subOf|
  {
    ops != [] && var r := Steps(d, l, [], ops); r.Some? && |r.value| == 1 && r.value[0]
  }

  /** One op in place; false for one that would leave the stack's bounds. */
  method Exec(d: Desc, l: seq<Latch>, st: array<bool>, sp: nat, op: Op) returns (ok: bool, top: nat)
    requires |l| == |d.subOf| && st.Length == STACK_MAX && sp <= STACK_MAX
    modifies st
    ensures top <= STACK_MAX
    ensures Step(d, l, old(st[..sp]), op) == if ok then Some(st[..top]) else None
  {
    ghost var was := st[..sp];
    ok, top := false, sp;
    match op {
      case Push(a) =>
        if sp < STACK_MAX && a < |d.atoms| {
          st[sp] := AtomTruth(d, l, d.atoms[a]);
          ok, top := true, sp + 1;
          assert st[..top] == was + [st[sp]];
        }
      case Not =>
        if sp >= 1 {
          st[sp - 1] := !st[sp - 1];
          ok := true;
          assert st[..top] == was[..sp - 1] + [st[sp - 1]];
        }
      case And =>
        if sp >= 2 {
          st[sp - 2] := st[sp - 2] && st[sp - 1];
          ok, top := true, sp - 1;
          assert st[..top] == was[..sp - 2] + [st[sp - 2]];
        }
      case Or =>
        if sp >= 2 {
          st[sp - 2] := st[sp - 2] || st[sp - 1];
          ok, top := true, sp - 1;
          assert st[..top] == was[..sp - 2] + [st[sp - 2]];
        }
      case Junk =>
    }
  }

  /** eval_line over its fixed stack: no program reaches outside it. */
  method EvalLine(d: Desc, l: seq<Latch>, ops: seq<Op>) returns (r: bool)
    requires |l| == |d.subOf|
    ensures r == Line(d, l, ops)
  {
    hide Steps, Step;
    if |ops| == 0 {
      return false;
    }
    var st := new bool[STACK_MAX];
    var sp := 0;
    assert ops[0..] == ops && st[..sp] == [];
    for i := 0 to |ops|
      invariant 0 <= sp <= STACK_MAX
      invariant Steps(d, l, [], ops) == Steps(d, l, st[..sp], ops[i..])
    {
      StepsFrom(d, l, st[..sp], ops, i);
      var ok, top := Exec(d, l, st, sp, ops[i]);
      if !ok {
        return false;
      }
      sp := top;
    }
    StepsFrom(d, l, st[..sp], ops, |ops|);
    return if sp == 1 then st[0] else false;
  }

  // ---- what a line means ----

  datatype Tree = Leaf(atom: nat) | Neg(t: Tree) | Conj(l: Tree, r: Tree) | Disj(l: Tree, r: Tree)

  function Postfix(t: Tree): (ops: seq<Op>)
    ensures |ops| > 0
  {
    match t
    case Leaf(a) => [Push(a)]
    case Neg(u) => Postfix(u) + [Not]
    case Conj(x, y) => Postfix(x) + Postfix(y) + [And]
    case Disj(x, y) => Postfix(x) + Postfix(y) + [Or]
  }

  /** How deep the stack gets. */
  function Need(t: Tree): (n: nat)
    ensures n > 0
  {
    match t
    case Leaf(_) => 1
    case Neg(u) => Need(u)
    case Conj(x, y) => var (m, n) := (Need(x), Need(y) + 1); if m > n then m else n
    case Disj(x, y) => var (m, n) := (Need(x), Need(y) + 1); if m > n then m else n
  }

  predicate AtomsKnown(d: Desc, t: Tree) {
    match t
    case Leaf(a) => a < |d.atoms|
    case Neg(u) => AtomsKnown(d, u)
    case Conj(x, y) => AtomsKnown(d, x) && AtomsKnown(d, y)
    case Disj(x, y) => AtomsKnown(d, x) && AtomsKnown(d, y)
  }

  predicate Truth(d: Desc, l: seq<Latch>, t: Tree)
    requires |l| == |d.subOf|
  {
    match t
    case Leaf(a) => a < |d.atoms| && AtomTrue(d, l, d.atoms[a])
    case Neg(u) => !Truth(d, l, u)
    case Conj(x, y) => Truth(d, l, x) && Truth(d, l, y)
    case Disj(x, y) => Truth(d, l, x) || Truth(d, l, y)
  }

  lemma {:induction false} StepsAppend(d: Desc, l: seq<Latch>, st: seq<bool>, a: seq<Op>, b: seq<Op>)
    requires |l| == |d.subOf| && |st| <= STACK_MAX
    ensures Steps(d, l, st, a).Some? ==> |Steps(d, l, st, a).value| <= STACK_MAX
    ensures Steps(d, l, st, a + b)
            == if Steps(d, l, st, a).None? then None else Steps(d, l, Steps(d, l, st, a).value, b)
    decreases |a|
  {
    if a == [] {
      assert a + b == b;
    } else {
      assert (a + b)[1..] == a[1..] + b;
      match Step(d, l, st, a[0])
      case None =>
      case Some(st') => StepsAppend(d, l, st', a[1..], b);
    }
  }

  /** The tree's program pushes the tree's truth if the stack has room for it, and is
      refused otherwise. */
  predicate Pushes(d: Desc, l: seq<Latch>, st: seq<bool>, t: Tree)
    requires |l| == |d.subOf| && |st| <= STACK_MAX
  {
    Steps(d, l, st, Postfix(t))
    == if AtomsKnown(d, t) && |st| + Need(t) <= STACK_MAX then Some(st + [Truth(d, l, t)]) else None
  }

  lemma {:induction false} StepsOfTree(d: Desc, l: seq<Latch>, st: seq<bool>, t: Tree)
    requires |l| == |d.subOf| && |st| <= STACK_MAX
    ensures Pushes(d, l, st, t)
    decreases t
  {
    match t
    case Leaf(a) =>
      assert Postfix(t)[1..] == [];
    case Neg(u) =>
      StepsOfTree(d, l, st, u);
      StepsAppend(d, l, st, Postfix(u), [Not]);
    case Conj(x, y) =>
      StepsOfTree(d, l, st, x);
      if |st| < STACK_MAX {
        StepsOfTree(d, l, st + [Truth(d, l, x)], y);
      }
      TwoOperands(d, l, st, x, y, And);
    case Disj(x, y) =>
      StepsOfTree(d, l, st, x);
      if |st| < STACK_MAX {
        StepsOfTree(d, l, st + [Truth(d, l, x)], y);
      }
      TwoOperands(d, l, st, x, y, Or);
  }

  lemma TopTwo(st: seq<bool>, a: bool, b: bool)
    ensures var r := st + [a] + [b]; var n := |r|; r[..n - 2] == st && r[n - 2] == a && r[n - 1] == b
  {
  }

  lemma TwoOperands(d: Desc, l: seq<Latch>, st: seq<bool>, x: Tree, y: Tree, op: Op)
    requires |l| == |d.subOf| && |st| <= STACK_MAX && (op == And || op == Or)
    requires Pushes(d, l, st, x) && (|st| < STACK_MAX ==> Pushes(d, l, st + [Truth(d, l, x)], y))
    ensures Pushes(d, l, st, if op == And then Conj(x, y) else Disj(x, y))
  {
    assert Postfix(x) + Postfix(y) + [op] == Postfix(x) + (Postfix(y) + [op]);
    StepsAppend(d, l, st, Postfix(x), Postfix(y) + [op]);
    if |st| < STACK_MAX {
      StepsAppend(d, l, st + [Truth(d, l, x)], Postfix(y), [op]);
      TopTwo(st, Truth(d, l, x), Truth(d, l, y));
    }
  }

  /** A line in postfix form holds exactly when its tree is true and fits the stack. */
  lemma LineOfTree(d: Desc, l: seq<Latch>, t: Tree)
    requires |l| == |d.subOf|
    ensures Line(d, l, Postfix(t)) <==> AtomsKnown(d, t) && Need(t) <= 128 && Truth(d, l, t)
  {
    StepsOfTree(d, l, [], t);
  }

  // ---- items and the structural defaults ----

  /** What a line's items are when the source wrote none: every subcontract, then every
      loose pledge. */
  function ItemAtoms(d: Desc, wantFailed: bool): seq<Atom> {
    SubAtoms(|d.subs|, wantFailed) + LooseAtoms(d, |d.subOf|, wantFailed)
  }

  function SubAtoms(n: nat, wantFailed: bool): (r: seq<Atom>)
    ensures |r| == n && forall s | 0 <= s < n :: r[s] == Atom(s, -1, wantFailed)
  {
    if n == 0 then [] else SubAtoms(n - 1, wantFailed) + [Atom(n - 1, -1, wantFailed)]
  }

  function LooseAtoms(d: Desc, n: nat, wantFailed: bool): seq<Atom>
    requires n <= |d.subOf|
  {
    if n == 0 then []
    else LooseAtoms(d, n - 1, wantFailed) + if Loose(d, n - 1) then [Atom(-1, n - 1, wantFailed)] else []
  }

  predicate AllTrue(d: Desc, l: seq<Latch>, atoms: seq<Atom>)
    requires |l| == |d.subOf|
  {
    forall k | 0 <= k < |atoms| :: AtomTrue(d, l, atoms[k])
  }

  /** Every item is in this state, and there is an item. */
  predicate DefaultLine(d: Desc, l: seq<Latch>, wantFailed: bool)
    requires |l| == |d.subOf|
  {
    ItemAtoms(d, wantFailed) != [] && AllTrue(d, l, ItemAtoms(d, wantFailed))
  }

  method DefaultLineLoop(d: Desc, l: seq<Latch>, wantFailed: bool) returns (r: bool)
    requires |l| == |d.subOf|
    ensures r == DefaultLine(d, l, wantFailed)
  {
    var seen := false;
    var want := if wantFailed then Failed else Kept;
    ghost var items := ItemAtoms(d, wantFailed);
    for s := 0 to |d.subs|
      invariant seen <==> s > 0
      invariant forall k | 0 <= k < s :: AtomTrue(d, l, items[k])
    {
      seen := true;
      var all := SubAllLoop(d, l, s, want);
      if !all {
        assert !AtomTrue(d, l, items[s]);
        return false;
      }
    }
    for i := 0 to |l|
      invariant seen <==> |d.subs| + |LooseAtoms(d, i, wantFailed)| > 0
      invariant AllTrue(d, l, LooseAtoms(d, i, wantFailed))
    {
      if Loose(d, i) {
        seen := true;
        LooseGrows(d, i, |l|, wantFailed);
        if l[i] != want {
          assert !AtomTrue(d, l, LooseAtoms(d, i + 1, wantFailed)[|LooseAtoms(d, i, wantFailed)|]);
          assert !AtomTrue(d, l, items[|d.subs| + |LooseAtoms(d, i, wantFailed)|]);
          return false;
        }
      }
    }
    return seen;
  }

  lemma {:induction false} LooseGrows(d: Desc, i: nat, n: nat, wantFailed: bool)
    requires i < n <= |d.subOf|
    ensures LooseAtoms(d, i + 1, wantFailed) <= LooseAtoms(d, n, wantFailed)
  {
    if i + 1 < n {
      LooseGrows(d, i, n - 1, wantFailed);
    }
  }

  predicate DefaultPartial(d: Desc, l: seq<Latch>)
    requires |l| == |d.subOf|
  {
    exists s | 0 <= s < |d.subs| :: SubAll(d, l, s, Kept)
  }

  method DefaultPartialLoop(d: Desc, l: seq<Latch>) returns (r: bool)
    requires |l| == |d.subOf|
    ensures r == DefaultPartial(d, l)
  {
    for s := 0 to |d.subs|
      invariant forall k | 0 <= k < s :: !SubAll(d, l, k, Kept)
    {
      var all := SubAllLoop(d, l, s, Kept);
      if all {
        return true;
      }
    }
    return false;
  }

  /** The tree a compiled module carries for the same default: the conjunction of the
      first n atoms. */
  function AndAll(n: nat): Tree
    requires n > 0
  {
    if n == 1 then Leaf(0) else Conj(AndAll(n - 1), Leaf(n - 1))
  }

  lemma {:induction false} AndAllTruth(d: Desc, l: seq<Latch>, n: nat)
    requires |l| == |d.subOf| && 0 < n <= |d.atoms|
    ensures AtomsKnown(d, AndAll(n)) && Need(AndAll(n)) <= 2
    ensures Truth(d, l, AndAll(n)) <==> AllTrue(d, l, d.atoms[..n])
  {
    if n > 1 {
      AndAllTruth(d, l, n - 1);
      assert d.atoms[..n] == d.atoms[..n - 1] + [d.atoms[n - 1]];
    }
  }

  /** The structural default for a descriptor without requirements data and the line a
      compiler would synthesize for it always agree. */
  lemma DefaultIsLine(d: Desc, l: seq<Latch>, wantFailed: bool)
    requires |l| == |d.subOf| && ItemAtoms(d, wantFailed) != []
    ensures var d' := d.(atoms := ItemAtoms(d, wantFailed));
            DefaultLine(d, l, wantFailed) <==> Line(d', l, Postfix(AndAll(|d'.atoms|)))
  {
    var d' := d.(atoms := ItemAtoms(d, wantFailed));
    var n := |d'.atoms|;
    AndAllTruth(d', l, n);
    LineOfTree(d', l, AndAll(n));
    assert d'.atoms[..n] == d'.atoms;
    forall k | 0 <= k < n ensures AtomTrue(d, l, d'.atoms[k]) <==> AtomTrue(d', l, d'.atoms[k]) {
      SameSubs(d, d', l, d'.atoms[k]);
    }
  }

  lemma SameSubs(d: Desc, d': Desc, l: seq<Latch>, a: Atom)
    requires |l| == |d.subOf| && d'.subOf == d.subOf && d'.subs == d.subs
    ensures AtomTrue(d, l, a) <==> AtomTrue(d', l, a)
  {
    assert forall i :: InSub(d, a.sub, i) <==> InSub(d', a.sub, i);
  }

  // ---- the policy ----

  predicate Armed(l: seq<Latch>) {
    Failed in l
  }

  predicate HasTrees(d: Desc) {
    d.hasReqs || d.atoms != [] || d.fulfill != [] || d.partial != [] || d.brk != []
  }

  predicate Breaks(d: Desc, l: seq<Latch>)
    requires |l| == |d.subOf|
  {
    Armed(l) && if HasTrees(d) then Line(d, l, d.brk) else DefaultLine(d, l, true)
  }

  predicate Fulfills(d: Desc, l: seq<Latch>)
    requires |l| == |d.subOf|
  {
    if HasTrees(d) then Line(d, l, d.fulfill) else DefaultLine(d, l, false)
  }

  predicate Partials(d: Desc, l: seq<Latch>)
    requires |l| == |d.subOf|
  {
    if HasTrees(d) then Line(d, l, d.partial) else DefaultPartial(d, l)
  }

  function Policy(d: Desc, st: Life, l: seq<Latch>): Life
    requires |l| == |d.subOf|
  {
    if st == Broken then Broken
    else if Breaks(d, l) then Broken
    else if Fulfills(d, l) then Fulfilled
    else if Partials(d, l) then Partial
    else Signed
  }

  method EvalPolicy(d: Desc, st: Life, l: seq<Latch>) returns (r: Life)
    requires |l| == |d.subOf|
    ensures r == Policy(d, st, l)
  {
    if st == Broken {
      return Broken;
    }
    var armed := false;
    for i := 0 to |l|
      invariant armed <==> Failed in l[..i]
    {
      assert l[..i + 1] == l[..i] + [l[i]];
      if l[i] == Failed {
        armed := true;
      }
    }
    assert l[..|l|] == l;
    var brk, ful, par;
    if HasTrees(d) {
      brk := EvalLine(d, l, d.brk);
      ful := EvalLine(d, l, d.fulfill);
      par := EvalLine(d, l, d.partial);
    } else {
      brk := DefaultLineLoop(d, l, true);
      ful := DefaultLineLoop(d, l, false);
      par := DefaultPartialLoop(d, l);
    }
    r := if armed && brk then Broken else if ful then Fulfilled else if par then Partial else Signed;
  }

  /** Arming changes nothing about the default break line: it already needs a failure. */
  lemma DefaultBreakIsArmed(d: Desc, l: seq<Latch>)
    requires |l| == |d.subOf| && DefaultLine(d, l, true)
    ensures Armed(l)
  {
    var items := ItemAtoms(d, true);
    assert AtomTrue(d, l, items[0]);
    if |d.subs| > 0 {
      assert items[0] == Atom(0, -1, true);
      var i :| 0 <= i < |l| && InSub(d, 0, i);
      assert l[i] == Failed;
    } else {
      LooseNamed(d, |d.subOf|, true, 0);
    }
  }

  lemma {:induction false} LooseNamed(d: Desc, n: nat, wantFailed: bool, k: nat)
    requires n <= |d.subOf| && k < |LooseAtoms(d, n, wantFailed)|
    ensures var a := LooseAtoms(d, n, wantFailed)[k]; a.sub == -1 && 0 <= a.pledge < n && a.wantFailed == wantFailed
  {
    if k < |LooseAtoms(d, n - 1, wantFailed)| {
      LooseNamed(d, n - 1, wantFailed, k);
    }
  }

  // ---- what the defaults say of the latches ----

  /** Every subcontract has a pledge. */
  predicate NoneEmpty(d: Desc) {
    forall s: int | 0 <= s < |d.subs| :: s in d.subOf
  }

  /** The fulfill and break defaults, on the latches alone: there is a pledge or a
      subcontract, no subcontract is empty, and every pledge is kept, or failed. */
  lemma DefaultMeans(d: Desc, l: seq<Latch>, wantFailed: bool)
    requires |l| == |d.subOf|
    ensures DefaultLine(d, l, wantFailed) <==>
            && l != [] && NoneEmpty(d)
            && forall i | 0 <= i < |l| :: l[i] == if wantFailed then Failed else Kept
  {
    var items := ItemAtoms(d, wantFailed);
    var want := if wantFailed then Failed else Kept;
    if DefaultLine(d, l, wantFailed) {
      forall s | 0 <= s < |d.subs| ensures SubAll(d, l, s, want) {
        assert items[s] == Atom(s, -1, wantFailed) && AtomTrue(d, l, items[s]);
      }
      forall i | 0 <= i < |l| ensures l[i] == want {
        if Loose(d, i) {
          LooseHas(d, |d.subOf|, i, wantFailed);
          assert Atom(-1, i, wantFailed) in items;
          var k :| 0 <= k < |items| && items[k] == Atom(-1, i, wantFailed);
          assert AtomTrue(d, l, items[k]);
        } else {
          assert InSub(d, d.subOf[i], i) && SubAll(d, l, d.subOf[i], want);
        }
      }
      forall s: int | 0 <= s < |d.subs| ensures s in d.subOf {
        assert SubAll(d, l, s, want);
        var i :| 0 <= i < |l| && InSub(d, s, i);
      }
      SomePledge(d, l, wantFailed);
    }
    if l != [] && NoneEmpty(d) && forall i | 0 <= i < |l| :: l[i] == want {
      forall k | 0 <= k < |items| ensures AtomTrue(d, l, items[k]) {
        if k < |d.subs| {
          assert k in d.subOf;
          var i :| 0 <= i < |d.subOf| && d.subOf[i] == k;
          assert InSub(d, k, i);
        } else {
          LooseNamed(d, |d.subOf|, wantFailed, k - |d.subs|);
        }
      }
      if Loose(d, 0) {
        LooseHas(d, |d.subOf|, 0, wantFailed);
      }
    }
  }

  lemma SomePledge(d: Desc, l: seq<Latch>, wantFailed: bool)
    requires |l| == |d.subOf| && DefaultLine(d, l, wantFailed)
    ensures l != []
  {
    var items := ItemAtoms(d, wantFailed);
    assert AtomTrue(d, l, items[0]);
    if |d.subs| > 0 {
      assert items[0] == Atom(0, -1, wantFailed);
    } else {
      LooseNamed(d, |d.subOf|, wantFailed, 0);
    }
  }

  lemma {:induction false} LooseHas(d: Desc, n: nat, i: nat, wantFailed: bool)
    requires i < n <= |d.subOf| && Loose(d, i)
    ensures Atom(-1, i, wantFailed) in LooseAtoms(d, n, wantFailed)
  {
    if i < n - 1 {
      LooseHas(d, n - 1, i, wantFailed);
    }
  }

  /** The partial default: some subcontract has a pledge and all its pledges are kept. */
  lemma PartialMeans(d: Desc, l: seq<Latch>)
    requires |l| == |d.subOf|
    ensures DefaultPartial(d, l) <==> exists s: int | 0 <= s < |d.subs| && s in d.subOf :: KeptThere(d, l, s)
  {
    forall s: int | 0 <= s < |d.subs| ensures SubAll(d, l, s, Kept) <==> s in d.subOf && KeptThere(d, l, s) {
      if s in d.subOf {
        var i :| 0 <= i < |d.subOf| && d.subOf[i] == s;
        assert InSub(d, s, i);
      }
      forall i | 0 <= i < |l| ensures InSub(d, s, i) <==> d.subOf[i] == s {
      }
    }
  }

  predicate KeptThere(d: Desc, l: seq<Latch>, s: int)
    requires |l| == |d.subOf|
  {
    forall i | 0 <= i < |l| && d.subOf[i] == s :: l[i] == Kept
  }
}
