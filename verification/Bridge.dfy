/** The session bridge: several replicas of one server share a park store, a session lives
    as long as its stream, and deleting its row is the claim on a parked one. */
module Bridge {
  import opened Basics

  type Rid = nat
  type Token = nat

  /** One entry of a server's table; `payload` stands for everything a row records. `sid`
      numbers the session for the history. */
  datatype Session = Session(sid: nat, token: Token, payload: int, broken: bool)

  /** A session popped from the table: `tried` once end_session has tried to park it, or
      shutdown has decided not to. */
  datatype Ending = Ending(s: Session, tried: bool)

  /** Who holds a server's resume lock, and how far it has come. */
  datatype Resumer = Free | Reading(token: Token, copy: int, gen: nat) | Claimed(token: Token, copy: int, gen: nat)

  datatype Replica = Replica(live: map<nat, Session>, nextId: nat, ending: map<nat, Ending>, resumer: Resumer)

  /** A park row; `gen` counts the parks of its token up to the one that wrote it. */
  datatype Cell = Cell(payload: int, gen: nat)

  /** How often a session was parked or tried, and broken; whether shutdown drained it. */
  datatype Fate = Fate(tries: nat, breaks: nat, drained: bool)

  datatype World = World(
    reps: map<Rid, Replica>, rows: map<Token, Cell>,
    tokens: set<Token>, parks: map<Token, nat>, last: map<Token, int>, fates: seq<Fate>)

  const FRESH := Replica(map[], 1, map[], Free)

  function Rep(w: World, r: Rid): Replica {
    if r in w.reps then w.reps[r] else FRESH
  }

  function With(w: World, r: Rid, p: Replica): World {
    w.(reps := w.reps[r := p])
  }

  function Parks(w: World, token: Token): nat {
    if token in w.parks then w.parks[token] else 0
  }

  datatype Step =
    | Open(r: Rid, token: Token, payload: int)
    | Work(r: Rid, id: nat, payload: int)
    | BreakCall(r: Rid, id: nat)
    | Pop(r: Rid, id: nat)
    | Park(r: Rid, id: nat, ok: bool)
    | Finish(r: Rid, id: nat)
    | Read(r: Rid, token: Token)
    | Delete(r: Rid)
    | Enter(r: Rid)
    | Crash(r: Rid)
    | Drain(r: Rid)

  /** Session: sign under a fresh token and enter the table. */
  function DoOpen(w: World, r: Rid, token: Token, payload: int): Option<World> {
    if token in w.tokens then None
    else
      var p := Rep(w, r);
      var s := Session(|w.fates|, token, payload, false);
      Some(With(w, r, p.(live := p.live[p.nextId := s], nextId := p.nextId + 1))
           .(tokens := w.tokens + {token}, fates := w.fates + [Fate(0, 0, false)]))
  }

  /** A pledge call, or one admitted before its session was popped. */
  function DoWork(w: World, r: Rid, id: nat, payload: int): Option<World> {
    var p := Rep(w, r);
    if id in p.live && !p.live[id].broken then
      Some(With(w, r, p.(live := p.live[id := p.live[id].(payload := payload)])))
    else if id in p.ending && !p.ending[id].tried && !p.ending[id].s.broken then
      Some(With(w, r, p.(ending := p.ending[id := p.ending[id].(s := p.ending[id].s.(payload := payload))])))
    else None
  }

  /** Break, or one admitted before its session was popped: the entry stands, broken, until
      its stream ends. */
  function DoBreakCall(w: World, r: Rid, id: nat): Option<World> {
    var p := Rep(w, r);
    if id in p.live then Some(With(w, r, p.(live := p.live[id := p.live[id].(broken := true)])))
    else if id in p.ending && !p.ending[id].tried then
      Some(With(w, r, p.(ending := p.ending[id := p.ending[id].(s := p.ending[id].s.(broken := true))])))
    else None
  }

  /** end_session's pop: only the caller that finds the row goes on. */
  function DoPop(w: World, r: Rid, id: nat): Option<World> {
    var p := Rep(w, r);
    if id !in p.live then None
    else Some(With(w, r, p.(live := p.live - {id}, ending := p.ending[id := Ending(p.live[id], false)])))
  }

  function Tried(w: World, sid: nat): World {
    if sid < |w.fates| then w.(fates := w.fates[sid := w.fates[sid].(tries := w.fates[sid].tries + 1)]) else w
  }

  /** end_session's park: refused after an explicit break, or when the store refuses. */
  function DoPark(w: World, r: Rid, id: nat, ok: bool): Option<World> {
    var p := Rep(w, r);
    if id !in p.ending || p.ending[id].tried then None
    else
      var s := p.ending[id].s;
      var w' := Tried(With(w, r, p.(ending := p.ending[id := Ending(s, true)])), s.sid);
      if s.broken || !ok then Some(w')
      else
        var gen := Parks(w, s.token) + 1;
        Some(w'.(rows := w.rows[s.token := Cell(s.payload, gen)],
                 parks := w.parks[s.token := gen], last := w.last[s.token := s.payload]))
  }

  function Broken(w: World, sid: nat): World {
    if sid < |w.fates| then w.(fates := w.fates[sid := w.fates[sid].(breaks := w.fates[sid].breaks + 1)]) else w
  }

  /** end_session's break. */
  function DoFinish(w: World, r: Rid, id: nat): Option<World> {
    var p := Rep(w, r);
    if id !in p.ending || !p.ending[id].tried then None
    else
      var sid := p.ending[id].s.sid;
      var w' := With(w, r, p.(ending := p.ending - {id}));
      Some(Broken(w', sid))
  }

  /** Resume, under the server's resume lock: the row is read into an instance. */
  function DoRead(w: World, r: Rid, token: Token): Option<World> {
    var p := Rep(w, r);
    if p.resumer != Free || token !in w.rows then None
    else Some(With(w, r, p.(resumer := Reading(token, w.rows[token].payload, w.rows[token].gen))))
  }

  /** The claim: whoever deletes the row has it; a row already gone ends the attempt. */
  function DoDelete(w: World, r: Rid): Option<World> {
    var p := Rep(w, r);
    if !p.resumer.Reading? then None
    else if p.resumer.token !in w.rows then Some(With(w, r, p.(resumer := Free)))
    else
      Some(With(w, r, p.(resumer := Claimed(p.resumer.token, p.resumer.copy, p.resumer.gen)))
           .(rows := w.rows - {p.resumer.token}))
  }

  /** The claimed instance enters the table under its old token. */
  function DoEnter(w: World, r: Rid): Option<World> {
    var p := Rep(w, r);
    if !p.resumer.Claimed? then None
    else
      var s := Session(|w.fates|, p.resumer.token, p.resumer.copy, false);
      Some(With(w, r, p.(live := p.live[p.nextId := s], nextId := p.nextId + 1, resumer := Free))
           .(fates := w.fates + [Fate(0, 0, false)]))
  }

  /** The process is gone, and comes back empty. */
  function DoCrash(w: World, r: Rid): Option<World> {
    Some(With(w, r, FRESH))
  }

  /** Shutdown: every session still in the table is ended without parking it. */
  function DoDrain(w: World, r: Rid): Option<World> {
    var p := Rep(w, r);
    Some(With(w, r, p.(live := map[], ending := p.ending + (map id | id in p.live :: Ending(p.live[id], true))))
         .(fates := seq(|w.fates|, k requires 0 <= k < |w.fates| =>
                      if exists id | id in p.live :: p.live[id].sid == k then w.fates[k].(drained := true)
                      else w.fates[k])))
  }

  function Next(w: World, step: Step): Option<World> {
    match step
    case Open(r, token, payload) => DoOpen(w, r, token, payload)
    case Work(r, id, payload) => DoWork(w, r, id, payload)
    case BreakCall(r, id) => DoBreakCall(w, r, id)
    case Pop(r, id) => DoPop(w, r, id)
    case Park(r, id, ok) => DoPark(w, r, id, ok)
    case Finish(r, id) => DoFinish(w, r, id)
    case Read(r, token) => DoRead(w, r, token)
    case Delete(r) => DoDelete(w, r)
    case Enter(r) => DoEnter(w, r)
    case Crash(r) => DoCrash(w, r)
    case Drain(r) => DoDrain(w, r)
  }

  const START := World(map[], map[], {}, map[], map[], [])

  function RunOf(w: World, steps: seq<Step>): Option<World>
    decreases |steps|
  {
    if steps == [] then Some(w)
    else
      match Next(w, steps[0])
      case None => None
      case Some(w') => RunOf(w', steps[1..])
  }

  ghost predicate Reachable(w: World) {
    exists steps :: RunOf(START, steps) == Some(w)
  }

  // ---- who has a token ----

  /** The four places a token's one session can be. */
  datatype Holder = LiveAt(r: Rid, id: nat) | EndingAt(r: Rid, id: nat) | ClaimAt(r: Rid) | InStore

  predicate Holds(w: World, h: Holder, token: Token) {
    match h
    case LiveAt(r, id) => id in Rep(w, r).live && Rep(w, r).live[id].token == token
    case EndingAt(r, id) => id in Rep(w, r).ending && !Rep(w, r).ending[id].tried
      && Rep(w, r).ending[id].s.token == token
    case ClaimAt(r) => Rep(w, r).resumer.Claimed? && Rep(w, r).resumer.token == token
    case InStore => token in w.rows
  }

  ghost predicate Exclusive(w: World) {
    && (forall token: Token, g: Holder, h: Holder | Holds(w, g, token) && Holds(w, h, token) :: g == h)
    && (forall token: Token, h: Holder | Holds(w, h, token) :: token in w.tokens)
  }

  /** Ids are issued in order, and an id is live or ending, never both. */
  predicate IdsOk(p: Replica) {
    && (forall id | id in p.live :: id < p.nextId && id !in p.ending)
    && (forall id | id in p.ending :: id < p.nextId)
  }

  /** One token's holder moves, arrives or leaves; nothing else changes hands. */
  ghost predicate Moves(w: World, w': World, token: Token, from: Option<Holder>, to: Option<Holder>) {
    && w.tokens <= w'.tokens && token in w'.tokens
    && (forall t: Token, h: Holder | Holds(w', h, t) ::
          (t == token && to == Some(h)) || (Holds(w, h, t) && !(t == token && from == Some(h))))
    && (to.Some? ==> if from.Some? then Holds(w, from.value, token) else token !in w.tokens)
  }

  lemma MovesKeep(w: World, w': World, token: Token, from: Option<Holder>, to: Option<Holder>)
    requires Exclusive(w) && Moves(w, w', token, from, to)
    ensures Exclusive(w')
  {
  }

  ghost predicate SameHolders(w: World, w': World) {
    w'.tokens == w.tokens && forall t: Token, h: Holder | Holds(w', h, t) :: Holds(w, h, t)
  }

  lemma Known(w: World, h: Holder, token: Token)
    requires Exclusive(w) && Holds(w, h, token)
    ensures token in w.tokens
  {
  }

  lemma FewerKeep(w: World, w': World)
    requires Exclusive(w) && SameHolders(w, w')
    ensures Exclusive(w')
  {
  }

  // ---- step by step ----

  lemma OpenMoves(w: World, r: Rid, token: Token, payload: int)
    requires Exclusive(w) && IdsOk(Rep(w, r)) && DoOpen(w, r, token, payload).Some?
    ensures Moves(w, DoOpen(w, r, token, payload).value, token, None, Some(LiveAt(r, Rep(w, r).nextId)))
  {
    hide Exclusive;
  }

  lemma PopMoves(w: World, r: Rid, id: nat)
    requires Exclusive(w) && IdsOk(Rep(w, r)) && DoPop(w, r, id).Some?
    ensures Moves(w, DoPop(w, r, id).value, Rep(w, r).live[id].token, Some(LiveAt(r, id)), Some(EndingAt(r, id)))
  {
    Known(w, LiveAt(r, id), Rep(w, r).live[id].token);
    hide Exclusive;
  }

  lemma ParkStores(w: World, r: Rid, id: nat)
    requires DoPark(w, r, id, true).Some? && !Rep(w, r).ending[id].s.broken
    requires Rep(w, r).ending[id].s.token in w.tokens
    ensures Moves(w, DoPark(w, r, id, true).value, Rep(w, r).ending[id].s.token, Some(EndingAt(r, id)), Some(InStore))
  {
  }

  lemma ParkLeaves(w: World, r: Rid, id: nat, ok: bool)
    requires DoPark(w, r, id, ok).Some? && (Rep(w, r).ending[id].s.broken || !ok)
    requires Rep(w, r).ending[id].s.token in w.tokens
    ensures Moves(w, DoPark(w, r, id, ok).value, Rep(w, r).ending[id].s.token, Some(EndingAt(r, id)), None)
  {
  }

  lemma ParkMoves(w: World, r: Rid, id: nat, ok: bool)
    requires Exclusive(w) && DoPark(w, r, id, ok).Some?
    ensures var s := Rep(w, r).ending[id].s;
            var to := if s.broken || !ok then None else Some(InStore);
            Moves(w, DoPark(w, r, id, ok).value, s.token, Some(EndingAt(r, id)), to)
  {
    hide Moves, Exclusive;
    Known(w, EndingAt(r, id), Rep(w, r).ending[id].s.token);
    if Rep(w, r).ending[id].s.broken || !ok {
      ParkLeaves(w, r, id, ok);
    } else {
      ParkStores(w, r, id);
    }
  }

  lemma DeleteMoves(w: World, r: Rid)
    requires Exclusive(w) && DoDelete(w, r).Some? && Rep(w, r).resumer.token in w.rows
    ensures Moves(w, DoDelete(w, r).value, Rep(w, r).resumer.token, Some(InStore), Some(ClaimAt(r)))
  {
    Known(w, InStore, Rep(w, r).resumer.token);
    hide Exclusive;
  }

  lemma EnterMoves(w: World, r: Rid)
    requires Exclusive(w) && IdsOk(Rep(w, r)) && DoEnter(w, r).Some?
    ensures Moves(w, DoEnter(w, r).value, Rep(w, r).resumer.token, Some(ClaimAt(r)), Some(LiveAt(r, Rep(w, r).nextId)))
  {
    Known(w, ClaimAt(r), Rep(w, r).resumer.token);
    hide Exclusive;
  }

  lemma WorkSame(w: World, r: Rid, id: nat, payload: int)
    requires DoWork(w, r, id, payload).Some?
    ensures SameHolders(w, DoWork(w, r, id, payload).value)
  {
  }

  lemma BreakCallSame(w: World, r: Rid, id: nat)
    requires DoBreakCall(w, r, id).Some?
    ensures SameHolders(w, DoBreakCall(w, r, id).value)
  {
  }

  lemma FinishSame(w: World, r: Rid, id: nat)
    requires DoFinish(w, r, id).Some?
    ensures SameHolders(w, DoFinish(w, r, id).value)
  {
  }

  lemma ReadSame(w: World, r: Rid, token: Token)
    requires DoRead(w, r, token).Some?
    ensures SameHolders(w, DoRead(w, r, token).value)
  {
  }

  lemma LateDeleteSame(w: World, r: Rid)
    requires DoDelete(w, r).Some? && Rep(w, r).resumer.token !in w.rows
    ensures SameHolders(w, DoDelete(w, r).value)
  {
  }

  lemma CrashSame(w: World, r: Rid)
    ensures SameHolders(w, DoCrash(w, r).value)
  {
  }

  lemma DrainSame(w: World, r: Rid)
    ensures SameHolders(w, DoDrain(w, r).value)
  {
  }

  /** However sessions open, end, park, resume and crash, a token has one holder. */
  lemma ExclusiveStep(w: World, step: Step)
    requires Exclusive(w) && IdsOk(Rep(w, step.r)) && Next(w, step).Some?
    ensures Exclusive(Next(w, step).value)
  {
    hide Exclusive, Moves, SameHolders, IdsOk, DoOpen, DoPop, DoPark, DoDelete, DoEnter, DoWork, DoBreakCall,
      DoFinish, DoRead, DoCrash, DoDrain;
    var w' := Next(w, step).value;
    var p := Rep(w, step.r);
    match step
    case Open(r, token, payload) =>
      OpenMoves(w, r, token, payload);
      MovesKeep(w, w', token, None, Some(LiveAt(r, p.nextId)));
    case Pop(r, id) =>
      EndHas(w, step);
      PopMoves(w, r, id);
      MovesKeep(w, w', p.live[id].token, Some(LiveAt(r, id)), Some(EndingAt(r, id)));
    case Park(r, id, ok) =>
      EndHas(w, step);
      ParkMoves(w, r, id, ok);
      var s := p.ending[id].s;
      MovesKeep(w, w', s.token, Some(EndingAt(r, id)), if s.broken || !ok then None else Some(InStore));
    case Enter(r) =>
      EndHas(w, step);
      EnterMoves(w, r);
      MovesKeep(w, w', p.resumer.token, Some(ClaimAt(r)), Some(LiveAt(r, p.nextId)));
    case Delete(r) =>
      EndHas(w, step);
      if p.resumer.token in w.rows {
        DeleteMoves(w, r);
        MovesKeep(w, w', p.resumer.token, Some(InStore), Some(ClaimAt(r)));
      } else {
        LateDeleteSame(w, r);
        FewerKeep(w, w');
      }
    case Work(r, id, payload) =>
      WorkSame(w, r, id, payload);
      FewerKeep(w, w');
    case BreakCall(r, id) =>
      BreakCallSame(w, r, id);
      FewerKeep(w, w');
    case Finish(r, id) =>
      FinishSame(w, r, id);
      FewerKeep(w, w');
    case Read(r, token) =>
      ReadSame(w, r, token);
      FewerKeep(w, w');
    case Crash(r) =>
      CrashSame(w, r);
      FewerKeep(w, w');
    case Drain(r) =>
      DrainSame(w, r);
      FewerKeep(w, w');
  }

  lemma EndHas(w: World, step: Step)
    requires Next(w, step).Some?
    ensures step.Pop? ==> step.id in Rep(w, step.r).live
    ensures step.Park? ==> step.id in Rep(w, step.r).ending
    ensures step.Enter? ==> Rep(w, step.r).resumer.Claimed?
    ensures step.Delete? ==> Rep(w, step.r).resumer.Reading?
  {
  }
}
