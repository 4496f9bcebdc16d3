/** Transactional episodes: one instance and its store connection, under fulfilments that
    write, nest, fail and commit. The store is a log of writes that survive a crash and,
    inside a transaction, a buffer of writes that do not yet. */
module Episodes {
  import opened Basics
  import opened Values
  import opened Requirements
  import opened PolicyRuns

  datatype Txn = Unopened | Open | Done

  /** A write and the subcontract whose episode was open when it was made. */
  datatype Write = Write(id: int, episode: Option<nat>)

  datatype Conn = Conn(durable: seq<Write>, buffer: Option<seq<Write>>)

  /** BEGIN: refused over an open transaction, or by the backend. */
  function Begin(c: Conn, ok: bool): Option<Conn> {
    if c.buffer.Some? || !ok then None else Some(c.(buffer := Some([])))
  }

  function Put(c: Conn, w: Write): Conn {
    if c.buffer.Some? then c.(buffer := Some(c.buffer.value + [w])) else c.(durable := c.durable + [w])
  }

  /** COMMIT: refused with nothing open, or by the backend, which keeps it open. */
  function Commit(c: Conn, ok: bool): Option<Conn> {
    if c.buffer.None? || !ok then None else Some(Conn(c.durable + c.buffer.value, None))
  }

  function Rollback(c: Conn): Conn {
    c.(buffer := None)
  }

  /** One instance: `written` and `committed` record what its calls wrote, durable or not,
      and which episodes committed. */
  datatype Inst = Inst(
    d: Desc, transactional: seq<bool>, life: Life, latches: seq<Latch>, errs: seq<Value>, txn: seq<Txn>,
    conn: Conn, connected: bool, written: seq<Write>, committed: seq<nat>)

  /** What happens to an instance: a body's write, or one fulfilment as the world answers
      it: what its body does before it returns, calls of its own instance included, what it
      returns, and whether the backend lets a transaction begin and commit. */
  datatype Act =
    | Store(id: int, ok: bool)
    | Call(p: nat, beginOk: bool, acts: seq<Act>, st: Status, out: Value, commitOk: bool)

  predicate Shaped(x: Inst) {
    && |x.latches| == |x.d.subOf| == |x.errs|
    && |x.txn| == |x.d.subs| == |x.transactional|
  }

  /** The transactional subcontract a pledge belongs to. */
  function TxnSub(x: Inst, p: nat): (s: Option<nat>)
    requires Shaped(x)
    ensures s.Some? ==> s.value < |x.txn| && x.transactional[s.value] && p < |x.latches| && x.d.subOf[p] == s.value
  {
    if p >= |x.latches| || Loose(x.d, p) || !x.transactional[x.d.subOf[p]] then None else Some(x.d.subOf[p])
  }

  function OpenAt(txn: seq<Txn>, n: nat): (r: Option<nat>)
    requires n <= |txn|
    ensures r.Some? ==> r.value < n && txn[r.value] == Open
    ensures r.None? ==> forall s | 0 <= s < n :: txn[s] != Open
  {
    if n == 0 then None else if txn[n - 1] == Open then Some(n - 1) else OpenAt(txn, n - 1)
  }

  /** The subcontract whose episode is open, if one is. */
  function OpenEpisode(x: Inst): Option<nat> {
    OpenAt(x.txn, |x.txn|)
  }

  function TxnBefore(x: Inst, p: nat, beginOk: bool): (r: Result<Inst>)
    requires Shaped(x)
    ensures r.Ok? ==> Shaped(r.value) && r.value.d == x.d
  {
    var s := TxnSub(x, p);
    if s.None? || !x.connected then Ok(x)
    else if x.txn[s.value] == Done then Err(ErrState)
    else if x.txn[s.value] == Open then Ok(x)
    else
      match Begin(x.conn, beginOk)
      case None => Err(ErrStore)
      case Some(c) => Ok(x.(conn := c, txn := x.txn[s.value := Open]))
  }

  /** latch_pledge: the first Err's payload is kept beside the latch. */
  function LatchPledge(x: Inst, p: nat, out: Value): (y: Inst)
    requires Shaped(x)
    ensures Shaped(y) && y.d == x.d
  {
    if p >= |x.latches| || x.latches[p] != Pending then x
    else if out.Res? && out.tag == 1 then
      x.(latches := x.latches[p := Failed], errs := if out.box.Some? then x.errs[p := out.box.value] else x.errs)
    else x.(latches := x.latches[p := Kept])
  }

  function Judge(x: Inst): Inst
    requires Shaped(x)
  {
    x.(life := Policy(x.d, x.life, x.latches))
  }

  function TxnAfter(x: Inst, p: nat, st: Status, out: Value, commitOk: bool): (r: (Inst, Status))
    requires Shaped(x)
    ensures Shaped(r.0) && r.0.d == x.d
  {
    var s := TxnSub(x, p);
    if s.None? || !x.connected || x.txn[s.value] != Open then (x, st)
    else if st != OK || (out.Res? && out.tag == 1) then
      (x.(conn := Rollback(x.conn), txn := x.txn[s.value := Done]), st)
    else CommitIfComplete(x, s.value, st, commitOk)
  }

  function CommitIfComplete(x: Inst, s: nat, st: Status, commitOk: bool): (r: (Inst, Status))
    requires Shaped(x) && s < |x.txn|
    ensures Shaped(r.0) && r.0.d == x.d
  {
    if !SubAll(x.d, x.latches, s, Kept) then (x, st)
    else
      var done := x.(txn := x.txn[s := Done]);
      match Commit(x.conn, commitOk)
      case None => (done.(conn := Rollback(x.conn)), ErrStore)
      case Some(c) => (done.(conn := c, committed := x.committed + [s]), st)
  }

  function Store1(x: Inst, id: int, ok: bool): Inst {
    if !x.connected || !ok then x
    else var w := Write(id, OpenEpisode(x)); x.(conn := Put(x.conn, w), written := x.written + [w])
  }

  /** One fulfilment from the state check to the delivered status. */
  function Fulfil(x: Inst, call: Act): (r: (Inst, Status))
    requires Shaped(x) && call.Call?
    ensures Shaped(r.0) && r.0.d == x.d
    decreases call
  {
    if !Takes(x.life) then (x, ErrState)
    else if call.p >= |x.latches| then (x, ErrName)
    else
      match TxnBefore(x, call.p, call.beginOk)
      case Err(gate) => (x, gate)
      case Ok(x1) =>
        var x2 := Body(x1, call.acts);
        var x3 := if call.st == OK then Judge(LatchPledge(x2, call.p, call.out)) else x2;
        TxnAfter(x3, call.p, call.st, call.out, call.commitOk)
  }

  function Body(x: Inst, acts: seq<Act>): (y: Inst)
    requires Shaped(x)
    ensures Shaped(y) && y.d == x.d
    decreases acts
  {
    if acts == [] then x
    else
      match acts[0]
      case Store(id, ok) => Body(Store1(x, id, ok), acts[1..])
      case Call(_, _, _, _, _, _) => Body(Fulfil(x, acts[0]).0, acts[1..])
  }

  const ZERO: Value := Unit(0)

  function Zeros(n: nat): seq<Value> {
    seq(n, _ => ZERO)
  }

  /** geas_contract_break: payloads zeroed, the transaction rolled back, the connection
      closed. */
  function Break(x: Inst): Inst {
    if x.life == Unsigned then x
    else x.(life := Broken, errs := Zeros(|x.errs|), conn := Rollback(x.conn), connected := false)
  }

  function Sign(d: Desc, transactional: seq<bool>, connected: bool): Inst {
    Inst(d, transactional, Signed, AllPending(|d.subOf|), Zeros(|d.subOf|), seq(|d.subs|, _ => Unopened),
         Conn([], None), connected, [], [])
  }
}
