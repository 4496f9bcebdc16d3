/** The parked instance: the durable row an instance is written to between walks, and the
    instance a row is read back into. */
module Park {
  import opened Basics
  import opened Words
  import opened Values
  import opened Wire
  import opened WireTheorems
  import opened Requirements
  import E = Episodes
  import PR = PolicyRuns
  import T = EpisodeTheorems
  import X = EpisodeEnds
  import F = Futures

  /** A registered contract: its name, the numbers that pin its shape, its vows' declared
      types, and what the policy and the episodes read of it. */
  datatype Contract = Contract(
    name: seq<u8>, version: u32, hash: u64, vowTys: seq<u32>, d: Desc, transactional: seq<bool>)

  /** An instance as park and resume see it; `heap` says its owned blocks are still there,
      `futs` are the outcomes of the futures on its list. */
  datatype Live = Live(
    c: Contract, core: E.Inst, signedAt: i64, vows: seq<Value>, heap: bool, futs: seq<F.Outcome>)

  /** One row of geas_park, cell by cell: integers as the signed 64 bits the table holds. */
  datatype Row = Row(
    contract: seq<u8>, version: i64, shape: i64, state: i64, signedAt: i64,
    vows: seq<u8>, latches: seq<u8>, errs: seq<u8>, subtxn: seq<u8>)

  /** Registration marks each of the contract's subcontracts transactional or not. */
  predicate Formed(c: Contract) {
    |c.transactional| == |c.d.subs|
  }

  predicate Valid(v: Live) {
    && E.Shaped(v.core) && v.core.d == v.c.d && v.core.transactional == v.c.transactional
    && (v.heap ==> |v.vows| == |v.c.vowTys|)
    && 0 !in v.c.name
  }

  // ---- the bytes of a row ----

  function LifeNumber(st: Life): i64 {
    match st
    case Unsigned => 0
    case Signed => 1
    case Fulfilled => 2
    case Partial => 3
    case Broken => 4
  }

  function LifeOf(n: i64): Option<Life> {
    if n == 1 then Some(Signed)
    else if n == 2 then Some(Fulfilled)
    else if n == 3 then Some(Partial)
    else if n == 4 then Some(Broken)
    else None
  }

  function LatchByte(l: Latch): u8 {
    match l
    case Pending => 0
    case Kept => 1
    case Failed => 2
  }

  function LatchOf(b: u8): Option<Latch> {
    if b == 0 then Some(Pending) else if b == 1 then Some(Kept) else if b == 2 then Some(Failed) else None
  }

  function LatchBytes(l: seq<Latch>): (b: seq<u8>)
    ensures |b| == |l| && forall i | 0 <= i < |l| :: b[i] == LatchByte(l[i])
  {
    if l == [] then [] else [LatchByte(l[0])] + LatchBytes(l[1..])
  }

  function Latches(b: seq<u8>): (l: Option<seq<Latch>>)
    ensures l.Some? ==> |l.value| == |b|
  {
    if b == [] then Some([])
    else
      var (x, rest) := (LatchOf(b[0]), Latches(b[1..]));
      if x.Some? && rest.Some? then Some([x.value] + rest.value) else None
  }

  function TxnByte(t: E.Txn): u8 {
    match t
    case Unopened => 0
    case Open => 1
    case Done => 2
  }

  function TxnBytes(t: seq<E.Txn>): (b: seq<u8>)
    ensures |b| == |t| && forall i | 0 <= i < |t| :: b[i] == TxnByte(t[i])
  {
    if t == [] then [] else [TxnByte(t[0])] + TxnBytes(t[1..])
  }

  /** A recorded open episode is corruption, not state. */
  function Txns(b: seq<u8>): (t: Option<seq<E.Txn>>)
    ensures t.Some? ==> |t.value| == |b|
  {
    if b == [] then Some([])
    else
      var rest := Txns(b[1..]);
      if rest.None? || b[0] == 1 || b[0] > 2 then None
      else Some([if b[0] == 0 then E.Unopened else E.Done] + rest.value)
  }

  /** Absent is the all zero payload. */
  predicate Absent(err: Value) {
    err == E.ZERO
  }

  function PayloadBytes(err: Value): seq<u8> {
    if Absent(err) then [0] else [1] + Enc(err)
  }

  function ErrsBytes(errs: seq<Value>): seq<u8> {
    if errs == [] then [] else PayloadBytes(errs[0]) + ErrsBytes(errs[1..])
  }

  predicate ErrsLegal(errs: seq<Value>) {
    forall i | 0 <= i < |errs| && !Absent(errs[i]) :: Legal(errs[i], 1)
  }

  /** Encodes values back to back: the first the wire cannot carry refuses them all. */
  function Encoded(vals: seq<Value>): Result<seq<u8>> {
    if !LegalAll(vals, 1) then Err(ErrType)
    else if |EncAll(vals)| > SIZE_MAX then Err(ErrOom)
    else Ok(EncAll(vals))
  }

  function ErrsEncoded(errs: seq<Value>): Result<seq<u8>> {
    if !ErrsLegal(errs) then Err(ErrType)
    else if |ErrsBytes(errs)| > SIZE_MAX then Err(ErrOom)
    else Ok(ErrsBytes(errs))
  }

  /** A future nobody has waited yet is a walk still in the air. */
  predicate InFlight(v: Live) {
    exists k | 0 <= k < |v.futs| :: !v.futs[k].waited
  }

  predicate AnyOpen(v: Live) {
    exists s | 0 <= s < |v.core.txn| :: v.core.txn[s] == E.Open
  }

  /** The vow blob; an explicit break left no vows to encode. */
  function VowsEncoded(v: Live): Result<seq<u8>> {
    if v.c.vowTys == [] then Ok([]) else if !v.heap then Err(ErrType) else Encoded(v.vows)
  }

  /** geas_instance_park, up to the row it writes. */
  function ParkRow(v: Live): Result<Row>
    requires Valid(v)
  {
    var n := |v.core.latches|;
    if v.core.life == Unsigned || (n > 0 && !v.heap) || InFlight(v) || AnyOpen(v) then Err(ErrState)
    else
      match VowsEncoded(v)
      case Err(st) => Err(st)
      case Ok(vows) =>
        match (if n == 0 then Ok([]) else ErrsEncoded(v.core.errs))
        case Err(st) => Err(st)
        case Ok(errs) =>
          Ok(Row(v.c.name, v.c.version, ToI64(v.c.hash), LifeNumber(v.core.life), v.signedAt,
                 vows, LatchBytes(v.core.latches), errs, TxnBytes(v.core.txn)))
  }

  // ---- reading a row ----

  /** A blob as the C string the name lookup sees. */
  function CString(b: seq<u8>): (s: seq<u8>)
    ensures 0 !in s
    ensures 0 !in b ==> s == b
  {
    if b == [] || b[0] == 0 then [] else [b[0]] + CString(b[1..])
  }

  function FindDesc(contracts: seq<Contract>, name: seq<u8>): (c: Option<Contract>)
    ensures c.Some? ==> c.value in contracts && c.value.name == name
  {
    if contracts == [] then None
    else if contracts[0].name == name then Some(contracts[0])
    else FindDesc(contracts[1..], name)
  }

  /** One value of each declared type, back to back, and then no more. */
  function DecodeVows(b: seq<u8>, tys: seq<u32>): (vals: Option<seq<Value>>)
    ensures vals.Some? ==> |vals.value| == |tys|
    decreases |tys|
  {
    if tys == [] then if b == [] then Some([]) else None
    else
      var d := DecodeRec(b, 1);
      if d.val.None? || Ty(d.val.value) != tys[0] then None
      else
        var rest := DecodeVows(b[d.used..], tys[1..]);
        if rest.None? then None else Some([d.val.value] + rest.value)
  }

  function DecodeErrs(b: seq<u8>, n: nat): (vals: Option<seq<Value>>)
    ensures vals.Some? ==> |vals.value| == n
    decreases n
  {
    if n == 0 then if b == [] then Some([]) else None
    else if b == [] || b[0] > 1 then None
    else if b[0] == 0 then
      var rest := DecodeErrs(b[1..], n - 1);
      if rest.None? then None else Some([E.ZERO] + rest.value)
    else
      var d := DecodeRec(b[1..], 1);
      if d.val.None? then None
      else
        var rest := DecodeErrs(b[1 + d.used..], n - 1);
        if rest.None? then None else Some([d.val.value] + rest.value)
  }

  /** What the environment answers a resume: the contracts registered, the hash the caller
      pins (0 for none), whether every pledge has a body, whether the contract's own store
      opens and fits, and whether it has one. */
  datatype Host = Host(contracts: seq<Contract>, expected: u64, bound: Status, reconciled: Status, store: bool)

  /** geas_instance_resume on a row that was found. */
  function ResumeRow(row: Row, h: Host): (r: Result<Live>)
    ensures r.Ok? && Formed(r.value.c) ==> Valid(r.value)
  {
    var c := FindDesc(h.contracts, CString(row.contract));
    if LifeOf(row.state).None? then Err(ErrType)
    else if c.None? then Err(ErrName)
    else if row.version != c.value.version || ToU64(row.shape) != c.value.hash
      || (h.expected != 0 && h.expected != c.value.hash) then
      Err(ErrVersion)
    else if h.bound != OK then Err(h.bound)
    else Rebuilt(row, c.value, h)
  }

  /** The vows, latches, payloads and fates decoded onto a new instance. */
  function Rebuilt(row: Row, c: Contract, h: Host): (r: Result<Live>)
    requires LifeOf(row.state).Some?
    ensures r.Ok? ==> r.value.c == c
    ensures r.Ok? && Formed(c) && 0 !in c.name ==> Valid(r.value)
  {
    var n := |c.d.subOf|;
    var vows := DecodeVows(row.vows, c.vowTys);
    var latches := if n == 0 then Some([]) else Latches(row.latches);
    var errs := if n == 0 then Some([]) else DecodeErrs(row.errs, n);
    var txn := if |c.d.subs| == 0 then Some([]) else Txns(row.subtxn);
    if vows.None? || latches.None? || |latches.value| != n || errs.None? || txn.None? || |txn.value| != |c.d.subs| then
      Err(ErrType)
    else if h.reconciled != OK then Err(h.reconciled)
    else
      Ok(Live(c,
              E.Inst(c.d, c.transactional, LifeOf(row.state).value, latches.value, errs.value, txn.value,
                     E.Conn([], None), h.store, [], []),
              row.signedAt, vows.value, n > 0 || c.vowTys != [], []))
  }

  /** What a row must carry over: all of an instance but its connection, and the history
      the model keeps. */
  predicate SameDurable(v: Live, w: Live) {
    && w.c == v.c && w.signedAt == v.signedAt && w.vows == v.vows
    && w.core.d == v.core.d && w.core.transactional == v.core.transactional
    && w.core.life == v.core.life && w.core.latches == v.core.latches
    && w.core.errs == v.core.errs && w.core.txn == v.core.txn
  }

  // ---- park, then resume ----

  lemma {:induction false} LatchesBack(l: seq<Latch>)
    ensures Latches(LatchBytes(l)) == Some(l)
  {
    if l != [] {
      LatchesBack(l[1..]);
      assert l == [l[0]] + l[1..];
      assert LatchBytes(l)[1..] == LatchBytes(l[1..]);
    }
  }

  lemma {:induction false} TxnsBack(t: seq<E.Txn>)
    requires forall i | 0 <= i < |t| :: t[i] != E.Open
    ensures Txns(TxnBytes(t)) == Some(t)
  {
    if t != [] {
      TxnsBack(t[1..]);
      assert t == [t[0]] + t[1..];
      assert TxnBytes(t)[1..] == TxnBytes(t[1..]);
    }
  }

  predicate Typed(vals: seq<Value>, tys: seq<u32>) {
    |vals| == |tys| && forall i | 0 <= i < |vals| :: Ty(vals[i]) == tys[i]
  }

  /** Vows come back exactly when their maps have unique keys. */
  lemma {:induction false} VowsBack(vals: seq<Value>, tys: seq<u32>)
    requires Typed(vals, tys) && LegalAll(vals, 1) && |EncAll(vals)| <= SIZE_MAX
    ensures DecodeVows(EncAll(vals), tys) == if UniqueKeysAll(vals) then Some(vals) else None
    decreases |vals|
  {
    hide DecodeRec, Legal, UniqueKeys, Enc;
    if vals != [] {
      var tail := EncAll(vals[1..]);
      RoundTrip(vals[0], 1, tail);
      VowsBack(vals[1..], tys[1..]);
      assert vals == [vals[0]] + vals[1..];
      if UniqueKeys(vals[0]) {
        assert (Enc(vals[0]) + tail)[|Enc(vals[0])|..] == tail;
      }
    }
  }

  predicate ErrsUnique(errs: seq<Value>) {
    forall i | 0 <= i < |errs| :: UniqueKeys(errs[i])
  }

  lemma ZeroUnique()
    ensures UniqueKeys(E.ZERO)
  {
  }

  function Cons(v: Value, rest: Option<seq<Value>>): Option<seq<Value>> {
    if rest.None? then None else Some([v] + rest.value)
  }

  lemma AbsentBack(tail: seq<u8>, n: nat)
    ensures DecodeErrs([0] + tail, n + 1) == Cons(E.ZERO, DecodeErrs(tail, n))
  {
    hide DecodeRec;
    assert ([0] + tail)[1..] == tail;
  }

  lemma PresentBack(err: Value, tail: seq<u8>, n: nat)
    requires Legal(err, 1) && |Enc(err)| <= SIZE_MAX
    ensures DecodeErrs([1] + Enc(err) + tail, n + 1) == if UniqueKeys(err) then Cons(err, DecodeErrs(tail, n)) else None
  {
    hide DecodeRec, Legal, UniqueKeys, Enc;
    var b := [1] + Enc(err) + tail;
    assert b[1..] == Enc(err) + tail;
    RoundTrip(err, 1, tail);
    assert b[1 + |Enc(err)|..] == tail;
  }

  lemma PayloadBack(err: Value, tail: seq<u8>, n: nat)
    requires (Absent(err) || Legal(err, 1)) && |PayloadBytes(err)| <= SIZE_MAX
    ensures DecodeErrs(PayloadBytes(err) + tail, n + 1) == if UniqueKeys(err) then
      Cons(err, DecodeErrs(tail, n)) else None
  {
    hide DecodeErrs, Legal, UniqueKeys, Enc;
    if Absent(err) {
      ZeroUnique();
      AbsentBack(tail, n);
    } else {
      PresentBack(err, tail, n);
    }
  }

  lemma {:induction false} ErrsBack(errs: seq<Value>)
    requires ErrsLegal(errs) && |ErrsBytes(errs)| <= SIZE_MAX
    ensures DecodeErrs(ErrsBytes(errs), |errs|) == if ErrsUnique(errs) then Some(errs) else None
    decreases |errs|
  {
    hide DecodeRec, Legal, UniqueKeys, Enc, PayloadBytes;
    if errs != [] {
      ErrsUniqueHead(errs);
      ErrsBack(errs[1..]);
      PayloadBack(errs[0], ErrsBytes(errs[1..]), |errs| - 1);
      assert errs == [errs[0]] + errs[1..];
    }
  }

  lemma ErrsUniqueHead(errs: seq<Value>)
    requires errs != []
    ensures ErrsUnique(errs) <==> UniqueKeys(errs[0]) && ErrsUnique(errs[1..])
    ensures ErrsLegal(errs) ==> ErrsLegal(errs[1..])
  {
    if ErrsUnique(errs[1..]) && UniqueKeys(errs[0]) {
      forall i | 0 <= i < |errs| ensures UniqueKeys(errs[i]) {
        assert i > 0 ==> errs[i] == errs[1..][i - 1];
      }
    }
  }

  predicate NoDuplicateKeys(v: Live) {
    UniqueKeysAll(v.vows) && (v.core.latches != [] ==> ErrsUnique(v.core.errs))
  }

  /** The host the row belongs to: the same contract under its name, and nothing about the
      environment refuses. */
  predicate Welcomes(h: Host, c: Contract) {
    && FindDesc(h.contracts, c.name) == Some(c)
    && (h.expected == 0 || h.expected == c.hash) && h.bound == OK && h.reconciled == OK
  }

  lemma TypedLength(vals: seq<Value>, tys: seq<u32>)
    requires Typed(vals, tys)
    ensures |vals| == |tys|
  {
  }

  lemma RebuiltBack(v: Live, h: Host)
    requires Valid(v) && Typed(v.vows, v.c.vowTys) && ParkRow(v).Ok? && h.reconciled == OK
    ensures LifeOf(ParkRow(v).value.state) == Some(v.core.life)
    ensures var r := Rebuilt(ParkRow(v).value, v.c, h);
            if NoDuplicateKeys(v) then r.Ok? && SameDurable(v, r.value) && Valid(r.value) && r.value.futs == []
            else r == Err(ErrType)
  {
    hide EncAll, LegalAll, UniqueKeysAll, DecodeVows, DecodeErrs, ErrsBytes, ErrsLegal, ErrsUnique, Latches, Txns,
      LatchBytes, TxnBytes, Typed;
    LatchesBack(v.core.latches);
    TxnsBack(v.core.txn);
    NoVows();
    assert v.c.vowTys == [] ==> v.vows == [] by { TypedLength(v.vows, v.c.vowTys); }
    VowsBack(v.vows, v.c.vowTys);
    if |v.core.latches| > 0 {
      ErrsBack(v.core.errs);
    }
  }

  /** An instance a parked row is written from comes back the same, exactly when no map in
      its vows or payloads has a duplicate key; otherwise the row is refused. */
  lemma ResumeAfterPark(v: Live, h: Host)
    requires Valid(v) && Typed(v.vows, v.c.vowTys) && ParkRow(v).Ok? && Welcomes(h, v.c)
    ensures var r := ResumeRow(ParkRow(v).value, h);
            if NoDuplicateKeys(v) then r.Ok? && SameDurable(v, r.value) && Valid(r.value) && r.value.futs == []
            else r == Err(ErrType)
  {
    hide Rebuilt, NoDuplicateKeys, SameDurable, Encoded, ErrsEncoded, CString, FindDesc;
    CastsInverse(0, v.c.hash);
    RebuiltBack(v, h);
  }

  lemma NoVows()
    ensures EncAll([]) == [] && UniqueKeysAll([]) && LegalAll([], 1)
  {
  }

  // ---- resume, then park ----

  lemma {:induction false} LatchesForth(b: seq<u8>)
    requires Latches(b).Some?
    ensures LatchBytes(Latches(b).value) == b
  {
    if b != [] {
      LatchesForth(b[1..]);
      assert b == [b[0]] + b[1..];
    }
  }

  lemma {:induction false} TxnsForth(b: seq<u8>)
    requires Txns(b).Some?
    ensures var t := Txns(b).value; TxnBytes(t) == b && forall i | 0 <= i < |t| :: t[i] != E.Open
  {
    if b != [] {
      TxnsForth(b[1..]);
      assert b == [b[0]] + b[1..];
    }
  }

  lemma {:induction false} VowsForth(b: seq<u8>, tys: seq<u32>)
    requires DecodeVows(b, tys).Some?
    ensures var vals := DecodeVows(b, tys).value;
            Typed(vals, tys) && LegalAll(vals, 1) && EncAll(vals) == b && UniqueKeysAll(vals)
    decreases |tys|
  {
    hide DecodeRec, Legal, UniqueKeys, Enc;
    if tys != [] {
      var d := DecodeRec(b, 1);
      Canonical(b, 1);
      VowsForth(b[d.used..], tys[1..]);
      assert b == b[..d.used] + b[d.used..];
    }
  }

  /** No presence byte marks a payload that is the absent spelling itself. */
  predicate PlainErrs(b: seq<u8>, n: nat)
    decreases n
  {
    n == 0 || b == [] || (
      if b[0] == 0 then PlainErrs(b[1..], n - 1)
      else
        var d := DecodeRec(b[1..], 1);
        d.val.Some? ==> !Absent(d.val.value) && PlainErrs(b[1 + d.used..], n - 1))
  }

  /** One payload read: spelled as it would be written, or longer for a marked zero. */
  lemma PayloadForth(b: seq<u8>)
    requires b != [] && b[0] == 1 && DecodeRec(b[1..], 1).val.Some?
    ensures var d := DecodeRec(b[1..], 1);
            && Legal(d.val.value, 1) && UniqueKeys(d.val.value) && 1 + d.used <= |b|
            && (if Absent(d.val.value) then |PayloadBytes(d.val.value)| < 1 + d.used
                else PayloadBytes(d.val.value) == b[..1 + d.used])
  {
    hide DecodeRec, Legal, UniqueKeys, Enc;
    Canonical(b[1..], 1);
    assert b[..1 + DecodeRec(b[1..], 1).used] == [b[0]] + b[1..][..DecodeRec(b[1..], 1).used];
  }

  /** What one payload adds to what the rest says. */
  predicate Forth(b: seq<u8>, n: nat, errs: seq<Value>) {
    && ErrsLegal(errs) && ErrsUnique(errs)
    && (if PlainErrs(b, n) then ErrsBytes(errs) == b else |ErrsBytes(errs)| < |b|)
  }

  lemma ForthCons(b: seq<u8>, n: nat, k: nat, err: Value, rest: seq<Value>)
    requires n > 0 && 0 < k <= |b| && Forth(b[k..], n - 1, rest)
    requires (Absent(err) || Legal(err, 1)) && UniqueKeys(err)
    requires if PlainErrs(b, n) then PlainErrs(b[k..], n - 1) && PayloadBytes(err) == b[..k]
             else |PayloadBytes(err)| <= k && (PlainErrs(b[k..], n - 1) ==> |PayloadBytes(err)| < k)
    ensures Forth(b, n, [err] + rest)
  {
    hide Legal, UniqueKeys, Enc, PayloadBytes, PlainErrs;
    var errs := [err] + rest;
    assert errs[1..] == rest && b == b[..k] + b[k..];
    ErrsAll(errs);
  }

  lemma {:induction false} ErrsForth(b: seq<u8>, n: nat)
    requires DecodeErrs(b, n).Some?
    ensures Forth(b, n, DecodeErrs(b, n).value)
    decreases n
  {
    hide DecodeRec, Legal, UniqueKeys, Enc, PayloadBytes, ErrsBytes, ErrsLegal, ErrsUnique;
    if n > 0 {
      if b[0] == 0 {
        hide Forth;
        ZeroUnique();
        ZeroSpelled();
        ErrsForth(b[1..], n - 1);
        ForthCons(b, n, 1, E.ZERO, DecodeErrs(b[1..], n - 1).value);
      } else {
        hide Forth;
        PayloadForth(b);
        var k := 1 + DecodeRec(b[1..], 1).used;
        ErrsForth(b[k..], n - 1);
        ForthCons(b, n, k, DecodeRec(b[1..], 1).val.value, DecodeErrs(b[k..], n - 1).value);
      }
    } else {
      NoErrs();
    }
  }

  lemma NoErrs()
    ensures Forth([], 0, [])
  {
  }

  lemma ZeroSpelled()
    ensures PayloadBytes(E.ZERO) == [0]
  {
  }

  lemma ErrsAll(errs: seq<Value>)
    requires errs != []
    ensures UniqueKeys(errs[0]) && ErrsUnique(errs[1..]) ==> ErrsUnique(errs)
    ensures (Absent(errs[0]) || Legal(errs[0], 1)) && ErrsLegal(errs[1..]) ==> ErrsLegal(errs)
  {
    hide Legal, UniqueKeys;
    assert forall i | 0 < i < |errs| :: errs[i] == errs[1..][i - 1];
  }

  predicate RowFits(row: Row) {
    |row.vows| <= SIZE_MAX && |row.errs| <= SIZE_MAX
  }

  /** A row spelled the way park spells it. */
  predicate Plain(row: Row, c: Contract) {
    && 0 !in row.contract
    && (if c.d.subOf == [] then row.latches == [] && row.errs == [] else PlainErrs(row.errs, |c.d.subOf|))
    && (c.d.subs == [] ==> row.subtxn == [])
  }

  /** Every instance resumed from a row parks again, and to the same row byte for byte
      exactly when the row was spelled as park spells rows. */
  lemma ParkAfterResume(row: Row, h: Host)
    requires ResumeRow(row, h).Ok? && RowFits(row) && Formed(ResumeRow(row, h).value.c)
    ensures var v := ResumeRow(row, h).value;
            ParkRow(v).Ok? && (ParkRow(v) == Ok(row) <==> Plain(row, v.c))
  {
    hide EncAll, LegalAll, UniqueKeysAll, DecodeVows, DecodeErrs, ErrsBytes, ErrsLegal, ErrsUnique, Latches, Txns,
      PlainErrs;
    var v := ResumeRow(row, h).value;
    NoVows();
    VowsForth(row.vows, v.c.vowTys);
    CastsInverse(row.shape, 0);
    if v.c.d.subOf != [] {
      LatchesForth(row.latches);
      ErrsForth(row.errs, |v.c.d.subOf|);
    }
    if v.c.d.subs != [] {
      TxnsForth(row.subtxn);
    }
    NamedAsRow(row, h);
  }

  lemma NamedAsRow(row: Row, h: Host)
    requires ResumeRow(row, h).Ok?
    ensures ResumeRow(row, h).value.c.name == CString(row.contract)
  {
  }

  /** Park, resume, park: the same row again. */
  lemma ParkedAgain(v: Live, h: Host)
    requires Valid(v) && Typed(v.vows, v.c.vowTys) && ParkRow(v).Ok? && Welcomes(h, v.c) && NoDuplicateKeys(v)
    ensures ResumeRow(ParkRow(v).value, h).Ok?
    ensures ParkRow(ResumeRow(ParkRow(v).value, h).value) == ParkRow(v)
  {
    hide Encoded, ErrsEncoded, Latches, Txns;
    ResumeAfterPark(v, h);
  }

  // ---- what is written, what is accepted ----

  /** Between walks: signed, its blocks there if it has pledges, every future waited, no
      episode open. */
  predicate BetweenWalks(v: Live) {
    && v.core.life != Unsigned
    && (v.core.latches == [] || v.heap)
    && (forall k | 0 <= k < |v.futs| :: v.futs[k].waited)
    && (forall s | 0 <= s < |v.core.txn| :: v.core.txn[s] != E.Open)
  }

  /** Every value of it may cross the wire, in blobs whose sizes are 64 bits. */
  predicate Writable(v: Live) {
    && (v.c.vowTys != [] ==> v.heap && LegalAll(v.vows, 1) && |EncAll(v.vows)| <= SIZE_MAX)
    && (v.core.latches != [] ==>
          && (forall p | 0 <= p < |v.core.errs| && v.core.errs[p] != E.ZERO :: Legal(v.core.errs[p], 1))
          && |ErrsBytes(v.core.errs)| <= SIZE_MAX)
  }

  /** A row is written from exactly the states between walks whose values can be written, and
      any other state is refused as ErrState; what is written is the state. */
  lemma ParkExactly(v: Live)
    requires Valid(v)
    ensures ParkRow(v).Ok? <==> BetweenWalks(v) && Writable(v)
    ensures ParkRow(v) == Err(ErrState) <==> !BetweenWalks(v)
    ensures ParkRow(v).Ok? ==>
              var row := ParkRow(v).value;
              && row.contract == v.c.name && row.version == v.c.version && ToU64(row.shape) == v.c.hash
              && LifeOf(row.state) == Some(v.core.life) && row.signedAt == v.signedAt
              && |row.latches| == |v.core.latches| && |row.subtxn| == |v.core.txn|
              && (forall p | 0 <= p < |row.latches| ::
                    row.latches[p] == match v.core.latches[p] case Pending => 0 case Kept => 1 case Failed => 2)
              && (forall s | 0 <= s < |row.subtxn| :: row.subtxn[s] == if v.core.txn[s] == E.Done then 2 else 0)
              && row.vows == (if v.c.vowTys == [] then [] else EncAll(v.vows))
              && row.errs == (if v.core.latches == [] then [] else ErrsBytes(v.core.errs))
  {
    hide LegalAll, EncAll, Legal, ErrsBytes;
    CastsInverse(0, v.c.hash);
  }

  lemma {:induction false} LatchesIff(b: seq<u8>)
    ensures Latches(b).Some? <==> forall i | 0 <= i < |b| :: b[i] <= 2
    decreases |b|
  {
    if b != [] {
      LatchesIff(b[1..]);
      assert forall i | 0 < i < |b| :: b[i] == b[1..][i - 1];
    }
  }

  lemma {:induction false} TxnsIff(b: seq<u8>)
    ensures Txns(b).Some? <==> forall i | 0 <= i < |b| :: b[i] == 0 || b[i] == 2
    decreases |b|
  {
    if b != [] {
      TxnsIff(b[1..]);
      assert forall i | 0 < i < |b| :: b[i] == b[1..][i - 1];
    }
  }

  /** The row describes this contract, and so does the hash the caller pins. */
  predicate Describes(row: Row, h: Host, c: Contract) {
    && FindDesc(h.contracts, CString(row.contract)) == Some(c)
    && row.version == c.version && ToU64(row.shape) == c.hash
    && (h.expected != 0 ==> h.expected == ToU64(row.shape))
  }

  /** Its blobs hold what the contract declares: the vows by type and to the last byte, a
      latch for each pledge, the payloads, and a fate for each subcontract, none of them open. */
  predicate Holds(row: Row, c: Contract) {
    && DecodeVows(row.vows, c.vowTys).Some?
    && (c.d.subOf != [] ==>
          && |row.latches| == |c.d.subOf| && (forall i | 0 <= i < |row.latches| :: row.latches[i] <= 2)
          && DecodeErrs(row.errs, |c.d.subOf|).Some?)
    && (c.d.subs != [] ==>
          |row.subtxn| == |c.d.subs| && forall i | 0 <= i < |row.subtxn| :: row.subtxn[i] == 0 || row.subtxn[i] == 2)
  }

  /** A row is accepted exactly when its state is a signed one, it describes a contract
      registered here and the one the caller pinned, every pledge has a body, its blobs hold
      what the contract declares, and the contract's store opens and fits. */
  lemma ResumeExactly(row: Row, h: Host)
    ensures ResumeRow(row, h).Ok? <==>
            && 1 <= row.state <= 4 && h.bound == OK && h.reconciled == OK
            && exists c :: Describes(row, h, c) && Holds(row, c)
    ensures ResumeRow(row, h).Ok? ==>
              var v := ResumeRow(row, h).value;
              && Describes(row, h, v.c) && LifeNumber(v.core.life) == row.state && v.signedAt == row.signedAt
    ensures (1 <= row.state <= 4 && FindDesc(h.contracts, CString(row.contract)).Some?
             && forall c :: !Describes(row, h, c)) ==>
              ResumeRow(row, h) == Err(ErrVersion)
    ensures 1 <= row.state <= 4 && FindDesc(h.contracts, CString(row.contract)).None? ==>
              ResumeRow(row, h) == Err(ErrName)
  {
    hide DecodeVows, DecodeErrs, Latches, Txns, CString;
    LatchesIff(row.latches);
    TxnsIff(row.subtxn);
    var c := FindDesc(h.contracts, CString(row.contract));
    if c.Some? && Describes(row, h, c.value) {
      assert ResumeRow(row, h).Ok? <==>
             1 <= row.state <= 4 && h.bound == OK && h.reconciled == OK && Holds(row, c.value);
    }
  }

  // ---- broken instances ----

  /** An explicit break: the heap, and the vows on it, are gone. */
  function Tear(v: Live): Live {
    v.(core := E.Break(v.core), heap := false, vows := [])
  }

  /** What an explicit break leaves parks only when the contract has neither pledges nor
      vows: with pledges it is a state error, with vows alone a type error. */
  lemma TornParks(v: Live)
    requires Valid(v) && v.core.life != Unsigned && !InFlight(v) && !AnyOpen(v)
    ensures Valid(Tear(v))
    ensures ParkRow(Tear(v)) ==
            if v.core.latches != [] then Err(ErrState)
            else if v.c.vowTys != [] then Err(ErrType)
            else Ok(Row(v.c.name, v.c.version, ToI64(v.c.hash), LifeNumber(Broken), v.signedAt, [], [], [],
                        TxnBytes(v.core.txn)))
  {
  }

  /** An automatic break keeps the heap, and the instance gets past the guard exactly when it
      came with no episode open. */
  lemma BrokenParksIff(v: Live)
    requires Valid(v) && v.core.life == Broken && !InFlight(v) && (v.core.latches != [] ==> v.heap)
    ensures ParkRow(v) == Err(ErrState) <==> AnyOpen(v)
  {
    hide LegalAll, EncAll, ErrsLegal, ErrsBytes;
  }

  /** One that came with an episode open never parks: it takes no more calls, so nothing
      settles the episode, and an explicit break leaves its mark. */
  lemma BrokenOpenNeverParks(v: Live, es: seq<T.Event>)
    requires Valid(v) && v.core.life == Broken && AnyOpen(v)
    ensures forall u: Live | u.core == T.Lives(v.core, es) && Valid(u) :: ParkRow(u) == Err(ErrState)
  {
    BrokenKeepsFates(v.core, es);
    hide T.Lives;
    var s :| 0 <= s < |v.core.txn| && v.core.txn[s] == E.Open;
    forall u: Live | u.core == T.Lives(v.core, es) && Valid(u) ensures ParkRow(u) == Err(ErrState) {
      assert u.core.txn[s] == E.Open;
    }
  }

  lemma {:induction false} BrokenKeepsFates(x: E.Inst, es: seq<T.Event>)
    requires E.Shaped(x) && x.life == Broken
    ensures T.Lives(x, es).txn == x.txn
    decreases |es|
  {
    if es != [] {
      BrokenKeepsFates(T.React(x, es[0]), es[1..]);
    }
  }

  // ---- fates across rows ----

  /** A resumed instance starts as a signed one does, with nothing open and nothing yet
      written: what every run of an instance keeps holds of its runs too. */
  lemma ResumedStarts(row: Row, h: Host)
    requires ResumeRow(row, h).Ok? && Formed(ResumeRow(row, h).value.c)
    ensures T.Starting(ResumeRow(row, h).value.core)
    ensures !AnyOpen(ResumeRow(row, h).value)
  {
    hide Rebuilt;
    RebuiltAfresh(row, ResumeRow(row, h).value.c, h);
  }

  lemma RebuiltAfresh(row: Row, c: Contract, h: Host)
    requires LifeOf(row.state).Some? && Rebuilt(row, c, h).Ok? && Formed(c)
    ensures T.Starting(Rebuilt(row, c, h).value.core)
    ensures !AnyOpen(Rebuilt(row, c, h).value)
  {
    hide EncAll, DecodeVows, DecodeErrs, Latches, Txns;
    if c.d.subs != [] {
      TxnsForth(row.subtxn);
    }
  }

  /** A fate crosses its row. */
  lemma FateCrosses(v: Live, h: Host, s: nat)
    requires Valid(v) && ParkRow(v).Ok? && s < |v.core.txn| && v.core.txn[s] == E.Done
    requires ResumeRow(ParkRow(v).value, h).Ok? && FindDesc(h.contracts, v.c.name) == Some(v.c)
    ensures var w := ResumeRow(ParkRow(v).value, h).value; s < |w.core.txn| && w.core.txn[s] == E.Done
  {
    hide VowsEncoded, ErrsEncoded, DecodeVows, DecodeErrs, Latches, Txns, TxnBytes, LatchBytes;
    var row := ParkRow(v).value;
    var w := ResumeRow(row, h).value;
    TxnsForth(row.subtxn);
    assert row.subtxn == TxnBytes(v.core.txn) && row.subtxn == TxnBytes(w.core.txn);
    FateByte(v.core.txn, w.core.txn, s);
  }

  lemma SameContract(v: Live, h: Host)
    requires Valid(v) && ParkRow(v).Ok?
    requires ResumeRow(ParkRow(v).value, h).Ok? && FindDesc(h.contracts, v.c.name) == Some(v.c)
    ensures ResumeRow(ParkRow(v).value, h).value.c == v.c && Formed(v.c)
  {
    hide VowsEncoded, ErrsEncoded, Rebuilt;
  }

  lemma FateByte(t: seq<E.Txn>, u: seq<E.Txn>, s: nat)
    requires s < |t| && t[s] == E.Done && TxnBytes(u) == TxnBytes(t)
    ensures s < |u| && u[s] == E.Done && TxnBytes(u)[s] == 2
  {
    assert TxnBytes(t)[s] == 2 && TxnBytes(u)[s] == 2;
  }

  lemma FateParked(u: Live, s: nat)
    requires Valid(u) && ParkRow(u).Ok? && s < |u.core.txn| && u.core.txn[s] == E.Done
    ensures s < |ParkRow(u).value.subtxn| && ParkRow(u).value.subtxn[s] == 2
  {
    hide VowsEncoded, ErrsEncoded;
    FateByte(u.core.txn, u.core.txn, s);
  }

  /** What the policy, the latches and the fates of an instance agree on, its row carries over:
      the commit theorems over runs hold on from there. */
  lemma ResumedSound(v: Live, h: Host, s: nat)
    requires Valid(v) && ParkRow(v).Ok? && X.Judged(v.core) && X.KeptDone(v.core, s) && h.store
    requires ResumeRow(ParkRow(v).value, h).Ok? && FindDesc(h.contracts, v.c.name) == Some(v.c)
    ensures var w := ResumeRow(ParkRow(v).value, h).value; X.Judged(w.core) && X.Tidy(w.core, s)
  {
    hide X.Judged, X.KeptDone;
    SameCore(v, h);
    SameCoreSound(v.core, ResumeRow(ParkRow(v).value, h).value.core, s);
  }

  lemma SameCoreSound(x: E.Inst, y: E.Inst, s: nat)
    requires E.Shaped(x) && E.Shaped(y) && X.Judged(x) && X.KeptDone(x, s) && y.connected
    requires y.d == x.d && y.transactional == x.transactional && y.life == x.life
    requires y.latches == x.latches && y.txn == x.txn
    ensures X.Judged(y) && X.Tidy(y, s)
  {
  }

  lemma SameCore(v: Live, h: Host)
    requires Valid(v) && ParkRow(v).Ok?
    requires ResumeRow(ParkRow(v).value, h).Ok? && FindDesc(h.contracts, v.c.name) == Some(v.c)
    ensures var (x, y) := (v.core, ResumeRow(ParkRow(v).value, h).value.core);
            && y.d == x.d && y.transactional == x.transactional && y.life == x.life
            && y.latches == x.latches && y.txn == x.txn && y.connected == h.store && E.Shaped(y)
  {
    hide VowsEncoded, ErrsEncoded, DecodeVows, DecodeErrs, Latches, Txns, TxnBytes, LatchBytes;
    LatchesBack(v.core.latches);
    TxnsBack(v.core.txn);
  }

  /** An episode done when a row was parked is done in every instance resumed from it, in
      every state that instance lives through, and in every row parked from any of those;
      it is refused there, and commits in none of them. */
  lemma {:induction false} DoneAcrossRows(v: Live, h: Host, es: seq<T.Event>, s: nat, call: E.Act)
    requires Valid(v) && ParkRow(v).Ok? && s < |v.core.txn| && v.core.txn[s] == E.Done && call.Call?
    requires ResumeRow(ParkRow(v).value, h).Ok? && FindDesc(h.contracts, v.c.name) == Some(v.c)
    ensures var y := T.Lives(ResumeRow(ParkRow(v).value, h).value.core, es);
            && s < |y.txn| && y.txn[s] == E.Done && s !in y.committed
            && (y.connected && PR.Takes(y.life) && E.TxnSub(y, call.p) == Some(s) ==>
                  E.Fulfil(y, call) == (y, ErrState))
            && (forall u: Live | u.core == y && Valid(u) && ParkRow(u).Ok? ::
                  s < |ParkRow(u).value.subtxn| && ParkRow(u).value.subtxn[s] == 2)
  {
    hide T.Inv, E.Fulfil, T.Lives, ParkRow, Rebuilt, Valid;
    FateCrosses(v, h, s);
    SameContract(v, h);
    ResumedStarts(ParkRow(v).value, h);
    NothingYet(ParkRow(v).value, h);
    var w := ResumeRow(ParkRow(v).value, h).value;
    T.StartInv(w.core);
    T.ShapeOf(w.core);
    T.DoneStaysDone(w.core, s, es, call);
    forall u: Live | u.core == T.Lives(w.core, es) && Valid(u) && ParkRow(u).Ok?
      ensures s < |ParkRow(u).value.subtxn| && ParkRow(u).value.subtxn[s] == 2
    {
      FateParked(u, s);
    }
  }

  lemma NothingYet(row: Row, h: Host)
    requires ResumeRow(row, h).Ok?
    ensures ResumeRow(row, h).value.core.committed == []
  {
  }
}
