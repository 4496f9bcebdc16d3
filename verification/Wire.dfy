/** The canonical wire codec as functions: what a value's bytes are, which values
    may be encoded, what the sizing pass answers, and what the decoder reads back,
    together with what the decoder asks its owner to allocate on the way. */
module Wire {
  import opened Basics
  import opened Words
  import opened Values

  const MAX_DEPTH: nat := 64
  const SIZE_MAX: nat := 0xFFFF_FFFF_FFFF_FFFF

  /** tag_crosses: the tags a value on the wire may carry. */
  predicate Crosses(ty: u32) {
    ty <= TY_SUM && ty != TY_PLEDGE_REF
  }

  /** A Unicode scalar value, definition D76 of the Unicode Standard, section 3.9. */
  predicate ScalarValue(ch: u32) {
    ch <= 0x10FFFF && !(0xD800 <= ch <= 0xDFFF)
  }

  predicate Container(v: Value) {
    v.List? || v.Map? || v.Tuple? || v.Record? || v.Sum?
  }

  // ---- the bytes ----

  /** The u32 ty, u32 tag header. */
  function Header(v: Value): (b: seq<u8>)
    ensures |b| == 8
  {
    LE(Ty(v), 4) + LE(v.tag, 4)
  }

  /** What follows the header before any contained value. */
  function Payload(v: Value): seq<u8> {
    match v
    case Int(_, i) => LE(ToU64(i), 8)
    case UInt(_, u) => LE(u, 8)
    case Float(_, bits) => LE(bits, 8)
    case Bool(_, b) => [b]
    case Byte(_, b) => [b]
    case Char(_, ch) => LE(ch, 4)
    case Str(_, text) => LE(|text|, 8) + text
    case List(_, e, xs) => LE(|xs|, 8) + LE(e, 4)
    case Map(_, k, xs) => LE(|xs|, 8) + LE(k, 4)
    case Tuple(_, xs) => LE(|xs|, 8)
    case Record(_, xs) => LE(|xs|, 8)
    case Sum(_, xs) => LE(|xs|, 8)
    case _ => []
  }

  function Fixed(v: Value): (b: seq<u8>)
    ensures |b| == 8 + |Payload(v)|
  {
    Header(v) + Payload(v)
  }

  /** A value's bytes: its own fixed part, then every contained value in order. */
  function Enc(v: Value): (b: seq<u8>)
    ensures |b| >= 8
    decreases Nodes(v), 0
  {
    NodesKids(v);
    Fixed(v) + EncAll(Kids(v))
  }

  function EncAll(xs: seq<Value>): (b: seq<u8>)
    decreases NodesAll(xs), 1 + |xs|
  {
    if xs == [] then [] else Enc(xs[0]) + EncAll(xs[1..])
  }

  lemma {:induction false} EncAllConcat(xs: seq<Value>, ys: seq<Value>)
    ensures EncAll(xs + ys) == EncAll(xs) + EncAll(ys)
    decreases |xs|
  {
    if xs == [] {
      assert xs + ys == ys;
    } else {
      assert (xs + ys)[1..] == xs[1..] + ys;
      EncAllConcat(xs[1..], ys);
    }
  }

  lemma EncAllSnoc(xs: seq<Value>, i: nat)
    requires i < |xs|
    ensures EncAll(xs[..i + 1]) == EncAll(xs[..i]) + Enc(xs[i])
  {
    assert xs[..i + 1] == xs[..i] + [xs[i]];
    EncAllConcat(xs[..i], [xs[i]]);
    assert EncAll([xs[i]]) == Enc(xs[i]) + EncAll([xs[i]][1..]);
  }

  /** No encoded value is smaller than its header, the fact every count check uses. */
  lemma {:induction false} EncAllAtLeast(xs: seq<Value>)
    ensures |EncAll(xs)| >= 8 * |xs|
    decreases |xs|
  {
    if xs != [] {
      EncAllAtLeast(xs[1..]);
    }
  }

  // ---- which values may be encoded ----

  /** The checks the sizing pass makes on one node before it looks at its kids. */
  predicate NodeOk(v: Value) {
    match v
    case Unit(t) => t == 0
    case Int(t, _) => t == 0
    case UInt(t, _) => t == 0
    case Float(t, _) => t == 0
    case Bool(t, b) => t == 0 && b <= 1
    case Byte(t, _) => t == 0
    case Char(t, ch) => t == 0 && ScalarValue(ch)
    case Str(t, _) => t == 0
    case List(t, e, _) => t == 0 && Crosses(e)
    case Map(t, k, xs) => t == 0 && Keyable(k) && |xs| % 2 == 0
    case Tuple(t, _) => t == 0
    case Record(t, _) => t == 0
    case Sum(_, _) => true
    case Opt(t, box) => t <= 1 && (t == 1 <==> box.Some?)
    case Res(t, box) => t <= 1 && box.Some?
    case PledgeRef(_) => false
    case Instance(_, _) => false
    case Stray(_, _) => false
  }

  /** The check on the kid at position i: a list's elements and a map's keys carry
      the declared tag. */
  predicate KidTyOk(v: Value, i: nat, kid: Value) {
    (v.List? ==> Ty(kid) == v.elemTy) &&
    (v.Map? && i % 2 == 0 ==> Ty(kid) == v.keyTy)
  }

  predicate KidTysOkFrom(v: Value, from: nat) {
    forall i | from <= i < |Kids(v)| :: KidTyOk(v, i, Kids(v)[i])
  }

  /** Encodable at this nesting level, byte counts aside. */
  predicate Legal(v: Value, depth: nat)
    decreases Nodes(v), 0
  {
    NodesKids(v);
    && depth <= MAX_DEPTH
    && NodeOk(v)
    && KidTysOkFrom(v, 0)
    && LegalAll(Kids(v), depth + 1)
  }

  predicate LegalAll(xs: seq<Value>, depth: nat)
    decreases NodesAll(xs), 1 + |xs|
  {
    xs == [] || (Legal(xs[0], depth) && LegalAll(xs[1..], depth))
  }

  lemma {:induction false} LegalAllConcat(xs: seq<Value>, ys: seq<Value>, depth: nat)
    ensures LegalAll(xs + ys, depth) == (LegalAll(xs, depth) && LegalAll(ys, depth))
    decreases |xs|
  {
    if xs == [] {
      assert xs + ys == ys;
    } else {
      assert (xs + ys)[1..] == xs[1..] + ys;
      LegalAllConcat(xs[1..], ys, depth);
    }
  }

  // ---- the sizing pass ----

  /** size_add: accumulation that refuses to wrap a size_t. */
  function SizeAdd(total: nat, n: nat): Result<nat> {
    if n > SIZE_MAX - total then Err(ErrOom) else Ok(total + n)
  }

  /** One node's own share: its header, its checks, its payload, in that order. */
  function SizeNode(v: Value, total: nat): Result<nat> {
    match SizeAdd(total, 8)
    case Err(st) => Err(st)
    case Ok(t) => if !NodeOk(v) then Err(ErrType) else SizeAdd(t, |Payload(v)|)
  }

  /** encode_size: the running total after v, or the first refusal met. */
  function SizeRun(v: Value, depth: nat, total: nat): Result<nat>
    decreases Nodes(v), 0
  {
    NodesKids(v);
    if depth > MAX_DEPTH then Err(ErrType)
    else
      match SizeNode(v, total)
      case Err(st) => Err(st)
      case Ok(t) => SizeRunAll(v, Kids(v), 0, depth + 1, t)
  }

  /** The element loop: xs are v's kids from position i on. */
  function SizeRunAll(v: Value, xs: seq<Value>, i: nat, depth: nat, total: nat): Result<nat>
    decreases NodesAll(xs), 1 + |xs|
  {
    if xs == [] then Ok(total)
    else if !KidTyOk(v, i, xs[0]) then Err(ErrType)
    else
      match SizeRun(xs[0], depth, total)
      case Err(st) => Err(st)
      case Ok(t) => SizeRunAll(v, xs[1..], i + 1, depth, t)
  }

  /** r is the honest answer for something that is encodable iff ok and would end the
      running total at `end`. Which refusal wins is pinned when only one applies. */
  predicate Measures(r: Result<nat>, ok: bool, end: nat) {
    match r
    case Ok(t) => ok && t == end <= SIZE_MAX
    case Err(ErrOom) => end > SIZE_MAX
    case Err(ErrType) => !ok
    case Err(_) => false
  }

  lemma SizeNodeExact(v: Value, total: nat)
    requires total <= SIZE_MAX
    ensures Measures(SizeNode(v, total), NodeOk(v), total + |Fixed(v)|)
  {
  }

  /** The sizing pass measures exactly the bytes, and refuses exactly the values the
      wire cannot carry. */
  lemma {:induction false} SizeExact(v: Value, depth: nat, total: nat)
    requires total <= SIZE_MAX
    ensures Measures(SizeRun(v, depth, total), Legal(v, depth), total + |Enc(v)|)
    decreases Nodes(v), 0
  {
    hide NodeOk, Payload, Fixed, SizeNode, SizeRunAll, LegalAll;
    NodesKids(v);
    SizeNodeExact(v, total);
    var kids, r := Kids(v), SizeNode(v, total);
    assert |Enc(v)| == |Fixed(v)| + |EncAll(kids)|;
    if depth <= MAX_DEPTH && r.Ok? {
      SizeAllExact(v, kids, 0, depth + 1, r.value);
    }
  }

  lemma KidTysStep(v: Value, i: nat)
    requires i < |Kids(v)|
    ensures KidTysOkFrom(v, i) == (KidTyOk(v, i, Kids(v)[i]) && KidTysOkFrom(v, i + 1))
  {
  }

  lemma KidTysDone(v: Value)
    ensures KidTysOkFrom(v, |Kids(v)|)
  {
  }

  lemma {:induction false} SizeAllExact(v: Value, xs: seq<Value>, i: nat, depth: nat, total: nat)
    requires total <= SIZE_MAX && i <= |Kids(v)| && xs == Kids(v)[i..]
    ensures Measures(SizeRunAll(v, xs, i, depth, total), KidTysOkFrom(v, i) && LegalAll(xs, depth),
                     total + |EncAll(xs)|)
    decreases NodesAll(xs), 1 + |xs|
  {
    hide Enc, Legal, SizeRun, KidTysOkFrom, KidTyOk;
    if xs == [] {
      KidTysDone(v);
    } else {
      KidTysStep(v, i);
      assert Kids(v)[i] == xs[0];
      SizeExact(xs[0], depth, total);
      if KidTyOk(v, i, xs[0]) && total + |Enc(xs[0])| <= SIZE_MAX {
        SizeAllExact(v, xs[1..], i + 1, depth, total + |Enc(xs[0])|);
      }
    }
  }

  // ---- decoding ----

  function U32At(s: seq<u8>, at: nat): u32
    requires at + 4 <= |s|
  {
    ValWidths(s[at..at + 4]);
    Val(s[at..at + 4])
  }

  function U64At(s: seq<u8>, at: nat): u64
    requires at + 8 <= |s|
  {
    ValWidths(s[at..at + 8]);
    Val(s[at..at + 8])
  }

  /** What the fixed part of one value says: the value with no kids yet, how many
      kids follow, and how many bytes were read. */
  datatype Shell = Shell(v: Value, n: nat, used: nat)

  /** The fixed width arms: nothing but the payload bytes themselves. */
  function ParseScalar(ty: u32, p: seq<u8>): (r: Option<Shell>)
    ensures r.Some? ==> r.value.used <= |p|
  {
    if ty == TY_UNIT then Some(Shell(Unit(0), 0, 0))
    else if ty == TY_INT then if |p| < 8 then None else Some(Shell(Int(0, ToI64(U64At(p, 0))), 0, 8))
    else if ty == TY_UINT then if |p| < 8 then None else Some(Shell(UInt(0, U64At(p, 0)), 0, 8))
    else if ty == TY_FLOAT then if |p| < 8 then None else Some(Shell(Float(0, U64At(p, 0)), 0, 8))
    else if ty == TY_BOOL then if |p| < 1 || p[0] > 1 then None else Some(Shell(Bool(0, p[0]), 0, 1))
    else if ty == TY_BYTE then if |p| < 1 then None else Some(Shell(Byte(0, p[0]), 0, 1))
    else if ty == TY_CHAR then
      if |p| < 4 || !ScalarValue(U32At(p, 0)) then None else Some(Shell(Char(0, U32At(p, 0)), 0, 4))
    else None
  }

  function ParseString(p: seq<u8>): (r: Option<Shell>)
    ensures r.Some? ==> r.value.used <= |p|
  {
    if |p| < 8 || U64At(p, 0) > |p| - 8 then None
    else Some(Shell(Str(0, p[8..8 + U64At(p, 0)]), 0, 8 + U64At(p, 0)))
  }

  /** count_plausible: a claim the bytes behind the payload can cover at 8 each. */
  predicate Plausible(left: nat, count: nat) {
    count <= left / 8
  }

  /** The arms that name an element tag. */
  function ParseTagged(ty: u32, p: seq<u8>): (r: Option<Shell>)
    ensures r.Some? ==> r.value.used <= |p|
  {
    if |p| < 12 || !Plausible(|p| - 12, U64At(p, 0)) then None
    else
      var n, e := U64At(p, 0), U32At(p, 8);
      if ty == TY_LIST then if Crosses(e) then Some(Shell(List(0, e, []), n, 12)) else None
      else if n % 2 == 0 && Keyable(e) then Some(Shell(Map(0, e, []), n, 12))
      else None
  }

  /** The arms that carry a bare count. */
  function ParseCounted(ty: u32, tag: u32, p: seq<u8>): (r: Option<Shell>)
    ensures r.Some? ==> r.value.used <= |p|
  {
    if |p| < 8 || !Plausible(|p| - 8, U64At(p, 0)) then None
    else
      var v := if ty == TY_TUPLE then Tuple(0, []) else if ty == TY_RECORD then Record(0, []) else Sum(tag, []);
      Some(Shell(v, U64At(p, 0), 8))
  }

  /** The payload p behind a header naming ty and tag. */
  function ParsePayload(ty: u32, tag: u32, p: seq<u8>): (r: Option<Shell>)
    ensures r.Some? ==> r.value.used <= |p|
  {
    if ty == TY_OPTION then if tag > 1 then None else Some(Shell(Opt(tag, None), tag, 0))
    else if ty == TY_RESULT then if tag > 1 then None else Some(Shell(Res(tag, None), 1, 0))
    else if ty == TY_SUM then ParseCounted(ty, tag, p)
    else if tag != 0 then None
    else if ty == TY_STRING then ParseString(p)
    else if ty == TY_LIST || ty == TY_MAP then ParseTagged(ty, p)
    else if ty == TY_TUPLE || ty == TY_RECORD then ParseCounted(ty, tag, p)
    else ParseScalar(ty, p)
  }

  /** Reads a header and the payload behind it; None is a malformed value. */
  function ParseShell(s: seq<u8>): (r: Option<Shell>)
    ensures r.Some? ==> 8 <= r.value.used <= |s|
  {
    if |s| < 8 then None
    else
      match ParsePayload(U32At(s, 0), U32At(s, 4), s[8..])
      case None => None
      case Some(sh) => Some(sh.(used := 8 + sh.used))
  }

  /** The check on a freshly decoded kid: its tag, and for a map key that no
      earlier key equals it. */
  predicate KidOk(shell: Value, prior: seq<Value>, kid: Value) {
    KidTyOk(shell, |prior|, kid) &&
    (shell.Map? && |prior| % 2 == 0 ==>
       forall j | 0 <= j < |prior| && j % 2 == 0 :: !ValueEq(prior[j], kid))
  }

  /** A decode: the value if the bytes were well formed, how many it consumed, and
      the value slots and string bytes asked of the owner either way. */
  datatype Decoded = Decoded(val: Option<Value>, used: nat, slots: nat, text: nat)
  datatype DecodedKids = DecodedKids(kids: Option<seq<Value>>, used: nat, slots: nat, text: nat)

  /** decode_rec over the bytes that remain. */
  function DecodeRec(s: seq<u8>, depth: nat): (d: Decoded)
    ensures d.val.Some? ==> depth <= MAX_DEPTH && 8 <= d.used <= |s|
    decreases MAX_DEPTH + 2 - depth, 0
  {
    if depth > MAX_DEPTH then Decoded(None, 0, 0, 0)
    else
      match ParseShell(s)
      case None => Decoded(None, 0, 0, 0)
      case Some(sh) =>
        var text := if sh.v.Str? then |sh.v.text| else 0;
        var r := DecodeKids(s[sh.used..], depth + 1, sh.v, [], sh.n);
        Decoded(if r.kids.None? then None else Some(WithKids(sh.v, r.kids.value)),
                sh.used + r.used, sh.n + r.slots, text + r.text)
  }

  /** The element loop: n more kids of the shell after the ones in `prior`. */
  function DecodeKids(s: seq<u8>, depth: nat, shell: Value, prior: seq<Value>, n: nat): (d: DecodedKids)
    ensures d.kids.Some? ==> d.used <= |s| && |d.kids.value| == |prior| + n
    decreases MAX_DEPTH + 2 - depth, 1 + n
  {
    if n == 0 then DecodedKids(Some(prior), 0, 0, 0)
    else
      var d := DecodeRec(s, depth);
      if d.val.None? || !KidOk(shell, prior, d.val.value) then DecodedKids(None, 0, d.slots, d.text)
      else
        var r := DecodeKids(s[d.used..], depth, shell, prior + [d.val.value], n - 1);
        DecodedKids(r.kids, d.used + r.used, d.slots + r.slots, d.text + r.text)
  }
}
