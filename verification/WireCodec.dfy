/** The codec as it runs: a running total, a write position advanced through a byte
    array, and a cursor over untrusted bytes. Each is proved equal to the functions of
    Wire, whose properties are in WireTheorems. */
module WireCodec {
  import opened Basics
  import opened Words
  import opened Values
  import opened Wire
  import opened WireTheorems

  // ---- encode: the sizing pass ----

  /** Accumulates through the running total, refusing at the first fault. */
  method EncodeSize(v: Value, depth: nat, total: nat) returns (st: Status, end: nat)
    ensures SizeRun(v, depth, total) == if st == OK then Ok(end) else Err(st)
    decreases Nodes(v)
  {
    hide NodeOk, Payload, KidTyOk, SizeRunAll;
    end := total;
    if depth > MAX_DEPTH {
      return ErrType, end;
    }
    if 8 > SIZE_MAX - end {
      return ErrOom, end;
    }
    end := end + 8;
    if !NodeOk(v) {
      return ErrType, end;
    }
    var own := |Payload(v)|;
    if own > SIZE_MAX - end {
      return ErrOom, end;
    }
    end := end + own;
    var kids := Kids(v);
    NodesKids(v);
    ghost var start := end;
    var i := 0;
    while i < |kids|
      invariant i <= |kids|
      invariant SizeRunAll(v, kids, 0, depth + 1, start) == SizeRunAll(v, kids[i..], i, depth + 1, end)
    {
      NodesMember(kids, i);
      SizeRunFrom(v, kids, i, depth + 1, end);
      if !KidTyOk(v, i, kids[i]) {
        return ErrType, end;
      }
      st, end := EncodeSize(kids[i], depth + 1, end);
      if st != OK {
        return;
      }
      i := i + 1;
    }
    assert kids[0..] == kids && kids[|kids|..] == [];
    SizeRunNone(v, |kids|, depth + 1, end);
    st := OK;
  }

  lemma SizeRunFrom(v: Value, kids: seq<Value>, i: nat, depth: nat, total: nat)
    requires i < |kids|
    ensures SizeRunAll(v, kids[i..], i, depth, total)
            == if !KidTyOk(v, i, kids[i]) then Err(ErrType)
               else match SizeRun(kids[i], depth, total)
                 case Err(st) => Err(st)
                 case Ok(t) => SizeRunAll(v, kids[i + 1..], i + 1, depth, t)
  {
    hide KidTyOk, SizeRun;
    assert kids[i..][0] == kids[i] && kids[i..][1..] == kids[i + 1..];
  }

  lemma SizeRunNone(v: Value, i: nat, depth: nat, total: nat)
    ensures SizeRunAll(v, [], i, depth, total) == Ok(total)
  {
  }

  // ---- encode: the write pass ----

  /** s with `bytes` laid over it from p on. */
  ghost function Spliced(s: seq<u8>, p: nat, bytes: seq<u8>): (r: seq<u8>)
    requires p + |bytes| <= |s|
    ensures |r| == |s|
  {
    s[..p] + bytes + s[p + |bytes|..]
  }

  lemma SpliceTwice(s: seq<u8>, p: nat, x: seq<u8>, y: seq<u8>)
    requires p + |x| + |y| <= |s|
    ensures Spliced(Spliced(s, p, x), p + |x|, y) == Spliced(s, p, x + y)
  {
  }

  method PutU32(buf: array<u8>, p: nat, n: nat)
    requires p + 4 <= buf.Length
    modifies buf
    ensures buf[..] == Spliced(old(buf[..]), p, LE(n, 4))
  {
    LEBytes(n);
    buf[p] := n % 256;
    buf[p + 1] := n / 0x100 % 256;
    buf[p + 2] := n / 0x1_0000 % 256;
    buf[p + 3] := n / 0x100_0000 % 256;
  }

  method PutU64(buf: array<u8>, p: nat, n: nat)
    requires p + 8 <= buf.Length
    modifies buf
    ensures buf[..] == Spliced(old(buf[..]), p, LE(n, 8))
  {
    var lo, hi := n % 0x1_0000_0000, n / 0x1_0000_0000;
    SpliceTwice(buf[..], p, LE(lo, 4), LE(hi, 4));
    LESplit(n);
    PutU32(buf, p, lo);
    PutU32(buf, p + 4, hi);
  }

  /** The payload behind the header, arm by arm. */
  method WritePayload(v: Value, buf: array<u8>, p: nat) returns (q: nat)
    requires p + |Payload(v)| <= buf.Length
    modifies buf
    ensures q == p + |Payload(v)|
    ensures buf[..] == Spliced(old(buf[..]), p, Payload(v))
  {
    q := p;
    match v {
      case Int(_, i) => PutU64(buf, p, ToU64(i)); q := p + 8;
      case UInt(_, u) => PutU64(buf, p, u); q := p + 8;
      case Float(_, bits) => PutU64(buf, p, bits); q := p + 8;
      case Bool(_, b) => buf[p] := b; q := p + 1;
      case Byte(_, b) => buf[p] := b; q := p + 1;
      case Char(_, ch) => PutU32(buf, p, ch); q := p + 4;
      case Str(_, text) => q := WriteString(text, buf, p);
      case List(_, e, xs) => q := WriteTagged(|xs|, e, buf, p);
      case Map(_, k, xs) => q := WriteTagged(|xs|, k, buf, p);
      case Tuple(_, xs) => PutU64(buf, p, |xs|); q := p + 8;
      case Record(_, xs) => PutU64(buf, p, |xs|); q := p + 8;
      case Sum(_, xs) => PutU64(buf, p, |xs|); q := p + 8;
      case _ =>
    }
  }

  method WriteString(text: seq<u8>, buf: array<u8>, p: nat) returns (q: nat)
    requires p + 8 + |text| <= buf.Length
    modifies buf
    ensures q == p + 8 + |text|
    ensures buf[..] == Spliced(old(buf[..]), p, LE(|text|, 8) + text)
  {
    SpliceTwice(buf[..], p, LE(|text|, 8), text);
    PutU64(buf, p, |text|);
    CopyBytes(text, buf, p + 8);
    q := p + 8 + |text|;
  }

  /** memcpy of the string bytes. */
  method CopyBytes(text: seq<u8>, buf: array<u8>, p: nat)
    requires p + |text| <= buf.Length
    modifies buf
    ensures buf[..] == Spliced(old(buf[..]), p, text)
  {
    forall i | 0 <= i < |text| {
      buf[p + i] := text[i];
    }
  }

  method WriteTagged(count: nat, tag: u32, buf: array<u8>, p: nat) returns (q: nat)
    requires p + 12 <= buf.Length
    modifies buf
    ensures q == p + 12
    ensures buf[..] == Spliced(old(buf[..]), p, LE(count, 8) + LE(tag, 4))
  {
    SpliceTwice(buf[..], p, LE(count, 8), LE(tag, 4));
    PutU64(buf, p, count);
    PutU32(buf, p + 8, tag);
    q := p + 12;
  }

  method WriteHeader(v: Value, buf: array<u8>, p: nat)
    requires p + 8 <= buf.Length
    modifies buf
    ensures buf[..] == Spliced(old(buf[..]), p, Header(v))
  {
    SpliceTwice(buf[..], p, LE(Ty(v), 4), LE(v.tag, 4));
    PutU32(buf, p, Ty(v));
    PutU32(buf, p + 4, v.tag);
  }

  /** Writes v at p and answers the position after it; nothing else in the buffer moves. */
  method EncodeWrite(v: Value, buf: array<u8>, p: nat) returns (q: nat)
    requires p + |Enc(v)| <= buf.Length
    modifies buf
    ensures q == p + |Enc(v)|
    ensures buf[..] == Spliced(old(buf[..]), p, Enc(v))
    decreases Nodes(v)
  {
    hide Payload, Header, Enc, EncAll, Spliced;
    NodesKids(v);
    EncSplits(v);
    ghost var before := buf[..];
    SpliceTwice(before, p, Header(v), Payload(v));
    WriteHeader(v, buf, p);
    q := WritePayload(v, buf, p + 8);
    var kids := Kids(v);
    var i := 0;
    ghost var done := Fixed(v);
    while i < |kids|
      invariant i <= |kids|
      invariant done == Fixed(v) + EncAll(kids[..i])
      invariant q == p + |done|
      invariant |done| + |EncAll(kids[i..])| == |Enc(v)|
      invariant buf[..] == Spliced(before, p, done)
    {
      NodesMember(kids, i);
      EncAllSnoc(kids, i);
      EncAllHead(kids, i);
      SpliceTwice(before, p, done, Enc(kids[i]));
      q := EncodeWrite(kids[i], buf, q);
      done := done + Enc(kids[i]);
      i := i + 1;
    }
    assert kids[..|kids|] == kids;
  }

  lemma EncSplits(v: Value)
    ensures Enc(v) == Fixed(v) + EncAll(Kids(v)) && EncAll([]) == []
    ensures Kids(v)[..0] == [] && Kids(v)[0..] == Kids(v)
  {
  }

  lemma EncAllHead(xs: seq<Value>, i: nat)
    requires i < |xs|
    ensures EncAll(xs[i..]) == Enc(xs[i]) + EncAll(xs[i + 1..])
  {
    assert xs[i..][0] == xs[i] && xs[i..][1..] == xs[i + 1..];
  }

  /** geas_wire_encode_value: the size protocol. A refused value leaves `need` unset
      and the buffer alone; a buffer too small leaves it alone but says what is needed;
      otherwise exactly the encoding is written, and nothing around it. */
  method EncodeValue(v: Value, buf: array?<u8>) returns (st: Status, need: Option<nat>)
    modifies if buf == null then {} else {buf}
    ensures st == OK <==> Legal(v, 1) && Fits(v) && buf != null && |Enc(v)| <= buf.Length
    ensures need == if Legal(v, 1) && Fits(v) then Some(|Enc(v)|) else None
    ensures st == OK ==> buf[..] == Enc(v) + old(buf[|Enc(v)|..])
    ensures st != OK && buf != null ==> buf[..] == old(buf[..])
    ensures st in {OK, ErrType, ErrOom}
    ensures st == ErrType ==> !Legal(v, 1)
    ensures st == ErrOom && Legal(v, 1) && Fits(v) ==> buf == null || buf.Length < |Enc(v)|
    ensures st == ErrOom && need == None ==> !Fits(v)
  {
    hide Legal, Enc, SizeRun;
    SizeExact(v, 1, 0);
    var total;
    st, total := EncodeSize(v, 1, 0);
    if st != OK {
      return st, None;
    }
    need := Some(total);
    if buf == null || buf.Length < total {
      return ErrOom, need;
    }
    var _ := EncodeWrite(v, buf, 0);
    st := OK;
  }

  // ---- decode ----

  /** The cursor over untrusted bytes; Take is the one gate every read goes through. */
  class WireCur {
    const buf: seq<u8>
    var at: nat
    var left: nat

    ghost predicate Valid()
      reads this
    {
      at + left == |buf|
    }

    ghost function Rest(): (s: seq<u8>)
      requires Valid()
      reads this
      ensures |s| == left
    {
      buf[at..]
    }

    constructor (bytes: seq<u8>)
      ensures Valid() && buf == bytes && at == 0 && left == |bytes|
    {
      buf, at, left := bytes, 0, |bytes|;
    }

    method Take(n: nat) returns (ok: bool, from: nat)
      requires Valid()
      modifies this
      ensures Valid() && from == old(at)
      ensures ok == (n <= old(left))
      ensures at == old(at) + (if ok then n else 0)
      ensures ok ==> Rest() == old(Rest())[n..] && buf[from..from + n] == old(Rest())[..n]
      ensures !ok ==> Rest() == old(Rest())
    {
      from := at;
      ok := n <= left;
      if ok {
        at, left := at + n, left - n;
      }
    }
  }

  /** What decoding has asked the owning instance for so far. */
  class Owner {
    var slots: nat
    var text: nat

    constructor ()
      ensures slots == 0 && text == 0
    {
      slots, text := 0, 0;
    }
  }

  /** The string arm: the length is checked against what remains before any byte is
      asked for. */
  method ReadString(c: WireCur, owner: Owner) returns (r: Option<Shell>)
    requires c.Valid()
    modifies c, owner
    ensures c.Valid() && owner.slots == old(owner.slots)
    ensures r == ParseString(old(c.Rest()))
    ensures r.Some? ==> c.Rest() == old(c.Rest())[r.value.used..]
    ensures owner.text == old(owner.text) + (if r.Some? then r.value.used - 8 else 0)
  {
    ghost var p := c.Rest();
    var ok, h := c.Take(8);
    if !ok {
      return None;
    }
    assert c.buf[h..h + 8] == p[0..8];
    var len := U64At(c.buf, h);
    if len > c.left {
      return None;
    }
    var _, bytes := c.Take(len);
    owner.text := owner.text + len;
    assert c.buf[bytes..bytes + len] == p[8..8 + len];
    r := Some(Shell(Str(0, c.buf[bytes..bytes + len]), 0, 8 + len));
  }

  /** The fixed width arms. */
  method ReadScalar(c: WireCur, ty: u32) returns (r: Option<Shell>)
    requires c.Valid()
    modifies c
    ensures c.Valid()
    ensures r == ParseScalar(ty, old(c.Rest()))
    ensures r.Some? ==> c.Rest() == old(c.Rest())[r.value.used..]
  {
    ghost var p := c.Rest();
    if ty == TY_UNIT {
      return Some(Shell(Unit(0), 0, 0));
    }
    var width :=
      if ty == TY_INT || ty == TY_UINT || ty == TY_FLOAT then 8
      else if ty == TY_BOOL || ty == TY_BYTE then 1
      else if ty == TY_CHAR then 4
      else 0;
    if width == 0 {
      return None;
    }
    var ok, h := c.Take(width);
    if !ok {
      return None;
    }
    assert c.buf[h..h + width] == p[..width];
    if width == 8 {
      assert p[0..8] == p[..8];
      var u := U64At(c.buf, h);
      r := Some(Shell(if ty == TY_INT then Int(0, ToI64(u)) else if ty == TY_UINT then UInt(0, u)
        else Float(0, u), 0, 8));
    } else if width == 4 {
      assert p[0..4] == p[..4];
      var ch := U32At(c.buf, h);
      r := if ScalarValue(ch) then Some(Shell(Char(0, ch), 0, 4)) else None;
    } else {
      assert c.buf[h] == p[0];
      var b := c.buf[h];
      if ty == TY_BOOL {
        r := if b > 1 then None else Some(Shell(Bool(0, b), 0, 1));
      } else {
        r := Some(Shell(Byte(0, b), 0, 1));
      }
    }
  }

  /** List and map: a count and an element tag, the count checked before anything is
      asked for. */
  method ReadTagged(c: WireCur, ty: u32) returns (r: Option<Shell>)
    requires c.Valid() && (ty == TY_LIST || ty == TY_MAP)
    modifies c
    ensures c.Valid()
    ensures r == ParseTagged(ty, old(c.Rest()))
    ensures r.Some? ==> c.Rest() == old(c.Rest())[r.value.used..]
  {
    ghost var p := c.Rest();
    var ok, h := c.Take(12);
    if !ok {
      return None;
    }
    assert c.buf[h..h + 8] == p[0..8] && c.buf[h + 8..h + 12] == p[8..12];
    var count, e := U64At(c.buf, h), U32At(c.buf, h + 8);
    if ty == TY_LIST {
      if !Crosses(e) || !Plausible(c.left, count) {
        return None;
      }
      r := Some(Shell(List(0, e, []), count, 12));
    } else {
      if count % 2 != 0 || !Keyable(e) || !Plausible(c.left, count) {
        return None;
      }
      r := Some(Shell(Map(0, e, []), count, 12));
    }
  }

  method ReadCounted(c: WireCur, ty: u32, tag: u32) returns (r: Option<Shell>)
    requires c.Valid()
    modifies c
    ensures c.Valid()
    ensures r == ParseCounted(ty, tag, old(c.Rest()))
    ensures r.Some? ==> c.Rest() == old(c.Rest())[r.value.used..]
  {
    ghost var p := c.Rest();
    var ok, h := c.Take(8);
    if !ok {
      return None;
    }
    assert c.buf[h..h + 8] == p[0..8];
    var count := U64At(c.buf, h);
    if !Plausible(c.left, count) {
      return None;
    }
    var v := if ty == TY_TUPLE then Tuple(0, []) else if ty == TY_RECORD then Record(0, []) else Sum(tag, []);
    r := Some(Shell(v, count, 8));
  }

  /** The header and the switch on the tag it names. */
  method ReadShell(c: WireCur, owner: Owner) returns (r: Option<Shell>)
    requires c.Valid()
    modifies c, owner
    ensures c.Valid() && owner.slots == old(owner.slots)
    ensures r == ParseShell(old(c.Rest()))
    ensures r.Some? ==> c.Rest() == old(c.Rest())[r.value.used..]
    ensures owner.text == old(owner.text) + (if r.Some? && r.value.v.Str? then |r.value.v.text| else 0)
  {
    hide ParseScalar, ParseTagged, ParseCounted;
    ghost var s := c.Rest();
    var ok, h := c.Take(8);
    if !ok {
      return None;
    }
    assert c.buf[h..h + 4] == s[0..4] && c.buf[h + 4..h + 8] == s[4..8];
    var ty, tag := U32At(c.buf, h), U32At(c.buf, h + 4);
    ghost var p := c.Rest();
    if ty == TY_OPTION {
      r := if tag > 1 then None else Some(Shell(Opt(tag, None), tag, 0));
    } else if ty == TY_RESULT {
      r := if tag > 1 then None else Some(Shell(Res(tag, None), 1, 0));
    } else if ty == TY_SUM {
      r := ReadCounted(c, ty, tag);
      CountedNotStr(ty, tag, p);
    } else if tag != 0 {
      r := None;
    } else if ty == TY_STRING {
      r := ReadString(c, owner);
    } else if ty == TY_LIST || ty == TY_MAP {
      r := ReadTagged(c, ty);
      TaggedNotStr(ty, p);
    } else if ty == TY_TUPLE || ty == TY_RECORD {
      r := ReadCounted(c, ty, tag);
      CountedNotStr(ty, tag, p);
    } else {
      r := ReadScalar(c, ty);
      ScalarNotStr(ty, p);
    }
    if r.Some? {
      assert s[8..][r.value.used..] == s[8 + r.value.used..];
      r := Some(r.value.(used := 8 + r.value.used));
    }
  }

  lemma CountedNotStr(ty: u32, tag: u32, p: seq<u8>)
    ensures ParseCounted(ty, tag, p).Some? ==> !ParseCounted(ty, tag, p).value.v.Str?
  {
  }

  lemma TaggedNotStr(ty: u32, p: seq<u8>)
    ensures ParseTagged(ty, p).Some? ==> !ParseTagged(ty, p).value.v.Str?
  {
  }

  lemma ScalarNotStr(ty: u32, p: seq<u8>)
    ensures ParseScalar(ty, p).Some? ==> !ParseScalar(ty, p).value.v.Str?
  {
  }

  /** The linear scan of earlier keys for one equal to the key just decoded. */
  method KeySeen(data: array<Value>, n: nat, k: Value) returns (seen: bool)
    requires n <= data.Length
    ensures seen <==> exists j :: 0 <= j < n && j % 2 == 0 && ValueEq(data[j], k)
  {
    var j := 0;
    while j < n
      invariant j % 2 == 0
      invariant forall i | 0 <= i < j && i < n && i % 2 == 0 :: !ValueEq(data[i], k)
    {
      if ValueEq(data[j], k) {
        return true;
      }
      j := j + 2;
    }
    seen := false;
  }

  /** The check on the kid just decoded into data[i]. */
  method CheckKid(shell: Value, data: array<Value>, i: nat, kid: Value) returns (ok: bool)
    requires i <= data.Length
    ensures ok == KidOk(shell, data[..i], kid)
  {
    hide ValueEq;
    ok := KidTyOk(shell, i, kid);
    if ok && shell.Map? && i % 2 == 0 {
      var seen := KeySeen(data, i, kid);
      assert forall j | 0 <= j < i :: data[..i][j] == data[j];
      ok := !seen;
    }
  }

  /** decode_rec on the cursor. Its verdict, its value, its consumption and everything
      it asks of the owner are those of Wire.DecodeRec on the bytes that remained. */
  method DecodeRecAt(c: WireCur, owner: Owner, depth: nat) returns (st: Status, v: Value)
    requires c.Valid()
    modifies c, owner
    ensures c.Valid()
    ensures var d := DecodeRec(old(c.Rest()), depth);
            && st == (if d.val.Some? then OK else ErrType)
            && (st == OK ==> v == d.val.value && c.Rest() == old(c.Rest())[d.used..])
            && owner.slots == old(owner.slots) + d.slots
            && owner.text == old(owner.text) + d.text
    decreases MAX_DEPTH + 2 - depth, 0
  {
    hide ParseShell, WithKids, DecodeKids;
    v := Unit(0);
    if depth > MAX_DEPTH {
      return ErrType, v;
    }
    ghost var s := c.Rest();
    var sh := ReadShell(c, owner);
    if sh.None? {
      return ErrType, v;
    }
    owner.slots := owner.slots + sh.value.n;
    var kids;
    st, kids := DecodeKidsAt(c, owner, depth + 1, sh.value.v, sh.value.n);
    if st == OK {
      v := WithKids(sh.value.v, kids);
      ghost var d := DecodeKids(s[sh.value.used..], depth + 1, sh.value.v, [], sh.value.n);
      assert s[sh.value.used..][d.used..] == s[sh.value.used + d.used..];
    }
  }

  /** The element loop: n kids into a fresh array, stopping at the first refusal. */
  method DecodeKidsAt(c: WireCur, owner: Owner, depth: nat, shell: Value, n: nat) returns (st: Status, kids: seq<Value>)
    requires c.Valid()
    modifies c, owner
    ensures c.Valid()
    ensures var d := DecodeKids(old(c.Rest()), depth, shell, [], n);
            && st == (if d.kids.Some? then OK else ErrType)
            && (st == OK ==> kids == d.kids.value && c.Rest() == old(c.Rest())[d.used..])
            && owner.slots == old(owner.slots) + d.slots
            && owner.text == old(owner.text) + d.text
    decreases MAX_DEPTH + 2 - depth, 1
  {
    hide DecodeRec, DecodeKids, KidOk;
    var data := new Value[n];
    st, kids := OK, [];
    ghost var s := c.Rest();
    ghost var whole := DecodeKids(s, depth, shell, [], n);
    ghost var took := 0;
    var i := 0;
    assert data[..0] == [];
    while i < n
      invariant i <= n && c.Valid()
      invariant st == OK
      invariant 0 <= took <= |s| && c.Rest() == s[took..]
      invariant var r := DecodeKids(s[took..], depth, shell, data[..i], n - i);
                && whole.kids == r.kids
                && (whole.kids.Some? ==> whole.used == took + r.used)
                && whole.slots == owner.slots - old(owner.slots) + r.slots
                && whole.text == owner.text - old(owner.text) + r.text
    {
      ghost var prior := data[..i];
      ghost var d := DecodeRec(s[took..], depth);
      DecodeKidsStep(s[took..], depth, shell, prior, n - i);
      var kid;
      st, kid := DecodeRecAt(c, owner, depth);
      if st != OK {
        return;
      }
      assert s[took..][d.used..] == s[took + d.used..];
      took := took + d.used;
      var ok := CheckKid(shell, data, i, kid);
      if !ok {
        return ErrType, kids;
      }
      data[i] := kid;
      assert data[..i + 1] == prior + [kid];
      i := i + 1;
    }
    kids := data[..n];
    DecodeKidsDone(s[took..], depth, shell, kids);
  }

  lemma DecodeKidsDone(s: seq<u8>, depth: nat, shell: Value, prior: seq<Value>)
    ensures DecodeKids(s, depth, shell, prior, 0) == DecodedKids(Some(prior), 0, 0, 0)
  {
  }

  lemma DecodeKidsStep(s: seq<u8>, depth: nat, shell: Value, prior: seq<Value>, n: nat)
    requires n > 0
    ensures var d, all := DecodeRec(s, depth), DecodeKids(s, depth, shell, prior, n);
            if d.val.None? || !KidOk(shell, prior, d.val.value) then all == DecodedKids(None, 0, d.slots, d.text)
            else
              var r := DecodeKids(s[d.used..], depth, shell, prior + [d.val.value], n - 1);
              all == DecodedKids(r.kids, d.used + r.used, d.slots + r.slots, d.text + r.text)
  {
    hide DecodeRec, KidOk;
  }

  /** geas_wire_decode_value: one value off the front of a buffer, with the bytes it
      occupied; on a refusal the answer is a zeroed Unit and zero bytes consumed. The
      value is what the encoder turns back into those very bytes, and what was asked of
      the owner is bounded by the input whether or not it was accepted. */
  method DecodeValue(owner: Owner, buf: seq<u8>) returns (st: Status, v: Value, consumed: nat)
    modifies owner
    ensures var d := DecodeRec(buf, 1);
            && st == (if d.val.Some? then OK else ErrType)
            && (if st == OK then v == d.val.value && consumed == d.used else v == Unit(0) && consumed == 0)
    ensures st == OK ==> consumed <= |buf| && Enc(v) == buf[..consumed] && Legal(v, 1) && UniqueKeys(v)
    ensures owner.slots <= old(owner.slots) + 64 * (|buf| / 8)
    ensures owner.text <= old(owner.text) + |buf|
  {
    hide DecodeRec, Legal, Enc, UniqueKeys;
    var c := new WireCur(buf);
    assert c.Rest() == buf;
    AskAtTop(buf);
    st, v := DecodeRecAt(c, owner, 1);
    if st != OK {
      return st, Unit(0), 0;
    }
    Canonical(buf, 1);
    consumed := |buf| - c.left;
  }

  // ---- the frame header ----

  const MAGIC: seq<u8> := [0x41, 0x53, 0x48, 0x57]
  const HEADER_LEN: nat := 20
  const MAX_PAYLOAD: nat := 64 * 1024 * 1024
  const HELLO: nat := 1
  const ERROR: nat := 13

  datatype Frame = Frame(kind: u32, requestId: u64, payloadLen: u32)

  predicate FrameOk(f: Frame) {
    HELLO <= f.kind <= ERROR && f.payloadLen <= MAX_PAYLOAD
  }

  function FrameBytes(f: Frame): (b: seq<u8>)
    ensures |b| == HEADER_LEN
  {
    MAGIC + LE(f.kind, 4) + LE(f.requestId, 8) + LE(f.payloadLen, 4)
  }

  /** geas_wire_frame_write: refuses an unknown kind before an oversized payload, and
      writes nothing on either. */
  method FrameWrite(f: Frame, out: array<u8>) returns (st: Status)
    requires out.Length == HEADER_LEN
    modifies out
    ensures st == (if !(HELLO <= f.kind <= ERROR) then ErrType else if f.payloadLen > MAX_PAYLOAD then ErrOom else OK)
    ensures out[..] == if st == OK then FrameBytes(f) else old(out[..])
  {
    if f.kind < HELLO || f.kind > ERROR {
      return ErrType;
    }
    if f.payloadLen > MAX_PAYLOAD {
      return ErrOom;
    }
    out[0], out[1], out[2], out[3] := MAGIC[0], MAGIC[1], MAGIC[2], MAGIC[3];
    PutU32(out, 4, f.kind);
    PutU64(out, 8, f.requestId);
    PutU32(out, 16, f.payloadLen);
    assert out[..] == FrameBytes(f);
    st := OK;
  }

  /** geas_wire_frame_read. */
  function FrameRead(b: seq<u8>): Result<Frame>
    requires |b| == HEADER_LEN
  {
    if b[..4] != MAGIC then Err(ErrType)
    else
      var kind, len := U32At(b, 4), U32At(b, 16);
      if kind < HELLO || kind > ERROR then Err(ErrType)
      else if len > MAX_PAYLOAD then Err(ErrOom)
      else Ok(Frame(kind, U64At(b, 8), len))
  }

  lemma FrameForth(b: seq<u8>, f: Frame)
    requires |b| == HEADER_LEN && FrameOk(f) && b == FrameBytes(f)
    ensures FrameRead(b) == Ok(f)
  {
    hide U32At, U64At, LE;
    assert b[4..8] == LE(f.kind, 4) && b[8..16] == LE(f.requestId, 8) && b[16..20] == LE(f.payloadLen, 4);
    Read32(b, 4, f.kind);
    Read64(b, 8, f.requestId);
    Read32(b, 16, f.payloadLen);
    assert b[..4] == MAGIC;
  }

  lemma FrameBack(b: seq<u8>, f: Frame)
    requires |b| == HEADER_LEN && FrameRead(b) == Ok(f)
    ensures FrameOk(f) && b == FrameBytes(f)
  {
    hide U32At, U64At, LE;
    Write32(b, 4);
    Write64(b, 8);
    Write32(b, 16);
    assert b == b[..4] + b[4..8] + b[8..16] + b[16..20];
  }

  /** A header reads back as f exactly when it is f's bytes and f is sendable. */
  lemma FrameRoundTrip(b: seq<u8>, f: Frame)
    requires |b| == HEADER_LEN
    ensures FrameRead(b) == Ok(f) <==> FrameOk(f) && b == FrameBytes(f)
  {
    hide FrameRead, FrameBytes, FrameOk;
    if FrameOk(f) && b == FrameBytes(f) {
      FrameForth(b, f);
    }
    if FrameRead(b) == Ok(f) {
      FrameBack(b, f);
    }
  }
}
