/** What the codec promises: round trip, canonicity, self-delimiting encodings, and
    a bound on what decoding may ask for. */
module WireTheorems {
  import opened Basics
  import opened Words
  import opened Values
  import opened Wire

  /** Small enough for a u64 length field to describe. */
  predicate Fits(v: Value) {
    |Enc(v)| <= SIZE_MAX
  }

  // ---- reading a fixed part back ----

  lemma Read32(s: seq<u8>, at: nat, n: u32)
    requires at + 4 <= |s| && s[at..at + 4] == LE(n, 4)
    ensures U32At(s, at) == n
  {
    Pow256Widths();
    ValLE(n, 4);
  }

  lemma Read64(s: seq<u8>, at: nat, n: u64)
    requires at + 8 <= |s| && s[at..at + 8] == LE(n, 8)
    ensures U64At(s, at) == n
  {
    Pow256Widths();
    ValLE(n, 8);
  }

  lemma Write32(s: seq<u8>, at: nat)
    requires at + 4 <= |s|
    ensures LE(U32At(s, at), 4) == s[at..at + 4]
  {
    LEVal(s[at..at + 4]);
  }

  lemma Write64(s: seq<u8>, at: nat)
    requires at + 8 <= |s|
    ensures LE(U64At(s, at), 8) == s[at..at + 8]
  {
    LEVal(s[at..at + 8]);
  }

  lemma Read64Front(p: seq<u8>, rest: seq<u8>, n: u64)
    requires |p| >= 8 && p[..8] == LE(n, 8)
    ensures U64At(p + rest, 0) == n
  {
    assert (p + rest)[0..8] == p[..8];
    Read64(p + rest, 0, n);
  }

  lemma PayloadScalar(v: Value, rest: seq<u8>)
    requires NodeOk(v) && Ty(v) <= TY_CHAR
    ensures ParseScalar(Ty(v), Payload(v) + rest) == Some(Shell(v, 0, |Payload(v)|))
  {
    var p := Payload(v);
    match v {
      case Int(_, i) => Read64Front(p, rest, ToU64(i)); CastsInverse(i, 0);
      case UInt(_, u) => Read64Front(p, rest, u);
      case Float(_, bits) => Read64Front(p, rest, bits);
      case Char(_, ch) => assert (p + rest)[0..4] == p; Read32(p + rest, 0, ch);
      case _ =>
    }
  }

  lemma PayloadString(text: seq<u8>, rest: seq<u8>)
    requires |text| <= SIZE_MAX
    ensures ParseString(Payload(Str(0, text)) + rest) == Some(Shell(Str(0, text), 0, 8 + |text|))
  {
    var p := Payload(Str(0, text));
    assert p[..8] == LE(|text|, 8);
    Read64Front(p, rest, |text|);
    assert (p + rest)[8..8 + |text|] == text;
  }

  lemma PayloadTagged(v: Value, rest: seq<u8>)
    requires NodeOk(v) && (v.List? || v.Map?) && |Kids(v)| <= SIZE_MAX && Plausible(|rest|, |Kids(v)|)
    ensures ParseTagged(Ty(v), Payload(v) + rest) == Some(Shell(WithKids(v, []), |Kids(v)|, 12))
  {
    var p, e := Payload(v), if v.List? then v.elemTy else v.keyTy;
    assert p == LE(|Kids(v)|, 8) + LE(e, 4);
    Read64Front(p, rest, |Kids(v)|);
    assert (p + rest)[8..12] == LE(e, 4);
    Read32(p + rest, 8, e);
  }

  lemma PayloadCounted(v: Value, rest: seq<u8>)
    requires NodeOk(v) && (v.Tuple? || v.Record? || v.Sum?)
    requires |Kids(v)| <= SIZE_MAX && Plausible(|rest|, |Kids(v)|)
    ensures ParseCounted(Ty(v), v.tag, Payload(v) + rest) == Some(Shell(WithKids(v, []), |Kids(v)|, 8))
  {
    Read64Front(Payload(v), rest, |Kids(v)|);
  }

  lemma PayloadReads(v: Value, rest: seq<u8>)
    requires NodeOk(v)
    requires |Kids(v)| <= SIZE_MAX && (v.Str? ==> |v.text| <= SIZE_MAX)
    requires Container(v) ==> Plausible(|rest|, |Kids(v)|)
    ensures ParsePayload(Ty(v), v.tag, Payload(v) + rest) ==
            Some(Shell(WithKids(v, []), |Kids(v)|, |Payload(v)|))
  {
    hide ParseScalar, ParseString, ParseTagged, ParseCounted;
    if v.Str? {
      PayloadString(v.text, rest);
    } else if v.List? || v.Map? {
      PayloadTagged(v, rest);
    } else if v.Tuple? || v.Record? || v.Sum? {
      PayloadCounted(v, rest);
    } else if !v.Opt? && !v.Res? {
      PayloadScalar(v, rest);
    }
  }

  /** A node's fixed part parses back to the node without its kids, whatever follows,
      as long as the bytes that follow make its kid count plausible. */
  lemma ParseFixed(v: Value, rest: seq<u8>)
    requires NodeOk(v)
    requires |Kids(v)| <= SIZE_MAX && (v.Str? ==> |v.text| <= SIZE_MAX)
    requires Container(v) ==> Plausible(|rest|, |Kids(v)|)
    ensures ParseShell(Fixed(v) + rest) == Some(Shell(WithKids(v, []), |Kids(v)|, |Fixed(v)|))
  {
    hide ParsePayload, Payload, WithKids, NodeOk;
    var s := Fixed(v) + rest;
    assert s[0..4] == LE(Ty(v), 4);
    assert s[4..8] == LE(v.tag, 4);
    Read32(s, 0, Ty(v));
    Read32(s, 4, v.tag);
    assert s[8..] == Payload(v) + rest;
    PayloadReads(v, rest);
  }

  // ---- spelling a parsed part again ----

  /** v is what a parsed shell becomes once the kids it announced are in place. */
  predicate Filled(sh: Shell, kids: seq<Value>, v: Value) {
    && v == WithKids(sh.v, kids)
    && Kids(v) == kids
    && NodeOk(v)
    && sh.v.Map? == v.Map?
    && (v.Str? ==> |v.text| <= SIZE_MAX)
    && |kids| <= SIZE_MAX
  }

  lemma SpellScalar(ty: u32, p: seq<u8>)
    requires ParseScalar(ty, p).Some?
    ensures var sh := ParseScalar(ty, p).value;
            Filled(sh, [], sh.v) && sh.n == 0 && Ty(sh.v) == ty && sh.v.tag == 0 && Payload(sh.v) == p[..sh.used]
  {
    if |p| >= 8 {
      Write64(p, 0);
      CastsInverse(0, U64At(p, 0));
    }
    if |p| >= 4 {
      Write32(p, 0);
    }
  }

  lemma SpellString(p: seq<u8>)
    requires ParseString(p).Some?
    ensures var sh := ParseString(p).value;
            Filled(sh, [], sh.v) && sh.n == 0 && Ty(sh.v) == TY_STRING && sh.v.tag == 0 && Payload(sh.v) == p[..sh.used]
  {
    hide LE, Val;
    var n := U64At(p, 0);
    Write64(p, 0);
    assert |p[8..8 + n]| == n;
    assert p[0..8] + p[8..8 + n] == p[..8 + n];
  }

  lemma SpellTagged(ty: u32, p: seq<u8>, kids: seq<Value>)
    requires ty == TY_LIST || ty == TY_MAP
    requires ParseTagged(ty, p).Some? && |kids| == ParseTagged(ty, p).value.n
    ensures var sh := ParseTagged(ty, p).value;
            var v := WithKids(sh.v, kids);
            Filled(sh, kids, v) && Ty(v) == ty && v.tag == 0 && Payload(v) == p[..sh.used]
  {
    Write64(p, 0);
    Write32(p, 8);
    assert p[0..8] + p[8..12] == p[..12];
  }

  lemma SpellCounted(ty: u32, tag: u32, p: seq<u8>, kids: seq<Value>)
    requires ty == TY_SUM || ((ty == TY_TUPLE || ty == TY_RECORD) && tag == 0)
    requires ParseCounted(ty, tag, p).Some? && |kids| == ParseCounted(ty, tag, p).value.n
    ensures var sh := ParseCounted(ty, tag, p).value;
            var v := WithKids(sh.v, kids);
            Filled(sh, kids, v) && Ty(v) == ty && v.tag == tag && Payload(v) == p[..sh.used]
  {
    Write64(p, 0);
    assert p[0..8] == p[..8];
  }

  lemma SpellPayload(ty: u32, tag: u32, p: seq<u8>, kids: seq<Value>)
    requires ParsePayload(ty, tag, p).Some? && |kids| == ParsePayload(ty, tag, p).value.n
    ensures var sh := ParsePayload(ty, tag, p).value;
            var v := WithKids(sh.v, kids);
            Filled(sh, kids, v) && Ty(v) == ty && v.tag == tag && Payload(v) == p[..sh.used]
  {
    hide ParseScalar, ParseString, ParseTagged, ParseCounted;
    if ty == TY_OPTION || ty == TY_RESULT {
      assert p[..0] == [];
    } else if ty == TY_SUM {
      SpellCounted(ty, tag, p, kids);
    } else if ty == TY_STRING {
      SpellString(p);
    } else if ty == TY_LIST || ty == TY_MAP {
      SpellTagged(ty, p, kids);
    } else if ty == TY_TUPLE || ty == TY_RECORD {
      SpellCounted(ty, tag, p, kids);
    } else {
      SpellScalar(ty, p);
    }
  }

  /** A parsed shell, given the kids its count announces, spells the bytes it read. */
  lemma ParseSpells(s: seq<u8>, kids: seq<Value>)
    requires ParseShell(s).Some? && |kids| == ParseShell(s).value.n
    ensures var sh := ParseShell(s).value;
            var v := WithKids(sh.v, kids);
            Filled(sh, kids, v) && Fixed(v) == s[..sh.used]
  {
    hide ParsePayload, Payload, WithKids, NodeOk;
    var sh := ParseShell(s).value;
    SpellPayload(U32At(s, 0), U32At(s, 4), s[8..], kids);
    Write32(s, 0);
    Write32(s, 4);
    assert s[0..4] + s[4..8] == s[..8];
    assert s[..8] + s[8..][..sh.used - 8] == s[..sh.used];
  }

  // ---- the round trip ----

  lemma {:induction false} FitsKids(v: Value)
    requires Fits(v)
    ensures |EncAll(Kids(v))| + |Fixed(v)| == |Enc(v)|
    ensures |Kids(v)| <= |EncAll(Kids(v))| / 8 <= SIZE_MAX
    ensures v.Str? ==> |v.text| <= SIZE_MAX
  {
    EncAllAtLeast(Kids(v));
  }

  lemma ShellShape(v: Value, kids: seq<Value>)
    ensures WithKids(WithKids(v, []), kids) == WithKids(v, kids)
    ensures WithKids(v, Kids(v)) == v
    ensures WithKids(v, []).Map? == v.Map?
    ensures forall i: nat, k :: KidTyOk(WithKids(v, []), i, k) == KidTyOk(v, i, k)
  {
  }

  /** One decoding step: the shell, then its kids. */
  lemma DecodeUnfold(s: seq<u8>, depth: nat, sh: Shell)
    requires depth <= MAX_DEPTH && ParseShell(s) == Some(sh)
    ensures var d := DecodeKids(s[sh.used..], depth + 1, sh.v, [], sh.n);
            && DecodeRec(s, depth).val == (if d.kids.None? then None else Some(WithKids(sh.v, d.kids.value)))
            && DecodeRec(s, depth).used == sh.used + d.used
  {
    hide ParseShell;
  }

  /** Decoding what was encoded, followed by anything at all, gives the value back and
      consumes exactly its bytes, if and only if every map in it has unique keys; a map
      with a repeated key, which the encoder accepts, is refused. */
  lemma {:induction false} RoundTrip(v: Value, depth: nat, tail: seq<u8>)
    requires Legal(v, depth) && Fits(v)
    ensures DecodeRec(Enc(v) + tail, depth).val == if UniqueKeys(v) then Some(v) else None
    ensures UniqueKeys(v) ==> DecodeRec(Enc(v) + tail, depth).used == |Enc(v)|
    decreases Nodes(v), 0
  {
    hide ParseShell, WithKids, Fixed, NodeOk, DecodeRec, DecodeKids, Payload;
    NodesKids(v);
    FitsKids(v);
    var kids := Kids(v);
    var rest := EncAll(kids) + tail;
    var s := Enc(v) + tail;
    assert s == Fixed(v) + rest;
    ParseFixed(v, rest);
    ShellShape(v, kids);
    var sh := Shell(WithKids(v, []), |kids|, |Fixed(v)|);
    DecodeUnfold(s, depth, sh);
    assert s[|Fixed(v)|..] == rest;
    RoundTripKids(v, [], kids, depth + 1, tail);
    assert [] + kids == kids;
  }

  /** The element loop, part way: `prior` decoded, `rest` still to come. */
  lemma {:induction false} RoundTripKids(v: Value, prior: seq<Value>, rest: seq<Value>, depth: nat, tail: seq<u8>)
    requires Kids(v) == prior + rest
    requires KidTysOkFrom(v, 0) && LegalAll(rest, depth) && |EncAll(rest)| <= SIZE_MAX
    ensures var d := DecodeKids(EncAll(rest) + tail, depth, WithKids(v, []), prior, |rest|);
            var ok := UniqueKeysAll(rest) && (v.Map? ==> KeysApartFrom(v.slots, |prior|));
            d.kids == (if ok then Some(prior + rest) else None) && (ok ==> d.used == |EncAll(rest)|)
    decreases NodesAll(rest), 1 + |rest|
  {
    hide ParseShell, WithKids, Fixed, DecodeRec, Enc, Legal, UniqueKeys, ValueEq;
    if rest == [] {
      assert prior + rest == prior;
    } else {
      var k, more := rest[0], rest[1..];
      var s := EncAll(rest) + tail;
      assert Kids(v)[|prior|] == k;
      assert s == Enc(k) + (EncAll(more) + tail);
      assert s[|Enc(k)|..] == EncAll(more) + tail;
      RoundTrip(k, depth, EncAll(more) + tail);
      assert prior + rest == (prior + [k]) + more;
      ShellShape(v, []);
      assert KidTyOk(v, |prior|, k);
      if v.Map? {
        KeysApartStep(v.slots, prior, k, more);
      }
      RoundTripKids(v, prior + [k], more, depth, tail);
    }
  }

  lemma KeysApartStep(slots: seq<Value>, prior: seq<Value>, k: Value, more: seq<Value>)
    requires slots == prior + [k] + more
    ensures KeysApartFrom(slots, |prior|) ==
            ((|prior| % 2 == 0 ==> forall j | 0 <= j < |prior| && j % 2 == 0 :: !ValueEq(prior[j], k)) &&
             KeysApartFrom(slots, |prior| + 1))
  {
    assert forall j | 0 <= j < |prior| :: slots[j] == prior[j];
    assert slots[|prior|] == k;
  }

  // ---- canonicity ----

  lemma SplitTake(s: seq<u8>, a: nat, b: nat)
    requires a + b <= |s|
    ensures s[..a] + s[a..][..b] == s[..a + b]
  {
  }

  lemma Regroup(prior: seq<Value>, k: Value, tail: seq<Value>)
    ensures prior + ([k] + tail) == prior + [k] + tail
  {
  }

  /** Whatever bytes decode to v, v's own encoding is those bytes: one value has one
      byte string. What decodes is also encodable and has unique map keys. */
  lemma {:induction false} Canonical(s: seq<u8>, depth: nat)
    requires DecodeRec(s, depth).val.Some?
    ensures var d := DecodeRec(s, depth);
            Enc(d.val.value) == s[..d.used] && Legal(d.val.value, depth) && UniqueKeys(d.val.value)
    decreases MAX_DEPTH + 2 - depth, 0
  {
    hide ParseShell, WithKids, Fixed, NodeOk, Payload, DecodeKids;
    var sh := ParseShell(s).value;
    DecodeUnfold(s, depth, sh);
    var r := DecodeKids(s[sh.used..], depth + 1, sh.v, [], sh.n);
    var kids := CanonicalKids(s[sh.used..], depth + 1, sh.v, [], sh.n);
    assert [] + kids == kids;
    var v := WithKids(sh.v, kids);
    ParseSpells(s, kids);
    SplitTake(s, sh.used, r.used);
    NodesKids(v);
    KidTysAfterFill(sh.v, kids);
  }

  lemma KidTysAfterFill(shell: Value, kids: seq<Value>)
    requires Kids(WithKids(shell, kids)) == kids
    requires KidTysOkAt(shell, 0, kids)
    ensures KidTysOkFrom(WithKids(shell, kids), 0)
    ensures WithKids(shell, kids).Map? ==> WithKids(shell, kids).slots == kids
  {
    assert forall i | 0 <= i < |kids| :: KidTyOk(shell, 0 + i, kids[i]);
  }

  /** The three walks over a list of kids, one kid at a time. */
  lemma ConsAll(k: Value, more: seq<Value>, depth: nat)
    ensures EncAll([k] + more) == Enc(k) + EncAll(more)
    ensures LegalAll([k] + more, depth) == (Legal(k, depth) && LegalAll(more, depth))
    ensures UniqueKeysAll([k] + more) == (UniqueKeys(k) && UniqueKeysAll(more))
    ensures EncAll([]) == [] && LegalAll([], depth) && UniqueKeysAll([])
  {
    hide Enc, Legal, UniqueKeys;
    assert ([k] + more)[1..] == more;
  }

  lemma KeysApartPast(slots: seq<Value>, shell: Value)
    ensures KeysApartFrom(slots, |slots|)
    ensures KidTysOkAt(shell, |slots|, [])
  {
  }

  /** `more` may stand as shell's kids from position `at` on, by tag. */
  predicate KidTysOkAt(shell: Value, at: nat, more: seq<Value>) {
    forall i | 0 <= i < |more| :: KidTyOk(shell, at + i, more[i])
  }

  /** The kid check, made once per kid, is the check on the whole list. */
  lemma ConsKidOk(shell: Value, prior: seq<Value>, k: Value, tail: seq<Value>)
    requires KidOk(shell, prior, k) && KidTysOkAt(shell, |prior| + 1, tail)
    requires shell.Map? ==> KeysApartFrom(prior + [k] + tail, |prior| + 1)
    ensures KidTysOkAt(shell, |prior|, [k] + tail)
    ensures shell.Map? ==> KeysApartFrom(prior + [k] + tail, |prior|)
  {
    hide ValueEq, KeysApartFrom;
    KeysApartStep(prior + [k] + tail, prior, k, tail);
    forall i | 0 <= i < |[k] + tail|
      ensures KidTyOk(shell, |prior| + i, ([k] + tail)[i])
    {
      if i > 0 {
        assert KidTyOk(shell, |prior| + 1 + (i - 1), tail[i - 1]);
      }
    }
  }

  lemma {:induction false} CanonicalKids(s: seq<u8>, depth: nat, shell: Value, prior: seq<Value>, n: nat)
    returns (more: seq<Value>)
    requires DecodeKids(s, depth, shell, prior, n).kids.Some?
    ensures var d := DecodeKids(s, depth, shell, prior, n);
            && d.kids.value == prior + more
            && EncAll(more) == s[..d.used]
            && LegalAll(more, depth)
            && UniqueKeysAll(more)
            && KidTysOkAt(shell, |prior|, more)
            && (shell.Map? ==> KeysApartFrom(prior + more, |prior|))
    decreases MAX_DEPTH + 2 - depth, 1 + n
  {
    hide EncAll, LegalAll, UniqueKeysAll, ValueEq, DecodeRec, KeysApartFrom, KidOk, KidTysOkAt;
    more := [];
    ConsAll(shell, [], depth);
    assert prior + [] == prior;
    if n == 0 {
      KeysApartPast(prior, shell);
    } else {
      var d := DecodeRec(s, depth);
      var k, next := d.val.value, prior + [d.val.value];
      Canonical(s, depth);
      var r := DecodeKids(s[d.used..], depth, shell, next, n - 1);
      var tail := CanonicalKids(s[d.used..], depth, shell, next, n - 1);
      more := [k] + tail;
      Regroup(prior, k, tail);
      SplitTake(s, d.used, r.used);
      ConsAll(k, tail, depth);
      ConsKidOk(shell, prior, k, tail);
    }
  }

  /** Decode, then size and write: the input's own bytes and count come back. */
  lemma DecodeThenEncode(s: seq<u8>, depth: nat)
    requires |s| <= SIZE_MAX && DecodeRec(s, depth).val.Some?
    ensures var d := DecodeRec(s, depth);
            SizeRun(d.val.value, depth, 0) == Ok(d.used) && Enc(d.val.value) == s[..d.used]
  {
    hide DecodeRec, Legal, Enc, SizeRun;
    var d := DecodeRec(s, depth);
    Canonical(s, depth);
    SizeExact(d.val.value, depth, 0);
  }

  // ---- self delimiting ----

  /** No strict prefix of an encoding decodes to anything. */
  lemma PrefixRefused(v: Value, depth: nat, k: nat)
    requires Legal(v, depth) && Fits(v) && k < |Enc(v)|
    ensures DecodeRec(Enc(v)[..k], depth).val == None
  {
    hide DecodeRec, Legal, Enc, UniqueKeys;
    var s := Enc(v);
    var d := DecodeRec(s[..k], depth);
    if d.val.Some? {
      var w := d.val.value;
      Canonical(s[..k], depth);
      assert Enc(w) == s[..d.used];
      assert s == Enc(w) + s[d.used..];
      RoundTrip(w, depth, s[d.used..]);
      assert s == s + [];
      RoundTrip(v, depth, []);
      assert false;
    }
  }

  predicate AllEncodable(xs: seq<Value>, depth: nat) {
    LegalAll(xs, depth) && UniqueKeysAll(xs) && |EncAll(xs)| <= SIZE_MAX
  }

  /** Back to back encodings split in one way only. */
  lemma {:induction false} SplitsUniquely(xs: seq<Value>, ys: seq<Value>, depth: nat, tx: seq<u8>, ty: seq<u8>)
    requires AllEncodable(xs, depth) && AllEncodable(ys, depth)
    requires EncAll(xs) + tx == EncAll(ys) + ty
    ensures xs <= ys || ys <= xs
    ensures |xs| == |ys| ==> xs == ys && tx == ty
    decreases |xs|
  {
    hide DecodeRec, Enc, Legal, UniqueKeys;
    if xs != [] && ys != [] {
      var x, y := xs[0], ys[0];
      assert EncAll(xs) + tx == Enc(x) + (EncAll(xs[1..]) + tx);
      assert EncAll(ys) + ty == Enc(y) + (EncAll(ys[1..]) + ty);
      RoundTrip(x, depth, EncAll(xs[1..]) + tx);
      RoundTrip(y, depth, EncAll(ys[1..]) + ty);
      assert x == y;
      assert (EncAll(xs) + tx)[|Enc(x)|..] == EncAll(xs[1..]) + tx;
      assert (EncAll(ys) + ty)[|Enc(x)|..] == EncAll(ys[1..]) + ty;
      SplitsUniquely(xs[1..], ys[1..], depth, tx, ty);
      assert xs == [x] + xs[1..] && ys == [y] + ys[1..];
    } else if xs == [] && ys == [] {
      assert tx == EncAll(xs) + tx && ty == EncAll(ys) + ty;
    }
  }

  // ---- what decoding may ask for ----

  lemma Scale(m: nat, a: nat, b: nat)
    requires a <= b
    ensures m * a <= m * b
  {
    assert m * b == m * a + m * (b - a);
  }

  /** Over any input at all, accepted or refused, decoding asks its owner for at most
      64 value slots per 8 bytes of input, one eighth of the input per nesting level,
      and for no more string bytes than the input holds. */
  lemma {:induction false} AskBound(s: seq<u8>, depth: nat)
    requires depth <= MAX_DEPTH + 1
    ensures var d := DecodeRec(s, depth);
            && d.slots <= (65 - depth) * (|s| / 8)
            && d.text <= |s|
            && (d.val.Some? ==> d.slots + 1 <= d.used / 8 && d.text <= d.used)
    decreases MAX_DEPTH + 2 - depth, 0
  {
    hide ParseShell, WithKids, DecodeKids;
    Scale(65 - depth, 0, |s| / 8);
    if depth <= MAX_DEPTH && ParseShell(s).Some? {
      var sh := ParseShell(s).value;
      ShellAsks(s);
      var r := DecodeKids(s[sh.used..], depth + 1, sh.v, [], sh.n);
      AskBoundKids(s[sh.used..], depth + 1, sh.v, [], sh.n);
      AskTop(64 - depth, sh.n, r.slots, sh.used, |s|);
    }
  }

  lemma AskAtTop(s: seq<u8>)
    ensures var d := DecodeRec(s, 1);
            && d.slots <= 64 * (|s| / 8)
            && d.text <= |s|
            && (d.val.Some? ==> d.slots < d.used / 8 && d.text <= d.used <= |s|)
  {
    hide DecodeRec;
    AskBound(s, 1);
  }

  /** One more level adds at most one more eighth of the input. */
  lemma AskTop(m: nat, n: nat, r: nat, used: nat, len: nat)
    requires 8 <= used <= len
    requires n <= (len - used) / 8 || n == 1
    requires r <= m * ((len - used) / 8)
    ensures n + r <= (m + 1) * (len / 8)
  {
    var x, y := (len - used) / 8, len / 8;
    assert x + 1 <= y;
    Scale(m, x, y);
    assert (m + 1) * y == m * y + y;
  }

  /** A shell claims no more kids than the bytes behind it can hold, or a single box
      its own header pays for. */
  lemma ShellAsks(s: seq<u8>)
    requires ParseShell(s).Some?
    ensures var sh := ParseShell(s).value;
            && (sh.n <= (|s| - sh.used) / 8 || sh.n == 1)
            && (sh.v.Str? ==> |sh.v.text| + 16 == sh.used)
  {
  }

  /** A finished kid is paid for by its own bytes; the rest by what is left. */
  lemma AskSum(m: nat, a: nat, b: nat, used: nat, len: nat)
    requires m >= 1 && used <= len
    requires a <= used / 8 && b <= m * ((len - used) / 8)
    ensures a + b <= m * (len / 8)
  {
    var x, y := used / 8, (len - used) / 8;
    Scale(m, x + y, len / 8);
    assert m * (x + y) == m * x + m * y;
    Scale(x, 1, m);
  }

  lemma {:induction false} AskBoundKids(s: seq<u8>, depth: nat, shell: Value, prior: seq<Value>, n: nat)
    requires depth <= MAX_DEPTH + 1
    ensures var d := DecodeKids(s, depth, shell, prior, n);
            && d.slots <= (65 - depth) * (|s| / 8)
            && d.text <= |s|
            && (d.kids.Some? ==> d.slots + n <= d.used / 8 && d.text <= d.used)
    decreases MAX_DEPTH + 2 - depth, 1 + n
  {
    hide KidOk, DecodeRec, ValueEq;
    if n == 0 {
      Scale(65 - depth, 0, |s| / 8);
    } else {
      var d := DecodeRec(s, depth);
      AskBound(s, depth);
      if d.val.Some? && KidOk(shell, prior, d.val.value) {
        var r := DecodeKids(s[d.used..], depth, shell, prior + [d.val.value], n - 1);
        AskBoundKids(s[d.used..], depth, shell, prior + [d.val.value], n - 1);
        var m := 65 - depth;
        AskSum(m, d.slots, r.slots, d.used, |s|);
      }
    }
  }
}
