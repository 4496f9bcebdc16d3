/** FNV-1a 64 in signed two's complement, and the 16 hex digits of its result. */
module Fnv {
  import opened Basics
  import opened Words

  const BASIS: u64 := 0xcbf2_9ce4_8422_2325
  const PRIME: u64 := 0x100_0000_01b3
  /** The prime's inverse modulo 2^64. */
  const INVERSE: u64 := 0xce96_5057_aff6_957b

  // ---- xor ----

  /** Bitwise xor of the low k bits. */
  function XorBits(a: nat, b: nat, k: nat): nat {
    if k == 0 then 0 else (if a % 2 == b % 2 then 0 else 1) + 2 * XorBits(a / 2, b / 2, k - 1)
  }

  function Pow2(k: nat): (p: nat)
    ensures p > 0
  {
    if k == 0 then 1 else 2 * Pow2(k - 1)
  }

  lemma {:induction false} XorBelow(a: nat, b: nat, k: nat)
    ensures XorBits(a, b, k) < Pow2(k)
  {
    if k > 0 {
      XorBelow(a / 2, b / 2, k - 1);
    }
  }

  /** Xor by the same number undoes itself. */
  lemma {:induction false} XorTwice(a: nat, b: nat, k: nat)
    requires a < Pow2(k)
    ensures XorBits(XorBits(a, b, k), b, k) == a
  {
    if k > 0 {
      var x := XorBits(a, b, k);
      assert x / 2 == XorBits(a / 2, b / 2, k - 1);
      XorTwice(a / 2, b / 2, k - 1);
    }
  }

  /** Different numbers leave different results. */
  lemma {:induction false} XorApart(a: nat, b: nat, c: nat, k: nat)
    requires b < Pow2(k) && c < Pow2(k) && b != c
    ensures XorBits(a, b, k) != XorBits(a, c, k)
  {
    if k > 0 {
      var (x, y) := (XorBits(a, b, k), XorBits(a, c, k));
      assert x / 2 == XorBits(a / 2, b / 2, k - 1) && y / 2 == XorBits(a / 2, c / 2, k - 1);
      if b / 2 != c / 2 {
        XorApart(a / 2, b / 2, c / 2, k - 1);
      } else {
        assert b % 2 != c % 2;
      }
    }
  }

  lemma Pow2Widths()
    ensures Pow2(8) == 256 && Pow2(64) == TWO64
  {
    assert Pow2(8) == 256;
    assert Pow2(16) == 0x1_0000;
    assert Pow2(24) == 0x100_0000;
    assert Pow2(32) == 0x1_0000_0000;
    assert Pow2(40) == 0x100_0000_0000;
    assert Pow2(48) == 0x1_0000_0000_0000;
    assert Pow2(56) == 0x100_0000_0000_0000;
  }

  function Xor(a: u64, b: u64): (r: u64) {
    XorBelow(a, b, 64);
    Pow2Widths();
    XorBits(a, b, 64)
  }

  /** Bit i of a number. */
  function Bit(a: nat, i: nat): nat {
    a / Pow2(i) % 2
  }

  lemma BitNext(a: nat, i: nat)
    ensures Bit(a, i + 1) == Bit(a / 2, i)
  {
    var p := Pow2(i);
    assert a / (2 * p) == a / 2 / p by {
      var (q, r) := (a / 2 / p, a / 2 % p);
      assert a / 2 == p * q + r;
      assert a == (2 * p) * q + (2 * r + a % 2) by {
        assert (2 * p) * q == 2 * (p * q);
      }
      Quotient(a, 2 * p, q, 2 * r + a % 2);
    }
  }

  /** Bit i of the result is one exactly when bits i of the two differ. */
  lemma {:induction false} XorBitsIs(a: nat, b: nat, k: nat, i: nat)
    requires i < k
    ensures Bit(XorBits(a, b, k), i) == if Bit(a, i) == Bit(b, i) then 0 else 1
  {
    var x := XorBits(a, b, k);
    assert x / 2 == XorBits(a / 2, b / 2, k - 1);
    if i > 0 {
      BitNext(x, i - 1);
      BitNext(a, i - 1);
      BitNext(b, i - 1);
      XorBitsIs(a / 2, b / 2, k - 1, i - 1);
    }
  }

  /** Each of the 64 bits is the exclusive or of the two. */
  lemma XorIs(a: u64, b: u64, i: nat)
    requires i < 64
    ensures Bit(Xor(a, b), i) == if Bit(a, i) == Bit(b, i) then 0 else 1
  {
    XorBitsIs(a, b, 64, i);
  }

  // ---- the algorithm, unsigned ----

  /** One byte of FNV-1a 64: xor, then multiply modulo 2^64. */
  function Step(h: u64, b: u8): u64 {
    Xor(h, b) * PRIME % TWO64
  }

  function Hash(h: u64, s: seq<u8>): u64 {
    if s == [] then h else Step(Hash(h, s[..|s| - 1]), s[|s| - 1])
  }

  /** FNV-1a 64 of a byte string. */
  function Fnv1a(s: seq<u8>): u64 {
    Hash(BASIS, s)
  }

  lemma {:induction false} XorNothing(a: nat, k: nat)
    requires a < Pow2(k)
    ensures XorBits(a, 0, k) == a
  {
    if k > 0 {
      XorNothing(a / 2, k - 1);
    }
  }

  /** A number of j bits leaves everything above them alone. */
  lemma {:induction false} XorHigh(high: nat, low: nat, b: nat, j: nat, k: nat)
    requires low < Pow2(j) && b < Pow2(j) && high < Pow2(k)
    ensures XorBits(low + Pow2(j) * high, b, j + k) == XorBits(low, b, j) + Pow2(j) * high
  {
    if j == 0 {
      XorNothing(high, k);
    } else {
      var (p, a) := (Pow2(j - 1), low + Pow2(j) * high);
      Associate(p, high);
      assert a / 2 == low / 2 + p * high && a % 2 == low % 2;
      XorHigh(high, low / 2, b / 2, j - 1, k);
    }
  }

  lemma Associate(p: int, x: int)
    ensures 2 * (p * x) == 2 * p * x
  {
  }

  /** The algorithm's published values for the empty string and for "a". */
  lemma Published()
    ensures Fnv1a([]) == 0xcbf2_9ce4_8422_2325
    ensures Fnv1a([0x61]) == 0xaf63_dc4c_8601_ec8c
  {
    hide Xor, Hash;
    FirstXor();
    FirstProduct();
    OneByte(BASIS, 0x61);
    NoBytes(BASIS);
  }

  lemma NoBytes(h: u64)
    ensures Hash(h, []) == h
  {
  }

  lemma FirstProduct()
    ensures 0xcbf2_9ce4_8422_2344 * PRIME % TWO64 == 0xaf63_dc4c_8601_ec8c
  {
    assert 0xcbf2_9ce4_8422_2344 * PRIME == 0xcb_f29c_e5de * TWO64 + 0xaf63_dc4c_8601_ec8c;
  }

  lemma FirstXor()
    ensures Xor(BASIS, 0x61) == 0xcbf2_9ce4_8422_2344
  {
    PowerOf56();
    XorHigh(0xcb_f29c_e484_2223, 0x25, 0x61, 8, 56);
    LowXor();
    hide XorBits;
    assert Pow2(8) == 256;
  }

  lemma LowXor()
    ensures XorBits(0x25, 0x61, 8) == 0x44
  {
    assert XorBits(0x0, 0x0, 1) == 0x0;
    assert XorBits(0x0, 0x1, 2) == 0x1;
    assert XorBits(0x1, 0x3, 3) == 0x2;
    assert XorBits(0x2, 0x6, 4) == 0x4;
    assert XorBits(0x4, 0xc, 5) == 0x8;
    assert XorBits(0x9, 0x18, 6) == 0x11;
    assert XorBits(0x12, 0x30, 7) == 0x22;
  }

  lemma PowerOf56()
    ensures Pow2(56) == 0x100_0000_0000_0000
  {
    assert Pow2(8) == 0x100;
    assert Pow2(16) == 0x1_0000;
    assert Pow2(24) == 0x100_0000;
    assert Pow2(32) == 0x1_0000_0000;
    assert Pow2(40) == 0x100_0000_0000;
    assert Pow2(48) == 0x1_0000_0000_0000;
  }

  // ---- the code, signed ----

  /** Int64 xor: the bit patterns', read back signed. */
  function SignedXor(a: i64, b: i64): i64 {
    ToI64(Xor(ToU64(a), ToU64(b)))
  }

  /** Int64 multiplication wraps. */
  function SignedMul(a: i64, b: i64): i64 {
    ToI64(a * b % TWO64)
  }

  const SIGNED_BASIS: i64 := -3750763034362895579

  lemma SignedStep(h: i64, b: u8)
    ensures ToU64(SignedMul(SignedXor(h, b), PRIME)) == Step(ToU64(h), b)
  {
    var x := Xor(ToU64(h), b);
    CastsInverse(0, x);
    var y := ToI64(x);
    assert y * PRIME % TWO64 == x * PRIME % TWO64 by {
      if y != x {
        assert y * PRIME == x * PRIME - TWO64 * PRIME;
        ModSame(x * PRIME, PRIME);
      }
    }
    CastsInverse(0, x * PRIME % TWO64);
  }

  lemma ModSame(n: int, k: int)
    ensures (n - TWO64 * k) % TWO64 == n % TWO64
  {
  }

  /** The loop over int64 computes the unsigned hash: its bit pattern is FNV-1a 64. */
  method Fnv1a64(s: seq<u8>) returns (h: i64)
    ensures ToU64(h) == Fnv1a(s)
  {
    h := SIGNED_BASIS;
    var i := 0;
    while i < |s|
      invariant 0 <= i <= |s|
      invariant ToU64(h) == Hash(BASIS, s[..i])
    {
      assert s[..i + 1][..i] == s[..i];
      SignedStep(h, s[i]);
      h := SignedXor(h, s[i]);
      h := SignedMul(h, PRIME);
      i := i + 1;
    }
    assert s[..|s|] == s;
  }

  // ---- one byte's difference never cancels ----

  function Unstep(h: u64, b: u8): u64 {
    Xor(h * INVERSE % TWO64, b)
  }

  lemma InverseOf(x: u64)
    ensures (x * PRIME % TWO64) * INVERSE % TWO64 == x
    ensures (x * INVERSE % TWO64) * PRIME % TWO64 == x
  {
    var q, r := x * PRIME / TWO64, x * PRIME % TWO64;
    assert PRIME * INVERSE == 1 + 0xce_9650_590f * TWO64;
    assert r * INVERSE == x + TWO64 * (0xce_9650_590f * x - q * INVERSE);
    ModSame(x + TWO64 * (0xce_9650_590f * x - q * INVERSE), 0xce_9650_590f * x - q * INVERSE);
    var p, t := x * INVERSE / TWO64, x * INVERSE % TWO64;
    assert t * PRIME == x + TWO64 * (0xce_9650_590f * x - p * PRIME);
    ModSame(x + TWO64 * (0xce_9650_590f * x - p * PRIME), 0xce_9650_590f * x - p * PRIME);
  }

  lemma XorUndoes(a: u64, b: u8)
    ensures Xor(Xor(a, b), b) == a
  {
    Pow2Widths();
    XorTwice(a, b, 64);
  }

  /** Each byte permutes the hash states. */
  lemma StepBijects(h: u64, b: u8)
    ensures Unstep(Step(h, b), b) == h
    ensures Step(Unstep(h, b), b) == h
  {
    InverseOf(Xor(h, b));
    XorUndoes(h, b);
    InverseOf(h);
    XorUndoes(h * INVERSE % TWO64, b);
  }

  lemma {:induction false} HashApart(h: u64, g: u64, s: seq<u8>)
    requires h != g
    ensures Hash(h, s) != Hash(g, s)
    decreases |s|
  {
    if s != [] {
      var (front, b) := (s[..|s| - 1], s[|s| - 1]);
      HashApart(h, g, front);
      StepBijects(Hash(h, front), b);
      StepBijects(Hash(g, front), b);
    }
  }

  lemma {:induction false} HashAppend(h: u64, a: seq<u8>, b: seq<u8>)
    ensures Hash(h, a + b) == Hash(Hash(h, a), b)
    decreases |b|
  {
    if b == [] {
      assert a + b == a;
    } else {
      assert (a + b)[..|a + b| - 1] == a + b[..|b| - 1];
      HashAppend(h, a, b[..|b| - 1]);
    }
  }

  lemma StepApart(h: u64, a: u8, b: u8)
    requires a != b
    ensures Step(h, a) != Step(h, b)
  {
    Pow2Widths();
    XorApart(h, a, b, 64);
    InverseOf(Xor(h, a));
    InverseOf(Xor(h, b));
  }

  /** Two spellings that differ in exactly one byte never share a hash. */
  lemma OneByteApart(pre: seq<u8>, a: u8, b: u8, post: seq<u8>)
    requires a != b
    ensures Fnv1a(pre + [a] + post) != Fnv1a(pre + [b] + post)
  {
    hide Hash, Step;
    HashAppend(BASIS, pre + [a], post);
    HashAppend(BASIS, pre + [b], post);
    HashAppend(BASIS, pre, [a]);
    HashAppend(BASIS, pre, [b]);
    OneByte(Hash(BASIS, pre), a);
    OneByte(Hash(BASIS, pre), b);
    StepApart(Hash(BASIS, pre), a, b);
    HashApart(Step(Hash(BASIS, pre), a), Step(Hash(BASIS, pre), b), post);
  }

  lemma OneByte(h: u64, b: u8)
    ensures Hash(h, [b]) == Step(h, b)
  {
    assert [b][..0] == [];
  }

  // ---- the hex digits ----

  function Pow16(k: nat): (p: nat)
    ensures p > 0
  {
    if k == 0 then 1 else 16 * Pow16(k - 1)
  }

  function HexDigit(d: nat): (c: char)
    requires d < 16
    ensures c == "0123456789abcdef"[d]
  {
    if d >= 10 then (87 + d) as char else (48 + d) as char
  }

  predicate IsHex(c: char) {
    '0' <= c <= '9' || 'a' <= c <= 'f'
  }

  function HexValue(c: char): (d: nat)
    requires IsHex(c)
    ensures d < 16
  {
    if c <= '9' then c as int - 48 else c as int - 87
  }

  /** The number a run of hex digits spells, high digit first. */
  function ReadHex(s: string): nat
    requires forall i | 0 <= i < |s| :: IsHex(s[i])
  {
    if s == [] then 0 else 16 * ReadHex(s[..|s| - 1]) + HexValue(s[|s| - 1])
  }

  lemma DivDiv(n: int, p: nat)
    requires p > 0
    ensures n / (16 * p) == n / p / 16
  {
    var q, r := n / p, n % p;
    var a, d := q / 16, q % 16;
    assert n == p * q + r == p * (16 * a + d) + r;
    assert p * (16 * a + d) == (16 * p) * a + p * d by { Spread(p, a, d); }
    assert 0 <= p * d <= p * 15 by { Bound(p, d); }
    Quotient(n, 16 * p, a, p * d + r);
  }

  lemma Spread(p: int, a: int, d: int)
    ensures p * (16 * a + d) == (16 * p) * a + p * d
  {
  }

  lemma Bound(p: nat, d: nat)
    requires d <= 15
    ensures 0 <= p * d <= p * 15
  {
  }

  lemma MulApart(m: int, x: int)
    requires m > 0
    ensures x >= 1 ==> m * x >= m
    ensures x <= -1 ==> m * x <= -m
  {
    if x >= 1 {
      assert m * x == m + m * (x - 1);
    } else if x <= -1 {
      assert m * x == -m + m * (x + 1);
    }
  }

  lemma Quotient(n: int, m: int, q: int, r: int)
    requires m > 0 && n == m * q + r && 0 <= r < m
    ensures n / m == q
  {
    var k := n / m;
    assert n == m * k + n % m;
    assert m * (k - q) == m * k - m * q;
    MulApart(m, k - q);
  }

  lemma AddSixteens(a: int, k: int)
    ensures (a + 16 * k) % 16 == a % 16
  {
  }

  /** The arithmetic shift and mask of a signed state pick the unsigned one's digit. */
  lemma SignedDigit(h: i64, i: nat)
    requires i < 16
    ensures h / Pow16(i) % 16 == ToU64(h) / Pow16(i) % 16
  {
    hide Pow16;
    if h < 0 {
      var p, k := Pow16(i), Pow16(15 - i);
      PowersSplit(i);
      DivShift(h, p, 16 * k);
      AddSixteens(h / p, k);
    }
  }

  lemma {:induction false} PowersSplit(i: nat)
    requires i < 16
    ensures Pow16(i) * (16 * Pow16(15 - i)) == TWO64
  {
    if i == 0 {
      Pow16Top();
    } else {
      PowersSplit(i - 1);
      assert Pow16(15 - (i - 1)) == 16 * Pow16(15 - i);
      Regroup(Pow16(i - 1), Pow16(15 - i));
    }
  }

  lemma Regroup(p: int, k: int)
    ensures (16 * p) * (16 * k) == p * (16 * (16 * k))
  {
  }

  lemma Pow16Top()
    ensures Pow16(16) == TWO64 && Pow16(0) * (16 * Pow16(15)) == TWO64
  {
    assert Pow16(4) == 0x1_0000;
    assert Pow16(8) == 0x1_0000_0000;
    assert Pow16(12) == 0x1_0000_0000_0000;
  }

  lemma DivShift(n: int, p: int, k: int)
    requires p > 0
    ensures (n + p * k) / p == n / p + k
  {
    var q, r := n / p, n % p;
    assert n + p * k == p * (q + k) + r by { assert p * (q + k) == p * q + p * k; }
    Quotient(n + p * k, p, q + k, r);
  }

  lemma NextDigit(u: nat, i: nat)
    ensures u / Pow16(i) == 16 * (u / Pow16(i + 1)) + u / Pow16(i) % 16
  {
    DivDiv(u, Pow16(i));
  }

  lemma ReadSnoc(s: string, d: nat)
    requires (forall k | 0 <= k < |s| :: IsHex(s[k])) && d < 16
    ensures IsHex(HexDigit(d)) && forall k | 0 <= k < |s + [HexDigit(d)]| :: IsHex((s + [HexDigit(d)])[k])
    ensures ReadHex(s + [HexDigit(d)]) == 16 * ReadHex(s) + d
  {
    assert (s + [HexDigit(d)])[..|s|] == s;
  }

  /** hash_hex16: sixteen lowercase digits, high nibble first, that read back to the hash. */
  method HashHex16(h: i64) returns (out: string)
    ensures |out| == 16 && forall i | 0 <= i < |out| :: IsHex(out[i])
    ensures ReadHex(out) == ToU64(h)
  {
    ghost var u := ToU64(h);
    out := "";
    var i := 15;
    Pow16Top();
    assert u / Pow16(16) == 0;
    hide HexDigit;
    while i >= 0
      invariant -1 <= i <= 15 && |out| == 15 - i
      invariant forall k | 0 <= k < |out| :: IsHex(out[k])
      invariant ReadHex(out) == u / Pow16(i + 1)
    {
      SignedDigit(h, i);
      var d := h / Pow16(i) % 16;
      NextDigit(u, i);
      ReadSnoc(out, d);
      out := out + [HexDigit(d)];
      i := i - 1;
    }
  }
}
