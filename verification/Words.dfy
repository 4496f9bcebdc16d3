/** Machine words: the fixed widths of the ABI, two's complement reinterpretation,
    and the little endian spelling every encoded number has. */
module Words {
  type u8 = n: int | 0 <= n < 0x100
  type u32 = n: int | 0 <= n < 0x1_0000_0000
  type u64 = n: int | 0 <= n < 0x1_0000_0000_0000_0000
  type i64 = n: int | -0x8000_0000_0000_0000 <= n < 0x8000_0000_0000_0000

  const TWO63: int := 0x8000_0000_0000_0000
  const TWO64: int := 0x1_0000_0000_0000_0000

  /** The cast (uint64_t)i: same bits, read unsigned. */
  function ToU64(i: i64): (u: u64) {
    if i < 0 then i + TWO64 else i
  }

  /** The cast (int64_t)u: same bits, read signed. */
  function ToI64(u: u64): (i: i64) {
    if u < TWO63 then u else u - TWO64
  }

  /** The two casts undo one another, so a signed cell carries any 64 bits. */
  lemma CastsInverse(i: i64, u: u64)
    ensures ToI64(ToU64(i)) == i
    ensures ToU64(ToI64(u)) == u
  {
  }

  function Pow256(w: nat): (p: nat)
    ensures p >= 1
  {
    if w == 0 then 1 else 256 * Pow256(w - 1)
  }

  lemma Pow256Widths()
    ensures Pow256(4) == 0x1_0000_0000
    ensures Pow256(8) == 0x1_0000_0000_0000_0000
  {
    assert Pow256(2) == 0x1_0000;
    assert Pow256(4) == 256 * (256 * Pow256(2));
    assert Pow256(6) == 256 * (256 * Pow256(4));
    assert Pow256(8) == 256 * (256 * Pow256(6));
  }

  /** n in w little endian bytes, low byte first, truncated to the width. */
  function LE(n: nat, w: nat): (b: seq<u8>)
    ensures |b| == w
    decreases w
  {
    if w == 0 then [] else [n % 256] + LE(n / 256, w - 1)
  }

  /** The number w little endian bytes spell. */
  function Val(b: seq<u8>): (n: nat) {
    if b == [] then 0 else b[0] + 256 * Val(b[1..])
  }

  lemma {:induction false} ValLE(n: nat, w: nat)
    requires n < Pow256(w)
    ensures Val(LE(n, w)) == n
    decreases w
  {
    if w > 0 {
      assert n / 256 < Pow256(w - 1);
      ValLE(n / 256, w - 1);
      assert LE(n, w)[1..] == LE(n / 256, w - 1);
    }
  }

  lemma {:induction false} LEVal(b: seq<u8>)
    ensures Val(b) < Pow256(|b|)
    ensures LE(Val(b), |b|) == b
  {
    if b != [] {
      LEVal(b[1..]);
      var n, m := Val(b), Val(b[1..]);
      assert n == b[0] + 256 * m;
      assert n % 256 == b[0] && n / 256 == m;
      assert LE(n, |b|) == [n % 256] + LE(n / 256, |b| - 1);
      assert b == [b[0]] + b[1..];
    }
  }

  lemma ValWidths(b: seq<u8>)
    ensures |b| == 4 ==> Val(b) < 0x1_0000_0000
    ensures |b| == 8 ==> Val(b) < 0x1_0000_0000_0000_0000
  {
    LEVal(b);
    Pow256Widths();
  }

  lemma LEUnroll4(n: nat, w: nat)
    ensures LE(n, 4 + w) == LE(n, 4) + LE(n / 0x1_0000_0000, w)
  {
    hide LE;
    DivBytes(n);
    LEBytes(n);
    var a := n / 256;
    var b := a / 256;
    var c := b / 256;
    LEStep(n, 3 + w);
    LEStep(a, 2 + w);
    LEStep(b, 1 + w);
    LEStep(c, w);
    var rest := LE(c / 256, w);
    assert LE(n, 4 + w) == [n % 256] + ([a % 256] + ([b % 256] + ([c % 256] + rest)));
    assert LE(n, 4) == [n % 256, a % 256, b % 256, c % 256];
  }

  lemma LEStep(n: nat, w: nat)
    ensures LE(n, w + 1) == [n % 256] + LE(n / 256, w)
  {
  }

  lemma DivBytes(n: nat)
    ensures n / 256 / 256 == n / 0x1_0000 && n / 256 / 256 / 256 == n / 0x100_0000
    ensures n / 256 / 256 / 256 / 256 == n / 0x1_0000_0000
  {
  }

  lemma AboveByte(n: nat, q: nat)
    ensures (n + 256 * q) % 256 == n % 256 && (n + 256 * q) / 256 == n / 256 + q
  {
  }

  /** Truncation: bytes above the width do not show. */
  lemma {:induction false} LETruncates(n: nat, k: nat, w: nat)
    ensures LE(n + Pow256(w) * k, w) == LE(n, w)
    decreases w
  {
    if w > 0 {
      var q := Pow256(w - 1) * k;
      assert Pow256(w) * k == 256 * q;
      AboveByte(n, q);
      LETruncates(n / 256, k, w - 1);
    }
  }

  /** A u64 is its low u32 followed by its high u32. */
  lemma LESplit(n: nat)
    ensures LE(n, 8) == LE(n % 0x1_0000_0000, 4) + LE(n / 0x1_0000_0000, 4)
  {
    LEUnroll4(n, 4);
    Pow256Widths();
    LETruncates(n % 0x1_0000_0000, n / 0x1_0000_0000, 4);
  }

  /** The four shifts of a u32 spelled as bytes. */
  lemma LEBytes(n: nat)
    ensures LE(n, 4) == [n % 256, n / 0x100 % 256, n / 0x1_0000 % 256, n / 0x100_0000 % 256]
  {
    hide LE;
    DivBytes(n);
    LEStep(n, 3);
    LEStep(n / 256, 2);
    LEStep(n / 256 / 256, 1);
    LEStep(n / 256 / 256 / 256, 0);
    LENone(n / 256 / 256 / 256 / 256);
  }

  lemma LENone(n: nat)
    ensures LE(n, 0) == []
  {
  }
}
