/** Encodings fixed byte for byte: the repository's own reference encodings, one value of each
    kind, and a frame header. */
module Goldens {
  import opened Basics
  import opened Words
  import opened Values
  import opened Wire
  import WireCodec

  /** A number's eight bytes, low byte first. */
  lemma Eight(n: nat)
    ensures LE(n, 8) ==
            [n % 256, n / 0x100 % 256, n / 0x1_0000 % 256, n / 0x100_0000 % 256,
             n / 0x1_0000_0000 % 256, n / 0x100_0000_0000 % 256, n / 0x1_0000_0000_0000 % 256,
             n / 0x100_0000_0000_0000 % 256]
  {
    hide LE;
    var m := n / 0x1_0000_0000;
    LEUnroll4(n, 4);
    LEBytes(n);
    LEBytes(m);
    assert m / 0x100 == n / 0x100_0000_0000 && m / 0x1_0000 == n / 0x1_0000_0000_0000;
    assert m / 0x100_0000 == n / 0x100_0000_0000_0000;
  }

  /** A header: the tag of the kind and the variant tag. */
  lemma HeaderIs(v: Value)
    requires Ty(v) < 256 && v.tag < 256
    ensures Header(v) == [Ty(v), 0, 0, 0, v.tag, 0, 0, 0]
  {
    hide LE;
    LEBytes(Ty(v));
    LEBytes(v.tag);
  }

  lemma Counted(n: nat)
    requires n < 256
    ensures LE(n, 8) == [n, 0, 0, 0, 0, 0, 0, 0] && LE(n, 4) == [n, 0, 0, 0]
  {
    hide LE;
    Eight(n);
    LEBytes(n);
  }

  lemma Leaf(v: Value)
    requires Kids(v) == [] && Ty(v) < 256 && v.tag < 256
    ensures Enc(v) == [Ty(v), 0, 0, 0, v.tag, 0, 0, 0] + Payload(v)
  {
    hide LE;
    HeaderIs(v);
    assert Enc(v) == Fixed(v) + EncAll([]);
  }

  lemma One(v: Value, a: Value)
    requires Kids(v) == [a]
    ensures Enc(v) == Header(v) + Payload(v) + Enc(a)
  {
    hide LE, Payload, Header;
    assert [a][1..] == [];
    assert EncAll([a]) == Enc(a) + EncAll([]);
  }

  lemma Whole(v: Value)
    ensures Enc(v) == Header(v) + Payload(v) + EncAll(Kids(v))
  {
    hide LE, Payload, Header;
  }

  lemma Single(a: Value)
    ensures EncAll([a]) == Enc(a) && EncAll([]) == []
  {
    hide Enc;
    assert [a][1..] == [];
    assert EncAll([a]) == Enc(a) + EncAll([]);
  }

  lemma Pair(a: Value, b: Value)
    ensures EncAll([a, b]) == Enc(a) + Enc(b)
  {
    hide Enc;
    Single(b);
    assert [a, b][1..] == [b];
  }

  lemma Triple(a: Value, b: Value, c: Value)
    ensures EncAll([a, b, c]) == Enc(a) + (Enc(b) + Enc(c))
  {
    hide Enc;
    Pair(b, c);
    assert [a, b, c][1..] == [b, c];
  }

  lemma Quadruple(a: Value, b: Value, c: Value, d: Value)
    ensures EncAll([a, b, c, d]) == Enc(a) + (Enc(b) + (Enc(c) + Enc(d)))
  {
    hide Enc;
    Triple(b, c, d);
    assert [a, b, c, d][1..] == [b, c, d];
  }

  lemma SmallInt(n: nat)
    requires n < 256
    ensures Enc(Int(0, n)) == [1, 0, 0, 0, 0, 0, 0, 0, n, 0, 0, 0, 0, 0, 0, 0]
  {
    hide LE;
    Counted(n);
    Leaf(Int(0, n));
  }

  lemma ShortText(text: seq<u8>)
    requires |text| < 256
    ensures Enc(Str(0, text)) == [7, 0, 0, 0, 0, 0, 0, 0, |text|, 0, 0, 0, 0, 0, 0, 0] + text
  {
    hide LE;
    Counted(|text|);
    Leaf(Str(0, text));
  }

  lemma True()
    ensures Enc(Bool(0, 1)) == [4, 0, 0, 0, 0, 0, 0, 0, 1]
  {
    hide LE;
    Leaf(Bool(0, 1));
  }

  /** Unit. */
  lemma UnitGolden()
    ensures Enc(Unit(0))
            == [0, 0, 0, 0, 0, 0, 0, 0]
  {
    hide LE, Enc, EncAll, Header;
    Leaf(Unit(0));
  }

  /** -42. */
  lemma IntGolden()
    ensures Enc(Int(0, -42))
            == [1, 0, 0, 0, 0, 0, 0, 0, 214, 255, 255, 255, 255, 255, 255, 255]
  {
    hide LE, Enc, EncAll, Header;
    Eight(ToU64(-42));
    Leaf(Int(0, -42));
  }

  /** 0xDEADBEEFCAFEBABE. */
  lemma UIntGolden()
    ensures Enc(UInt(0, 0xDEAD_BEEF_CAFE_BABE))
            == [2, 0, 0, 0, 0, 0, 0, 0, 190, 186, 254, 202, 239, 190, 173, 222]
  {
    hide LE, Enc, EncAll, Header;
    Eight(0xDEAD_BEEF_CAFE_BABE);
    Leaf(UInt(0, 0xDEAD_BEEF_CAFE_BABE));
  }

  /** -2.5. */
  lemma FloatGolden()
    ensures Enc(Float(0, 0xC004_0000_0000_0000))
            == [3, 0, 0, 0, 0, 0, 0, 0, 0, 0, 0, 0, 0, 0, 4, 192]
  {
    hide LE, Enc, EncAll, Header;
    Eight(0xC004_0000_0000_0000);
    Leaf(Float(0, 0xC004_0000_0000_0000));
  }

  /** 0xA5. */
  lemma ByteGolden()
    ensures Enc(Byte(0, 0xA5))
            == [5, 0, 0, 0, 0, 0, 0, 0, 165]
  {
    hide LE, Enc, EncAll, Header;
    Leaf(Byte(0, 0xA5));
  }

  /** U+1F600. */
  lemma CharGolden()
    ensures Enc(Char(0, 0x1F600))
            == [6, 0, 0, 0, 0, 0, 0, 0, 0, 246, 1, 0]
  {
    hide LE, Enc, EncAll, Header;
    LEBytes(0x1F600);
    Leaf(Char(0, 0x1F600));
  }

  /** None. */
  lemma NoneGolden()
    ensures Enc(Opt(0, None))
            == [11, 0, 0, 0, 0, 0, 0, 0]
  {
    hide LE, Enc, EncAll, Header;
    Leaf(Opt(0, None));
  }

  /** Some(7). */
  lemma SomeGolden()
    ensures Enc(Opt(1, Some(Int(0, 7))))
            == [11, 0, 0, 0, 1, 0, 0, 0, 1, 0, 0, 0, 0, 0, 0, 0, 7, 0, 0, 0, 0, 0, 0, 0]
  {
    hide LE, Enc, EncAll, Header;
    var v := Opt(1, Some(Int(0, 7)));
    SmallInt(7);
    HeaderIs(v);
    One(v, Int(0, 7));
  }

  /** Ok(true). */
  lemma OkGolden()
    ensures Enc(Res(0, Some(Bool(0, 1))))
            == [12, 0, 0, 0, 0, 0, 0, 0, 4, 0, 0, 0, 0, 0, 0, 0, 1]
  {
    hide LE, Enc, EncAll, Header;
    var v := Res(0, Some(Bool(0, 1)));
    True();
    HeaderIs(v);
    One(v, Bool(0, 1));
  }

  /** Err(Some("deep")). */
  lemma ErrGolden()
    ensures Enc(Res(1, Some(Opt(1, Some(Str(0, [100, 101, 101, 112]))))))
            == [12, 0, 0, 0, 1, 0, 0, 0, 11, 0, 0, 0, 1, 0, 0, 0, 7, 0, 0, 0, 0, 0, 0, 0, 4, 0, 0, 0, 0, 0, 0, 0,
                100, 101, 101, 112]
  {
    hide LE, Enc, EncAll, Header;
    var text := Str(0, [100, 101, 101, 112]);
    var some := Opt(1, Some(text));
    ShortText([100, 101, 101, 112]);
    HeaderIs(some);
    One(some, text);
    HeaderIs(Res(1, Some(some)));
    One(Res(1, Some(some)), some);
  }

  /** A record of "card" and 42. */
  lemma RecordGolden()
    ensures Enc(Record(0, [Str(0, [99, 97, 114, 100]), Int(0, 42)]))
            == [13, 0, 0, 0, 0, 0, 0, 0]
               + [2, 0, 0, 0, 0, 0, 0, 0]
               + [7, 0, 0, 0, 0, 0, 0, 0, 4, 0, 0, 0, 0, 0, 0, 0, 99, 97, 114, 100]
               + [1, 0, 0, 0, 0, 0, 0, 0, 42, 0, 0, 0, 0, 0, 0, 0]
  {
    hide LE, Enc, EncAll, Header;
    var (text, n) := (Str(0, [99, 97, 114, 100]), Int(0, 42));
    ShortText([99, 97, 114, 100]);
    SmallInt(42);
    Counted(2);
    HeaderIs(Record(0, [text, n]));
    Whole(Record(0, [text, n]));
    Pair(text, n);
  }

  /** Variant 1 of "overflow" and 7. */
  lemma SumGolden()
    ensures Enc(Sum(1, [Str(0, [111, 118, 101, 114, 102, 108, 111, 119]), Int(0, 7)]))
            == [15, 0, 0, 0, 1, 0, 0, 0]
               + [2, 0, 0, 0, 0, 0, 0, 0]
               + [7, 0, 0, 0, 0, 0, 0, 0, 8, 0, 0, 0, 0, 0, 0, 0, 111, 118, 101, 114, 102, 108, 111, 119]
               + [1, 0, 0, 0, 0, 0, 0, 0, 7, 0, 0, 0, 0, 0, 0, 0]
  {
    hide LE, Enc, EncAll, Header;
    var (text, n) := (Str(0, [111, 118, 101, 114, 102, 108, 111, 119]), Int(0, 7));
    ShortText([111, 118, 101, 114, 102, 108, 111, 119]);
    SmallInt(7);
    Counted(2);
    HeaderIs(Sum(1, [text, n]));
    Whole(Sum(1, [text, n]));
    Pair(text, n);
  }

  /** [[1, 2], [3]]. */
  lemma ListGolden()
    ensures Enc(List(0, TY_LIST, [List(0, TY_INT, [Int(0, 1), Int(0, 2)]), List(0, TY_INT, [Int(0, 3)])]))
            == [8, 0, 0, 0, 0, 0, 0, 0]
               + [2, 0, 0, 0, 0, 0, 0, 0]
               + [8, 0, 0, 0]
               + [8, 0, 0, 0, 0, 0, 0, 0]
               + [2, 0, 0, 0, 0, 0, 0, 0]
               + [1, 0, 0, 0]
               + [1, 0, 0, 0, 0, 0, 0, 0, 1, 0, 0, 0, 0, 0, 0, 0]
               + [1, 0, 0, 0, 0, 0, 0, 0, 2, 0, 0, 0, 0, 0, 0, 0]
               + [8, 0, 0, 0, 0, 0, 0, 0]
               + [1, 0, 0, 0, 0, 0, 0, 0]
               + [1, 0, 0, 0]
               + [1, 0, 0, 0, 0, 0, 0, 0, 3, 0, 0, 0, 0, 0, 0, 0]
  {
    hide LE, Enc, EncAll, Header;
    var (a, b) := (List(0, TY_INT, [Int(0, 1), Int(0, 2)]), List(0, TY_INT, [Int(0, 3)]));
    SmallInt(1);
    SmallInt(2);
    SmallInt(3);
    Counted(1);
    Counted(2);
    Counted(TY_LIST);
    HeaderIs(a);
    HeaderIs(b);
    HeaderIs(List(0, TY_LIST, [a, b]));
    Whole(a);
    Pair(Int(0, 1), Int(0, 2));
    Whole(b);
    Single(Int(0, 3));
    Whole(List(0, TY_LIST, [a, b]));
    Pair(a, b);
  }

  /** {"ada": 37, "bob": 40}, in that order. */
  lemma MapGolden()
    ensures Enc(Map(0, TY_STRING, [Str(0, [97, 100, 97]), Int(0, 37), Str(0, [98, 111, 98]), Int(0, 40)]))
            == [9, 0, 0, 0, 0, 0, 0, 0]
               + [4, 0, 0, 0, 0, 0, 0, 0]
               + [7, 0, 0, 0]
               + [7, 0, 0, 0, 0, 0, 0, 0, 3, 0, 0, 0, 0, 0, 0, 0, 97, 100, 97]
               + [1, 0, 0, 0, 0, 0, 0, 0, 37, 0, 0, 0, 0, 0, 0, 0]
               + [7, 0, 0, 0, 0, 0, 0, 0, 3, 0, 0, 0, 0, 0, 0, 0, 98, 111, 98]
               + [1, 0, 0, 0, 0, 0, 0, 0, 40, 0, 0, 0, 0, 0, 0, 0]
  {
    hide LE, Enc, EncAll, Header;
    var (a, b) := (Str(0, [97, 100, 97]), Str(0, [98, 111, 98]));
    ShortText([97, 100, 97]);
    ShortText([98, 111, 98]);
    SmallInt(37);
    SmallInt(40);
    Counted(4);
    Counted(TY_STRING);
    HeaderIs(Map(0, TY_STRING, [a, Int(0, 37), b, Int(0, 40)]));
    Whole(Map(0, TY_STRING, [a, Int(0, 37), b, Int(0, 40)]));
    Quadruple(a, Int(0, 37), b, Int(0, 40));
  }

  /** ("alpha", 10, true). */
  lemma TupleGolden()
    ensures Enc(Tuple(0, [Str(0, [97, 108, 112, 104, 97]), Int(0, 10), Bool(0, 1)]))
            == [10, 0, 0, 0, 0, 0, 0, 0]
               + [3, 0, 0, 0, 0, 0, 0, 0]
               + [7, 0, 0, 0, 0, 0, 0, 0, 5, 0, 0, 0, 0, 0, 0, 0, 97, 108, 112, 104, 97]
               + [1, 0, 0, 0, 0, 0, 0, 0, 10, 0, 0, 0, 0, 0, 0, 0]
               + [4, 0, 0, 0, 0, 0, 0, 0, 1]
  {
    hide LE, Enc, EncAll, Header;
    var a := Str(0, [97, 108, 112, 104, 97]);
    ShortText([97, 108, 112, 104, 97]);
    SmallInt(10);
    True();
    Counted(3);
    HeaderIs(Tuple(0, [a, Int(0, 10), Bool(0, 1)]));
    Whole(Tuple(0, [a, Int(0, 10), Bool(0, 1)]));
    Triple(a, Int(0, 10), Bool(0, 1));
  }

  /** A FULFILL frame of 32 payload bytes, its request numbered 0x1122334455667788. */
  lemma FrameGolden()
    ensures WireCodec.FrameBytes(WireCodec.Frame(7, 0x1122_3344_5566_7788, 32))
            == [0x41, 0x53, 0x48, 0x57] + [7, 0, 0, 0] + [0x88, 0x77, 0x66, 0x55, 0x44, 0x33, 0x22, 0x11]
               + [32, 0, 0, 0]
  {
    hide LE;
    Eight(0x1122_3344_5566_7788);
    Counted(32);
    Counted(7);
  }
}
