/** The park row's blobs as the runtime writes and reads them: sized, then written; walked
    by each value's own length. */
module ParkCodec {
  import opened Basics
  import opened Words
  import opened Values
  import opened Wire
  import opened WireTheorems
  import opened Park
  import E = Episodes
  import W = WireCodec

  // ---- the two passes ----

  /** park_encode_values: every value sized, then every value written. Where a value is
      both too big and not encodable, either refusal may win. */
  method EncodeValues(vals: seq<Value>) returns (r: Result<seq<u8>>)
    ensures r.Ok? <==> Encoded(vals).Ok?
    ensures r.Ok? ==> r == Encoded(vals)
    ensures r.Err? ==> (r.status == ErrType && !LegalAll(vals, 1)) || (r.status == ErrOom && |EncAll(vals)| > SIZE_MAX)
  {
    hide LegalAll, EncAll, Legal, Enc;
    NoVows();
    var total := 0;
    for i := 0 to |vals|
      invariant if total <= SIZE_MAX then LegalAll(vals[..i], 1) && total == |EncAll(vals[..i])|
        else |EncAll(vals[..i])| > SIZE_MAX
    {
      SizedNext(vals, i);
      var st, need := W.EncodeValue(vals[i], null);
      if st == ErrType {
        if LegalAll(vals, 1) {
          LegalAt(vals, i);
        }
        return Err(ErrType);
      }
      total := total + if need.Some? then need.value else SIZE_MAX + 1;
    }
    assert vals[..|vals|] == vals;
    if total > SIZE_MAX {
      return Err(ErrOom);
    }
    var buf := new u8[total](_ => 0);
    var off := 0;
    for i := 0 to |vals|
      invariant off == |EncAll(vals[..i])| <= total
      invariant buf[..off] == EncAll(vals[..i])
    {
      SizedNext(vals, i);
      RoomFor(vals, i);
      off := W.EncodeWrite(vals[i], buf, off);
    }
    assert vals[..|vals|] == vals && buf[..off] == buf[..];
    r := Ok(buf[..]);
  }

  lemma SizedNext(vals: seq<Value>, i: nat)
    requires i < |vals|
    ensures EncAll(vals[..i + 1]) == EncAll(vals[..i]) + Enc(vals[i])
    ensures LegalAll(vals[..i + 1], 1) == (LegalAll(vals[..i], 1) && Legal(vals[i], 1))
  {
    hide Legal, Enc;
    EncAllSnoc(vals, i);
    assert vals[..i + 1] == vals[..i] + [vals[i]];
    LegalAllConcat(vals[..i], [vals[i]], 1);
    assert LegalAll([vals[i]], 1) == (Legal(vals[i], 1) && LegalAll([vals[i]][1..], 1));
  }

  lemma LegalPrefix(vals: seq<Value>, i: nat)
    requires i <= |vals| && LegalAll(vals, 1)
    ensures LegalAll(vals[..i], 1)
  {
    assert vals == vals[..i] + vals[i..];
    LegalAllConcat(vals[..i], vals[i..], 1);
  }

  lemma LegalAt(vals: seq<Value>, i: nat)
    requires i < |vals| && LegalAll(vals, 1)
    ensures Legal(vals[i], 1)
  {
    LegalPrefix(vals, i + 1);
    SizedNext(vals, i);
  }

  lemma RoomFor(vals: seq<Value>, i: nat)
    requires i < |vals|
    ensures |EncAll(vals[..i])| + |Enc(vals[i])| <= |EncAll(vals)|
  {
    hide Legal, LegalAll, Enc;
    SizedNext(vals, i);
    assert vals == vals[..i + 1] + vals[i + 1..];
    EncAllConcat(vals[..i + 1], vals[i + 1..]);
  }

  /** The sizing pass over the payloads: a presence byte each, and the value behind it. */
  method SizeErrs(errs: seq<Value>) returns (st: Status, total: nat)
    ensures st == OK || st == ErrType
    ensures st == ErrType ==> !ErrsLegal(errs)
    ensures st == OK && total <= SIZE_MAX ==> ErrsLegal(errs) && total == |ErrsBytes(errs)|
    ensures st == OK && total > SIZE_MAX ==> |ErrsBytes(errs)| > SIZE_MAX
  {
    hide Legal, Enc, PayloadBytes, ErrsBytes;
    total := |errs|;
    NoPayloads();
    assert errs[..0] == [];
    for i := 0 to |errs|
      invariant total <= SIZE_MAX ==> forall j | 0 <= j < i && !Absent(errs[j]) :: Legal(errs[j], 1)
      invariant if total <= SIZE_MAX then total == |ErrsBytes(errs[..i])| + |errs| - i
        else |ErrsBytes(errs[..i])| + |errs| - i > SIZE_MAX
    {
      PayloadSnoc(errs, i);
      PayloadSpelled(errs[i]);
      if !Absent(errs[i]) {
        var need;
        st, need := W.EncodeValue(errs[i], null);
        if st == ErrType {
          return;
        }
        total := total + if need.Some? then need.value else SIZE_MAX + 1;
      }
    }
    assert errs[..|errs|] == errs;
    st := OK;
  }

  /** park_encode_errs: sized, then written. */
  method EncodeErrs(errs: seq<Value>) returns (r: Result<seq<u8>>)
    ensures r.Ok? <==> ErrsEncoded(errs).Ok?
    ensures r.Ok? ==> r == ErrsEncoded(errs)
    ensures r.Err? ==> (r.status == ErrType && !ErrsLegal(errs)) || (r.status == ErrOom && |ErrsBytes(errs)| > SIZE_MAX)
  {
    hide Legal, Enc, PayloadBytes, ErrsBytes, ErrsLegal;
    var st, total := SizeErrs(errs);
    if st != OK {
      return Err(st);
    }
    if total > SIZE_MAX {
      return Err(ErrOom);
    }
    NoPayloads();
    assert errs[..0] == [];
    var buf := new u8[total](_ => 0);
    var off := 0;
    for i := 0 to |errs|
      invariant off == |ErrsBytes(errs[..i])| <= total
      invariant buf[..off] == ErrsBytes(errs[..i])
    {
      PayloadSnoc(errs, i);
      PayloadRoom(errs, i);
      off := WritePayload(errs[i], buf, off);
    }
    assert errs[..|errs|] == errs && buf[..off] == buf[..];
    r := Ok(buf[..]);
  }

  method WritePayload(err: Value, buf: array<u8>, off: nat) returns (end: nat)
    requires off + |PayloadBytes(err)| <= buf.Length
    modifies buf
    ensures end == off + |PayloadBytes(err)| && buf[..end] == old(buf[..off]) + PayloadBytes(err)
  {
    hide Enc, PayloadBytes;
    PayloadSpelled(err);
    ghost var front := buf[..off];
    var mark := if Absent(err) then 0 else 1;
    buf[off] := mark;
    end := off + 1;
    ghost var marked := buf[..end];
    assert marked == front + [mark];
    if !Absent(err) {
      end := W.EncodeWrite(err, buf, end);
      assert buf[..end] == marked + Enc(err);
      assert (front + [1]) + Enc(err) == front + ([1] + Enc(err));
    }
  }

  lemma NoPayloads()
    ensures ErrsBytes([]) == []
  {
  }

  lemma PayloadSpelled(err: Value)
    ensures PayloadBytes(err) == if Absent(err) then [0] else [1] + Enc(err)
  {
  }

  lemma {:induction false} PayloadsConcat(a: seq<Value>, b: seq<Value>)
    ensures ErrsBytes(a + b) == ErrsBytes(a) + ErrsBytes(b)
    decreases |a|
  {
    hide PayloadBytes;
    if a == [] {
      assert a + b == b;
    } else {
      assert (a + b)[1..] == a[1..] + b;
      PayloadsConcat(a[1..], b);
    }
  }

  lemma PayloadSnoc(errs: seq<Value>, i: nat)
    requires i < |errs|
    ensures ErrsBytes(errs[..i + 1]) == ErrsBytes(errs[..i]) + PayloadBytes(errs[i])
  {
    hide PayloadBytes;
    assert errs[..i + 1] == errs[..i] + [errs[i]];
    PayloadsConcat(errs[..i], [errs[i]]);
    assert ErrsBytes([errs[i]]) == PayloadBytes(errs[i]) + ErrsBytes([errs[i]][1..]);
  }

  lemma PayloadRoom(errs: seq<Value>, i: nat)
    requires i < |errs|
    ensures |ErrsBytes(errs[..i])| + |PayloadBytes(errs[i])| <= |ErrsBytes(errs)|
  {
    hide PayloadBytes, ErrsBytes;
    PayloadSnoc(errs, i);
    assert errs == errs[..i + 1] + errs[i + 1..];
    PayloadsConcat(errs[..i + 1], errs[i + 1..]);
  }

  // ---- walking the blobs back ----

  /** Values read so far, before what the rest of a blob holds. */
  function After(vals: seq<Value>, rest: Option<seq<Value>>): Option<seq<Value>> {
    if rest.None? then None else Some(vals + rest.value)
  }

  /** The vow loop of a resume. */
  method ReadVows(owner: W.Owner, b: seq<u8>, tys: seq<u32>) returns (r: Option<seq<Value>>)
    modifies owner
    ensures r == DecodeVows(b, tys)
  {
    hide DecodeRec, Legal, Enc, UniqueKeys, DecodeVows;
    var vals: seq<Value>, off := [], 0;
    assert b[0..] == b && tys[0..] == tys;
    AfterNone(DecodeVows(b, tys));
    for i := 0 to |tys|
      invariant 0 <= off <= |b|
      invariant DecodeVows(b, tys) == After(vals, DecodeVows(b[off..], tys[i..]))
    {
      VowsStep(b[off..], tys, i, vals);
      var st, v, used := W.DecodeValue(owner, b[off..]);
      if st != OK || Ty(v) != tys[i] {
        return None;
      }
      vals := vals + [v];
      assert b[off..][used..] == b[off + used..];
      off := off + used;
    }
    VowsEnd(b[off..], tys);
    r := if off == |b| then Some(vals) else None;
    assert vals + [] == vals;
  }

  lemma AfterNone(rest: Option<seq<Value>>)
    ensures After([], rest) == rest
  {
    if rest.Some? {
      assert [] + rest.value == rest.value;
    }
  }

  lemma VowsEnd(b: seq<u8>, tys: seq<u32>)
    ensures DecodeVows(b, tys[|tys|..]) == if b == [] then Some([]) else None
  {
  }

  lemma VowsStep(b: seq<u8>, tys: seq<u32>, i: nat, vals: seq<Value>)
    requires i < |tys|
    ensures var d := DecodeRec(b, 1);
            After(vals, DecodeVows(b, tys[i..]))
            == if d.val.None? || Ty(d.val.value) != tys[i] then None
               else After(vals + [d.val.value], DecodeVows(b[d.used..], tys[i + 1..]))
  {
    hide DecodeRec;
    var d := DecodeRec(b, 1);
    assert tys[i..][0] == tys[i] && tys[i..][1..] == tys[i + 1..];
    if d.val.Some? {
      var rest := DecodeVows(b[d.used..], tys[i + 1..]);
      if rest.Some? {
        assert vals + ([d.val.value] + rest.value) == (vals + [d.val.value]) + rest.value;
      }
    }
  }

  /** The payload loop of a resume. */
  method ReadErrs(owner: W.Owner, b: seq<u8>, n: nat) returns (r: Option<seq<Value>>)
    modifies owner
    ensures r == DecodeErrs(b, n)
  {
    hide DecodeRec, Legal, Enc, UniqueKeys, DecodeErrs;
    var vals: seq<Value>, off := [], 0;
    assert b[0..] == b;
    AfterNone(DecodeErrs(b, n));
    for i := 0 to n
      invariant 0 <= off <= |b|
      invariant DecodeErrs(b, n) == After(vals, DecodeErrs(b[off..], n - i))
    {
      ErrsStep(b[off..], n - i, vals);
      if off >= |b| {
        return None;
      }
      var present := b[off];
      assert b[off..][0] == present && b[off..][1..] == b[off + 1..];
      off := off + 1;
      if present > 1 {
        return None;
      } else if present == 1 {
        var st, v, used := W.DecodeValue(owner, b[off..]);
        if st != OK {
          return None;
        }
        assert b[off - 1..][1 + used..] == b[off + used..];
        off := off + used;
        vals := vals + [v];
      } else {
        vals := vals + [E.ZERO];
      }
    }
    ErrsEnd(b[off..]);
    r := if off == |b| then Some(vals) else None;
    assert vals + [] == vals;
  }

  lemma ErrsEnd(b: seq<u8>)
    ensures DecodeErrs(b, 0) == if b == [] then Some([]) else None
  {
  }

  lemma ErrsStep(b: seq<u8>, n: nat, vals: seq<Value>)
    requires n > 0
    ensures After(vals, DecodeErrs(b, n))
            == if b == [] || b[0] > 1 then None
               else if b[0] == 0 then After(vals + [E.ZERO], DecodeErrs(b[1..], n - 1))
               else
                 var d := DecodeRec(b[1..], 1);
                 if d.val.None? then None else After(vals + [d.val.value], DecodeErrs(b[1 + d.used..], n - 1))
  {
    hide DecodeRec;
    if b != [] && b[0] <= 1 {
      var d := DecodeRec(b[1..], 1);
      var (v, k) := if b[0] == 0 then (E.ZERO, 1) else if d.val.Some? then (d.val.value, 1 + d.used) else (E.ZERO, 1);
      var rest := DecodeErrs(b[k..], n - 1);
      if rest.Some? {
        assert vals + ([v] + rest.value) == (vals + [v]) + rest.value;
      }
    }
  }
}
