/** GeasValue as an algebraic value: one constructor per type tag, each carrying
    the variant tag the C struct always has and the union arm that type reads. */
module Values {
  import opened Basics
  import opened Words

  const TY_UNIT: u32 := 0
  const TY_INT: u32 := 1
  const TY_UINT: u32 := 2
  const TY_FLOAT: u32 := 3
  const TY_BOOL: u32 := 4
  const TY_BYTE: u32 := 5
  const TY_CHAR: u32 := 6
  const TY_STRING: u32 := 7
  const TY_LIST: u32 := 8
  const TY_MAP: u32 := 9
  const TY_TUPLE: u32 := 10
  const TY_OPTION: u32 := 11
  const TY_RESULT: u32 := 12
  const TY_RECORD: u32 := 13
  const TY_PLEDGE_REF: u32 := 14
  const TY_SUM: u32 := 15
  const TY_INSTANCE: u32 := 16

  /** A tag past the end of the enum: garbage in the ty field. */
  type StrayTy = t: u32 | t > TY_INSTANCE witness 17

  datatype Value =
    | Unit(tag: u32)
    | Int(tag: u32, i: i64)
    | UInt(tag: u32, u: u64)
    | Float(tag: u32, bits: u64)
    | Bool(tag: u32, b: u8)
    | Byte(tag: u32, b: u8)
    | Char(tag: u32, ch: u32)
    | Str(tag: u32, text: seq<u8>)
    | List(tag: u32, elemTy: u32, items: seq<Value>)
    | Map(tag: u32, keyTy: u32, slots: seq<Value>)
    | Tuple(tag: u32, fields: seq<Value>)
    | Record(tag: u32, fields: seq<Value>)
    | Sum(tag: u32, fields: seq<Value>)
    | Opt(tag: u32, box: Option<Value>)
    | Res(tag: u32, box: Option<Value>)
    | PledgeRef(tag: u32)
    | Instance(tag: u32, handle: nat)
    | Stray(tag: u32, ty: StrayTy)

  function Ty(v: Value): u32 {
    match v
    case Unit(_) => TY_UNIT
    case Int(_, _) => TY_INT
    case UInt(_, _) => TY_UINT
    case Float(_, _) => TY_FLOAT
    case Bool(_, _) => TY_BOOL
    case Byte(_, _) => TY_BYTE
    case Char(_, _) => TY_CHAR
    case Str(_, _) => TY_STRING
    case List(_, _, _) => TY_LIST
    case Map(_, _, _) => TY_MAP
    case Tuple(_, _) => TY_TUPLE
    case Record(_, _) => TY_RECORD
    case Sum(_, _) => TY_SUM
    case Opt(_, _) => TY_OPTION
    case Res(_, _) => TY_RESULT
    case PledgeRef(_) => TY_PLEDGE_REF
    case Instance(_, _) => TY_INSTANCE
    case Stray(_, ty) => ty
  }

  /** The values a value holds, in the order every walk of it visits them. */
  function Kids(v: Value): seq<Value> {
    match v
    case List(_, _, xs) => xs
    case Map(_, _, xs) => xs
    case Tuple(_, xs) => xs
    case Record(_, xs) => xs
    case Sum(_, xs) => xs
    case Opt(_, Some(x)) => [x]
    case Res(_, Some(x)) => [x]
    case _ => []
  }

  /** v with other kids: the container a walk rebuilds around new parts. */
  function WithKids(v: Value, kids: seq<Value>): Value {
    match v
    case List(t, e, _) => List(t, e, kids)
    case Map(t, k, _) => Map(t, k, kids)
    case Tuple(t, _) => Tuple(t, kids)
    case Record(t, _) => Record(t, kids)
    case Sum(t, _) => Sum(t, kids)
    case Opt(t, _) => Opt(t, if kids == [] then None else Some(kids[0]))
    case Res(t, _) => Res(t, if kids == [] then None else Some(kids[0]))
    case _ => v
  }

  lemma RebuildSame(v: Value)
    ensures WithKids(v, Kids(v)) == v
  {
  }

  // ---- how big a value is, the measure every walk descends on ----

  function Nodes(v: Value): (n: nat)
    ensures n >= 1
    decreases v, 1
  {
    match v
    case List(_, _, xs) => 1 + NodesAll(xs)
    case Map(_, _, xs) => 1 + NodesAll(xs)
    case Tuple(_, xs) => 1 + NodesAll(xs)
    case Record(_, xs) => 1 + NodesAll(xs)
    case Sum(_, xs) => 1 + NodesAll(xs)
    case Opt(_, Some(x)) => 1 + Nodes(x)
    case Res(_, Some(x)) => 1 + Nodes(x)
    case _ => 1
  }

  function NodesAll(xs: seq<Value>): nat
    decreases xs, 0
  {
    if xs == [] then 0 else Nodes(xs[0]) + NodesAll(xs[1..])
  }

  lemma NodesKids(v: Value)
    ensures Nodes(v) == 1 + NodesAll(Kids(v))
  {
    match v {
      case Opt(_, Some(x)) => assert NodesAll([x]) == Nodes(x) + NodesAll([x][1..]);
      case Res(_, Some(x)) => assert NodesAll([x]) == Nodes(x) + NodesAll([x][1..]);
      case _ =>
    }
  }

  lemma {:induction false} NodesMember(xs: seq<Value>, i: nat)
    requires i < |xs|
    ensures Nodes(xs[i]) <= NodesAll(xs)
  {
    if i > 0 {
      NodesMember(xs[1..], i - 1);
    }
  }

  // ---- equality ----

  /** A NaN is a float whose exponent is all ones and whose fraction is not zero. */
  predicate IsNaN(bits: u64) {
    bits % 0x8000_0000_0000_0000 > 0x7FF0_0000_0000_0000
  }

  /** IEEE equality over the bits: no NaN equals anything, both zeros agree. */
  predicate FloatEq(a: u64, b: u64) {
    && !IsNaN(a)
    && !IsNaN(b)
    && (a == b || (a % 0x8000_0000_0000_0000 == 0 && b % 0x8000_0000_0000_0000 == 0))
  }

  /** geas_value_eq: scalars ignore the variant tag, containers and boxes compare it. */
  predicate ValueEq(a: Value, b: Value)
    decreases Nodes(a), 0
  {
    if Ty(a) != Ty(b) then false
    else if a.Unit? then true
    else if a.Int? then a.i == b.i
    else if a.UInt? then a.u == b.u
    else if a.Float? then FloatEq(a.bits, b.bits)
    else if a.Bool? || a.Byte? then a.b == b.b
    else if a.Char? then a.ch == b.ch
    else if a.Str? then a.text == b.text
    else if a.Instance? then a.handle == b.handle
    else if a.PledgeRef? || a.Stray? then false
    else
      NodesKids(a);
      a.tag == b.tag && ValueEqAll(Kids(a), Kids(b))
  }

  predicate ValueEqAll(xs: seq<Value>, ys: seq<Value>)
    decreases NodesAll(xs), 1 + |xs|
  {
    if |xs| != |ys| then false
    else if xs == [] then true
    else ValueEq(xs[0], ys[0]) && ValueEqAll(xs[1..], ys[1..])
  }

  // ---- maps ----

  /** tag_keyable: the scalars a map may be keyed by. */
  predicate Keyable(ty: u32) {
    ty in {TY_INT, TY_UINT, TY_BOOL, TY_BYTE, TY_CHAR, TY_STRING}
  }

  /** No key slot at or after `from` equals an earlier key slot. */
  predicate KeysApartFrom(slots: seq<Value>, from: nat) {
    forall j, i | 0 <= j < i < |slots| && from <= i && i % 2 == 0 && j % 2 == 0 ::
      !ValueEq(slots[j], slots[i])
  }

  /** Every map anywhere inside v has pairwise unequal keys. */
  predicate UniqueKeys(v: Value)
    decreases Nodes(v), 0
  {
    NodesKids(v);
    (v.Map? ==> KeysApartFrom(v.slots, 0)) && UniqueKeysAll(Kids(v))
  }

  predicate UniqueKeysAll(xs: seq<Value>)
    decreases NodesAll(xs), 1 + |xs|
  {
    xs == [] || (UniqueKeys(xs[0]) && UniqueKeysAll(xs[1..]))
  }

  lemma {:induction false} UniqueKeysAllConcat(xs: seq<Value>, ys: seq<Value>)
    ensures UniqueKeysAll(xs + ys) == (UniqueKeysAll(xs) && UniqueKeysAll(ys))
    decreases |xs|
  {
    if xs == [] {
      assert xs + ys == ys;
    } else {
      assert (xs + ys)[1..] == xs[1..] + ys;
      UniqueKeysAllConcat(xs[1..], ys);
    }
  }
}
