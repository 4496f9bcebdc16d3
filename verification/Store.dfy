/** The flat store surface over an abstract database: cells as the backend holds them, a
    parameter frame bound and a row read back, the two pass query, and the reconcile that
    creates a missing table or checks the one there is. */
module Stores {
  import opened Basics
  import opened Words
  import opened Values
  import G = GroupedSql

  // ---- cells ----

  /** What a cell holds. Conversions between the three are the backend's own. */
  datatype Cell = Integer(i: i64) | RealBits(bits: u64) | Blob(bytes: seq<u8>)

  predicate Scalar(ty: u32) {
    ty in {TY_INT, TY_UINT, TY_FLOAT, TY_BOOL, TY_BYTE, TY_CHAR, TY_STRING}
  }

  /** The cell a column of this type is stored in. */
  predicate StoredAs(cell: Cell, ty: u32) {
    match cell
    case Integer(_) => ty in {TY_INT, TY_UINT, TY_BOOL, TY_BYTE, TY_CHAR}
    case RealBits(_) => ty == TY_FLOAT
    case Blob(_) => ty == TY_STRING
  }

  /** bind_one: every integer as a signed 64 bit number, its bit pattern kept. */
  function Bind(v: Value): (r: Result<Cell>)
    ensures r.Ok? <==> Scalar(Ty(v))
    ensures r.Ok? ==> StoredAs(r.value, Ty(v))
    ensures r.Err? ==> r == Err(ErrType)
  {
    match v
    case Int(_, i) => Ok(Integer(i))
    case UInt(_, u) => Ok(Integer(ToI64(u)))
    case Float(_, bits) => Ok(RealBits(bits))
    case Bool(_, b) => Ok(Integer(b))
    case Byte(_, b) => Ok(Integer(b))
    case Char(_, ch) => Ok(Integer(ch))
    case Str(_, text) => Ok(Blob(text))
    case _ => Err(ErrType)
  }

  /** The field read_row makes of a cell under its column's type. */
  function ReadCell(cell: Cell, ty: u32): (v: Value)
    requires StoredAs(cell, ty)
    ensures Ty(v) == ty
  {
    match cell
    case Integer(i) =>
      if ty == TY_INT then Int(0, i)
      else if ty == TY_UINT then UInt(0, ToU64(i))
      else if ty == TY_BOOL then Bool(0, if i == 0 then 0 else 1)
      else if ty == TY_BYTE then Byte(0, i % 0x100)
      else Char(0, i % 0x1_0000_0000)
    case RealBits(bits) => Float(0, bits)
    case Blob(bytes) => Str(0, bytes)
  }

  /** A scalar bound and read back under its own type is the same value, exactly unless it
      is a Bool whose byte is neither 0 nor 1, or carries a stray variant tag. */
  lemma CellRoundTrip(v: Value)
    requires Scalar(Ty(v))
    ensures ReadCell(Bind(v).value, Ty(v)) == v <==> v.tag == 0 && (v.Bool? ==> v.b <= 1)
  {
    if v.UInt? {
      CastsInverse(0, v.u);
    }
  }

  /** A cell read under either integer width binds back to the same cell. */
  lemma CellRestored(cell: Cell, ty: u32)
    requires StoredAs(cell, ty) && ty != TY_BOOL && ty != TY_BYTE && ty != TY_CHAR
    ensures Bind(ReadCell(cell, ty)) == Ok(cell)
  {
    if cell.Integer? {
      CastsInverse(cell.i, 0);
    }
  }

  /** A cell wider than its column is cut to the column's low bits, of its two's complement;
      a Bool is whether it is zero. */
  lemma CellNarrows(i: i64)
    ensures ReadCell(Integer(i), TY_BOOL) == Bool(0, if i == 0 then 0 else 1)
    ensures ReadCell(Integer(i), TY_BYTE) == Byte(0, ToU64(i) % 0x100)
    ensures ReadCell(Integer(i), TY_CHAR) == Char(0, ToU64(i) % 0x1_0000_0000)
    ensures ReadCell(Integer(i), TY_UINT) == UInt(0, ToU64(i))
  {
  }

  /** bind_params: the whole frame, or the first refusal. */
  method BindParams(params: seq<Value>, placeholders: nat) returns (r: Result<seq<Cell>>)
    ensures |params| != placeholders ==> r == Err(ErrStore)
    ensures |params| == placeholders ==> (r.Ok? <==> forall i | 0 <= i < |params| :: Scalar(Ty(params[i])))
    ensures |params| == placeholders && r.Err? ==> r == Err(ErrType)
    ensures r.Ok? ==> |r.value| == |params| && forall i | 0 <= i < |params| :: Bind(params[i]) == Ok(r.value[i])
  {
    if placeholders != |params| {
      return Err(ErrStore);
    }
    var cells := [];
    for i := 0 to |params|
      invariant |cells| == i && forall j | 0 <= j < i :: Bind(params[j]) == Ok(cells[j])
    {
      var c := Bind(params[i]);
      if c.Err? {
        return Err(ErrType);
      }
      cells := cells + [c.value];
    }
    r := Ok(cells);
  }

  // ---- rows ----

  predicate RowFits(row: seq<Cell>, tys: seq<u32>) {
    |row| == |tys| && forall i | 0 <= i < |row| :: StoredAs(row[i], tys[i])
  }

  function Record1(row: seq<Cell>, tys: seq<u32>): (v: Value)
    requires RowFits(row, tys)
  {
    Record(0, seq(|row|, i requires 0 <= i < |row| => ReadCell(row[i], tys[i])))
  }

  method ReadRow(row: seq<Cell>, tys: seq<u32>) returns (v: Value)
    requires RowFits(row, tys)
    ensures v == Record1(row, tys)
    ensures v.Record? && v.tag == 0 && |v.fields| == |row|
    ensures forall i | 0 <= i < |row| :: v.fields[i] == ReadCell(row[i], tys[i])
  {
    var fields := new Value[|row|](_ => Unit(0));
    for i := 0 to |row|
      invariant forall j | 0 <= j < i :: fields[j] == ReadCell(row[j], tys[j])
    {
      fields[i] := ReadCell(row[i], tys[i]);
    }
    v := Record(0, fields[..]);
  }

  /** The statement stepped twice: once to count, once to fill a backbone of that size.
      When the two walks agree the answer is every row in order; when the second comes up
      short the slots left over stay zero, and when it runs long they are not read. */
  method Query(counted: seq<seq<Cell>>, filled: seq<seq<Cell>>, tys: seq<u32>) returns (rows: Value)
    requires forall k | 0 <= k < |filled| :: RowFits(filled[k], tys)
    ensures rows.List? && |rows.items| == |counted|
    ensures forall k | 0 <= k < |counted| :: rows.items[k] == if k < |filled| then Record1(filled[k], tys) else Unit(0)
    ensures rows.tag == 0 && rows.elemTy == TY_RECORD
    ensures forall k | 0 <= k < |counted| && k < |filled| ::
              && rows.items[k].Record? && |rows.items[k].fields| == |tys| == |filled[k]|
              && forall i | 0 <= i < |tys| ::
                   StoredAs(filled[k][i], tys[i]) && rows.items[k].fields[i] == ReadCell(filled[k][i], tys[i])
  {
    var n := 0;
    while n < |counted|
      invariant n <= |counted|
    {
      n := n + 1;
    }
    var backbone := new Value[n](_ => Unit(0));
    var j := 0;
    while j < |filled| && j < n
      invariant j <= |filled| && j <= n
      invariant forall k | 0 <= k < n :: backbone[k] == if k < j then Record1(filled[k], tys) else Unit(0)
    {
      backbone[j] := ReadRow(filled[j], tys);
      j := j + 1;
    }
    rows := List(0, TY_RECORD, backbone[..]);
    assert forall k | 0 <= k < |filled| :: RowFits(filled[k], tys);
  }

  // ---- reconcile ----

  type Table = seq<(string, string)>

  function SqlType(ty: u32): Option<string> {
    if ty in {TY_INT, TY_UINT, TY_BOOL, TY_BYTE, TY_CHAR} then Some("INTEGER")
    else if ty == TY_FLOAT then Some("REAL")
    else if ty == TY_STRING then Some("TEXT")
    else None
  }

  /** A column is declared as what its cells hold: the type and the cell agree. */
  lemma DeclaredAsStored(cell: Cell, ty: u32)
    ensures SqlType(ty).Some? <==> Scalar(ty)
    ensures StoredAs(cell, ty) <==>
            SqlType(ty) == Some(if cell.Integer? then "INTEGER" else if cell.RealBits? then "REAL" else "TEXT")
  {
  }

  predicate IdentOk(s: string) {
    s != "" && !('0' <= s[0] <= '9') && forall i | 0 <= i < |s| :: G.IsIdent(s[i])
  }

  function Lower(c: char): char {
    if 'A' <= c <= 'Z' then (c as int + 32) as char else c
  }

  /** store_ieq. */
  predicate SameType(a: string, b: string) {
    |a| == |b| && forall i | 0 <= i < |a| :: Lower(a[i]) == Lower(b[i])
  }

  /** A name is a letter or underscore, then letters, digits and underscores. */
  lemma IdentIs(s: string)
    ensures IdentOk(s) <==>
            && s != "" && s[0] !in "0123456789"
            && forall c | c in s :: c in G.LOWER || c in G.UPPER || c in "0123456789" || c == '_'
  {
    forall c ensures G.IsIdent(c) <==> c in G.LOWER || c in G.UPPER || c in "0123456789" || c == '_' {
      G.NameCharacters(c);
    }
    if s != "" {
      G.InDigits(s[0]);
    }
  }

  /** Types are compared without regard to the case of their letters, and to nothing else's. */
  lemma LowerIs(c: char, i: nat)
    ensures i < 26 ==> Lower(G.UPPER[i]) == G.LOWER[i]
    ensures c !in G.UPPER ==> Lower(c) == c
  {
    G.InUpper(c);
    if i < 26 {
      G.LowerAt(i);
      G.UpperAt(i);
    }
  }

  /** The table a schema creates. */
  function Columns(s: G.Schema): (t: Option<Table>)
    ensures t.Some? <==> forall i | 0 <= i < |s.cols| :: SqlType(s.cols[i].ty).Some?
    ensures t.Some? ==> |t.value| == |s.cols|
                        && forall i | 0 <= i < |s.cols| :: t.value[i] == (s.cols[i].name, SqlType(s.cols[i].ty).value)
  {
    if forall i | 0 <= i < |s.cols| :: SqlType(s.cols[i].ty).Some? then
      Some(seq(|s.cols|, i requires 0 <= i < |s.cols| => (s.cols[i].name, SqlType(s.cols[i].ty).value)))
    else None
  }

  predicate Matches(t: Table, s: G.Schema) {
    && |t| == |s.cols|
    && forall i | 0 <= i < |t| ::
         t[i].0 == s.cols[i].name && SqlType(s.cols[i].ty).Some? && SameType(t[i].1, SqlType(s.cols[i].ty).value)
  }

  method ValidateTable(t: Table, s: G.Schema) returns (st: Status)
    ensures st == if Matches(t, s) then OK else ErrType
  {
    for i := 0 to |t|
      invariant i <= |s.cols|
      invariant forall j | 0 <= j < i ::
                  t[j].0 == s.cols[j].name && SqlType(s.cols[j].ty).Some?
                    && SameType(t[j].1, SqlType(s.cols[j].ty).value)
    {
      if i >= |s.cols| {
        return ErrType;
      }
      var want := SqlType(s.cols[i].ty);
      if want.None? || t[i].0 != s.cols[i].name || !SameType(t[i].1, want.value) {
        return ErrType;
      }
    }
    st := if |t| == |s.cols| then OK else ErrType;
  }

  /** The first column of a kind no table holds, or with a name no table takes, among those
      from i on; the backend's own refusal comes after. */
  function CreateStatus(s: G.Schema, i: nat, backendOk: bool): (st: Status)
    requires i <= |s.cols|
    ensures st == OK <==>
            backendOk && forall j | i <= j < |s.cols| :: SqlType(s.cols[j].ty).Some? && IdentOk(s.cols[j].name)
    ensures st == ErrType <==>
            exists j | i <= j < |s.cols| ::
              SqlType(s.cols[j].ty).None?
              && forall k | i <= k < j :: SqlType(s.cols[k].ty).Some? && IdentOk(s.cols[k].name)
    ensures st in {OK, ErrType, ErrStore}
    decreases |s.cols| - i
  {
    if i == |s.cols| then if backendOk then OK else ErrStore
    else if SqlType(s.cols[i].ty).None? then ErrType
    else if !IdentOk(s.cols[i].name) then ErrStore
    else CreateStatus(s, i + 1, backendOk)
  }

  /** A database of tables; the backend may refuse a CREATE. */
  class Database {
    var tables: map<string, Table>

    constructor ()
      ensures tables == map[]
    {
      tables := map[];
    }

    method CreateTable(s: G.Schema, backendOk: bool) returns (st: Status)
      modifies this
      ensures st == OK ==> Columns(s).Some? && tables == old(tables)[s.table := Columns(s).value]
      ensures st != OK ==> tables == old(tables)
      ensures st == OK <==> Columns(s).Some? && (forall i | 0 <= i < |s.cols| :: IdentOk(s.cols[i].name)) && backendOk
      ensures st == CreateStatus(s, 0, backendOk)
    {
      for i := 0 to |s.cols|
        invariant forall j | 0 <= j < i :: SqlType(s.cols[j].ty).Some? && IdentOk(s.cols[j].name)
        invariant CreateStatus(s, 0, backendOk) == CreateStatus(s, i, backendOk)
      {
        if SqlType(s.cols[i].ty).None? {
          return ErrType;
        }
        if !IdentOk(s.cols[i].name) {
          return ErrStore;
        }
      }
      if !backendOk {
        return ErrStore;
      }
      tables := tables[s.table := Columns(s).value];
      st := OK;
    }

    /** geas_store_reconcile: a table with columns is checked and left alone, one without
        is created; success means the table there now is the schema's. */
    method Reconcile(s: G.Schema, backendOk: bool) returns (st: Status)
      modifies this
      ensures st == OK ==> s.table in tables && Matches(tables[s.table], s)
      ensures s.table in old(tables) && old(tables)[s.table] != [] && s.cols != [] && IdentOk(s.table) ==>
                tables == old(tables) && (st == OK <==> Matches(old(tables)[s.table], s))
      ensures forall t | t in old(tables) && t != s.table :: t in tables && tables[t] == old(tables)[t]
      ensures st != OK ==> tables == old(tables)
      ensures st == if s.cols == [] then ErrType else if !IdentOk(s.table) then ErrStore
                    else if s.table in old(tables) && old(tables)[s.table] != [] then
                      (if Matches(old(tables)[s.table], s) then OK else ErrType)
                    else CreateStatus(s, 0, backendOk)
    {
      if s.cols == [] {
        return ErrType;
      }
      if !IdentOk(s.table) {
        return ErrStore;
      }
      if s.table in tables && tables[s.table] != [] {
        st := ValidateTable(tables[s.table], s);
      } else {
        st := CreateTable(s, backendOk);
      }
    }
  }

  /** Two schemas can share a table exactly when they agree column for column on name and
      storage type: what one created the other accepts. */
  lemma SharedTableIff(a: G.Schema, b: G.Schema)
    requires Columns(a).Some? && a.cols != []
    ensures Matches(Columns(a).value, a)
    ensures Matches(Columns(a).value, b) <==>
              && |a.cols| == |b.cols|
              && forall i | 0 <= i < |a.cols| ::
                   a.cols[i].name == b.cols[i].name && SqlType(a.cols[i].ty) == SqlType(b.cols[i].ty)
  {
    forall i | 0 <= i < |a.cols| && i < |b.cols| && SqlType(b.cols[i].ty).Some?
      ensures SameType(SqlType(a.cols[i].ty).value, SqlType(b.cols[i].ty).value)
        <==> SqlType(a.cols[i].ty) == SqlType(b.cols[i].ty)
    {
      TypesApart(a.cols[i].ty, b.cols[i].ty);
    }
  }

  lemma TypesApart(x: u32, y: u32)
    requires SqlType(x).Some? && SqlType(y).Some?
    ensures SameType(SqlType(x).value, SqlType(y).value) <==> SqlType(x) == SqlType(y)
  {
    assert "INTEGER"[0] == 'I' && "REAL"[0] == 'R' && "TEXT"[0] == 'T';
    assert Lower('R') != Lower('T');
  }
}
