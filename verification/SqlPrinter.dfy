/** The grouped query printers over buffers sized before anything is written: no print is
    ever cut short, and the size computed always strictly exceeds what is printed. */
module SqlPrinter {
  import opened Basics
  import opened Words
  import opened Values
  import opened GroupedSql

  const UINT32_MAX: nat := 0xFFFF_FFFF

  // ---- the sizes ----

  /** What the sizing loop adds for the first k terms. */
  function TermsSpan(s: Schema, terms: seq<Term>, k: nat): nat
    requires TermsOk(s, terms) && k <= |terms|
  {
    if k == 0 then 0
    else TermsSpan(s, terms, k - 1) + |NameOf(s, terms[k - 1])| + |OPS[terms[k - 1].cmp]| + 24
  }

  /** store_sql_any_where_span. */
  method WhereSpan(s: Schema, terms: seq<Term>, lens: seq<nat>) returns (need: nat)
    requires TermsOk(s, terms)
    ensures need == 8 * |lens| + TermsSpan(s, terms, |terms|)
  {
    need := 8 * |lens|;
    for i := 0 to |terms|
      invariant need == 8 * |lens| + TermsSpan(s, terms, i)
    {
      need := need + |NameOf(s, terms[i])| + |OPS[terms[i].cmp]| + 24;
    }
  }

  function ColsSpan(s: Schema, k: nat): nat
    requires k <= |s.cols|
  {
    if k == 0 then 0 else ColsSpan(s, k - 1) + |s.cols[k - 1].name| + 4
  }

  /** store_cols_span. */
  method ColumnsSpan(s: Schema) returns (n: nat)
    ensures n == ColsSpan(s, |s.cols|)
  {
    n := 0;
    for i := 0 to |s.cols|
      invariant n == ColsSpan(s, i)
    {
      n := n + |s.cols[i].name| + 4;
    }
  }

  lemma TermFits(s: Schema, terms: seq<Term>, i: nat)
    requires TermsOk(s, terms) && i < |terms| <= UINT32_MAX
    ensures |TermText(s, terms, i)| + 5 <= |NameOf(s, terms[i])| + |OPS[terms[i].cmp]| + 24
  {
    DecOfU32(i + 1);
  }

  lemma {:induction false} GroupFits(s: Schema, terms: seq<Term>, from: nat, n: nat)
    requires TermsOk(s, terms) && from + n <= |terms| <= UINT32_MAX
    ensures |GroupText(s, terms, from, n)| + TermsSpan(s, terms, from) <= TermsSpan(s, terms, from + n)
  {
    if n > 0 {
      hide TermText;
      GroupFits(s, terms, from, n - 1);
      TermFits(s, terms, from + n - 1);
    }
  }

  lemma {:induction false} SpanGrows(s: Schema, terms: seq<Term>, j: nat, k: nat)
    requires TermsOk(s, terms) && j <= k <= |terms|
    ensures TermsSpan(s, terms, j) <= TermsSpan(s, terms, k)
  {
    if j < k {
      SpanGrows(s, terms, j, k - 1);
    }
  }

  lemma {:induction false} WhereFits(s: Schema, terms: seq<Term>, lens: seq<nat>, g: nat)
    requires GroupsOk(s, terms, lens) && g <= |lens| && |terms| <= UINT32_MAX
    ensures NumTerms(lens[..g]) <= |terms|
    ensures |WhereText(s, terms, lens, g)| <= 8 * g + TermsSpan(s, terms, NumTerms(lens[..g]))
    decreases g
  {
    if g > 0 {
      var from, join, group := WhereLast(s, terms, lens, g);
      hide WhereText, GroupText;
      NumTermsPrefix(lens, g - 1);
      WhereFits(s, terms, lens, g - 1);
      GroupFits(s, terms, from, lens[g - 1]);
    } else {
      assert lens[..0] == [];
    }
  }

  // ---- printing ----

  /** The buffer holds this C string. */
  predicate Spells(q: array<char>, n: nat, text: string)
    reads q
  {
    n == |text| && n < q.Length && q[..n] == text && q[n] == '\0'
  }

  /** snprintf at n of a buffer: the text and its terminator if they fit, as much as fits
      otherwise; the answer is the length there was to print. */
  method Snprintf(q: array<char>, n: nat, text: string) returns (len: nat)
    requires n < q.Length
    modifies q
    ensures len == |text|
    ensures n + |text| < q.Length ==> q[..n] == old(q[..n]) && Spells(q, n + |text|, old(q[..n]) + text)
    ensures n + |text| >= q.Length ==> Spells(q, q.Length - 1, old(q[..n]) + text[..q.Length - 1 - n])
  {
    var room := q.Length - 1 - n;
    var stop := if |text| <= room then |text| else room;
    ghost var before := q[..n];
    for i := 0 to stop
      invariant q[..n] == before
      invariant q[n..n + i] == text[..i]
    {
      q[n + i] := text[i];
      assert q[n..n + i + 1] == q[n..n + i] + [text[i]] == text[..i + 1];
    }
    q[n + stop] := '\0';
    assert q[..n + stop] == q[..n] + q[n..n + stop];
    assert |text| <= room ==> text[..stop] == text;
    len := |text|;
  }

  /** A print that fits leaves the text so far with the new text after it. */
  method Print(q: array<char>, n: nat, ghost sofar: string, text: string) returns (m: nat)
    requires n == |sofar| && n + |text| < q.Length && q[..n] == sofar
    modifies q
    ensures m == n + |text| && Spells(q, m, sofar + text)
  {
    var len := Snprintf(q, n, text);
    m := n + len;
  }

  /** The terms of one group. */
  method EmitGroup(q: array<char>, n: nat, ghost sofar: string, s: Schema, terms: seq<Term>, from: nat,
      len: nat) returns (m: nat)
    requires TermsOk(s, terms) && from + len <= |terms| <= UINT32_MAX
    requires n == |sofar| < q.Length && q[..n] == sofar
    requires q.Length > n + TermsSpan(s, terms, from + len) - TermsSpan(s, terms, from)
    modifies q
    ensures m == n + |GroupText(s, terms, from, len)| < q.Length && q[..m] == sofar + GroupText(s, terms, from, len)
  {
    hide GroupText, TermText, TermsSpan;
    m := n;
    NoTerms(s, terms, from);
    GroupFits(s, terms, from, len);
    for i := 0 to len
      invariant m == n + |GroupText(s, terms, from, i)| < q.Length
      invariant q[..m] == sofar + GroupText(s, terms, from, i)
    {
      var text := (if i > 0 then " AND " else "") + TermText(s, terms, from + i);
      GroupRoom(s, terms, from, len, i);
      Assoc(sofar, GroupText(s, terms, from, i), text);
      m := Print(q, m, sofar + GroupText(s, terms, from, i), text);
    }
  }

  lemma Assoc(a: string, b: string, c: string)
    ensures a + b + c == a + (b + c)
  {
  }

  lemma NoTerms(s: Schema, terms: seq<Term>, from: nat)
    requires TermsOk(s, terms) && from <= |terms|
    ensures GroupText(s, terms, from, 0) == ""
  {
  }

  /** Term i after the ones before it, and the room there is for it. */
  lemma GroupRoom(s: Schema, terms: seq<Term>, from: nat, len: nat, i: nat)
    requires TermsOk(s, terms) && from + len <= |terms| <= UINT32_MAX && i < len
    ensures var text := (if i > 0 then " AND " else "") + TermText(s, terms, from + i);
            && GroupText(s, terms, from, i + 1) == GroupText(s, terms, from, i) + text
            && |GroupText(s, terms, from, i)| + |text| + TermsSpan(s, terms, from) <= TermsSpan(s, terms, from + len)
  {
    hide TermText;
    GroupFits(s, terms, from, i + 1);
    SpanGrows(s, terms, from + i + 1, from + len);
    Assoc(GroupText(s, terms, from, i), if i > 0 then " AND " else "", TermText(s, terms, from + i));
  }

  /** One group in its parentheses, after an OR unless it is the first. */
  method EmitParens(q: array<char>, n: nat, ghost sofar: string, s: Schema, terms: seq<Term>, from: nat, len: nat,
      join: string)
    returns (m: nat)
    requires TermsOk(s, terms) && from + len <= |terms| <= UINT32_MAX && |join| <= 4
    requires n == |sofar| < q.Length && q[..n] == sofar
    requires q.Length > n + 8 + TermsSpan(s, terms, from + len) - TermsSpan(s, terms, from)
    modifies q
    ensures m == n + |join| + 2 + |GroupText(s, terms, from, len)|
    ensures Spells(q, m, sofar + join + ("(" + GroupText(s, terms, from, len) + ")"))
  {
    hide GroupText;
    GroupFits(s, terms, from, len);
    ghost var body := GroupText(s, terms, from, len);
    m := Print(q, n, sofar, join + "(");
    m := EmitGroup(q, m, sofar + (join + "("), s, terms, from, len);
    m := Print(q, m, sofar + (join + "(") + body, ")");
    Assoc(sofar, join, "(");
    Assoc(sofar + join, "(", body);
    Assoc(sofar + join, "(" + body, ")");
  }

  /** store_sql_emit_any_where, where the computed size leaves room for it. */
  method EmitWhere(q: array<char>, n: nat, ghost sofar: string, s: Schema, terms: seq<Term>,
      lens: seq<nat>) returns (m: nat)
    requires GroupsOk(s, terms, lens) && lens != [] && |terms| <= UINT32_MAX
    requires n == |sofar| < q.Length && q[..n] == sofar
    requires q.Length > n + 8 * |lens| + TermsSpan(s, terms, |terms|)
    modifies q
    ensures Spells(q, m, sofar + WhereText(s, terms, lens, |lens|))
  {
    hide WhereText, GroupText, GroupsOk, NumTerms, TermsSpan;
    m := n;
    assert lens[..0] == [] && NumTerms([]) == 0 by { NoLens(lens); }
    var at := 0;
    NoGroups(s, terms, lens);
    for g := 0 to |lens|
      invariant at == NumTerms(lens[..g])
      invariant m == n + |WhereText(s, terms, lens, g)| < q.Length
      invariant q[..m] == sofar + WhereText(s, terms, lens, g)
      invariant g > 0 ==> q[m] == '\0'
    {
      ghost var from, join, group := WhereLast(s, terms, lens, g + 1);
      RoomLeft(s, terms, lens, g);
      ghost var head := sofar + WhereText(s, terms, lens, g);
      m := EmitParens(q, m, head, s, terms, at, lens[g], if g > 0 then " OR " else "");
      at := at + lens[g];
      Assoc(sofar, WhereText(s, terms, lens, g), join);
      Assoc(sofar, WhereText(s, terms, lens, g) + join, group);
    }
    assert lens[..|lens|] == lens;
  }

  lemma NoLens(lens: seq<nat>)
    ensures lens[..0] == [] && NumTerms(lens[..0]) == 0
  {
  }

  /** Before group g, what is printed and what the size still holds. */
  lemma RoomLeft(s: Schema, terms: seq<Term>, lens: seq<nat>, g: nat)
    requires GroupsOk(s, terms, lens) && g < |lens| && |terms| <= UINT32_MAX
    ensures TermsOk(s, terms)
    ensures var at := NumTerms(lens[..g]);
            && at + lens[g] == NumTerms(lens[..g + 1]) && at + lens[g] <= |terms|
            && |WhereText(s, terms, lens, g)| + 8 + TermsSpan(s, terms, at + lens[g]) - TermsSpan(s, terms, at)
               <= 8 * |lens| + TermsSpan(s, terms, |terms|)
  {
    hide WhereText;
    NumTermsPrefix(lens, g);
    WhereFits(s, terms, lens, g);
    SpanGrows(s, terms, NumTerms(lens[..g + 1]), |terms|);
  }

  // ---- the five queries ----

  function ColsText(s: Schema, k: nat): string
    requires k <= |s.cols|
  {
    if k == 0 then "" else ColsText(s, k - 1) + (if k > 1 then ", " else "") + s.cols[k - 1].name
  }

  function Dir(desc: bool): string {
    if desc then "DESC" else "ASC"
  }

  /** The order SQL makes of its two words. */
  predicate OrderedBy(word: string, x: int, y: int) {
    match word
    case "ASC" => x <= y
    case "DESC" => x >= y
    case _ => false
  }

  /** Ascending unless descending was asked for. */
  lemma DirMeans(desc: bool, x: int, y: int)
    ensures OrderedBy(Dir(desc), x, y) <==> if desc then x >= y else x <= y
  {
  }

  /** The rows asked for: in an order if one is named, up to a limit if there is one. */
  datatype Shape = Shape(order: Option<(nat, bool)>, bounded: bool)

  predicate ShapeOk(s: Schema, sh: Shape) {
    sh.order.Some? ==> sh.order.value.0 < |s.cols|
  }

  function OrderText(s: Schema, order: Option<(nat, bool)>): string
    requires order.Some? ==> order.value.0 < |s.cols|
  {
    if order.None? then "" else " ORDER BY " + s.cols[order.value.0].name + " " + Dir(order.value.1)
  }

  /** The limit's placeholder comes after every term's. */
  function LimitText(total: nat, bounded: bool): string {
    if bounded then " LIMIT ?" + Dec(total + 1) else ""
  }

  /** What starts with a space reads on from what is before it. */
  lemma ReadsOn(a: string, x: seq<Token>, b: string, y: seq<Token>)
    requires b != "" && b[0] == ' ' && Lex(a) == Some(x) && Lex(b) == Some(y)
    ensures Lex(a + b) == Some(x + y)
  {
    hide Lex;
    LexSplits(a, b);
  }

  /** The limit reads as one, of the parameter after every term's. */
  lemma LimitReads(total: nat)
    ensures Lex(LimitText(total, true)) == Some([Word("LIMIT"), Param(total + 1)]) && LimitText(total, false) == ""
  {
    hide Lex;
    PlainWord("LIMIT");
    LexSpaced("LIMIT");
    LexParam(total + 1);
    ReadsOn(" " + "LIMIT", [Word("LIMIT")], " ?" + Dec(total + 1), [Param(total + 1)]);
    assert [Word("LIMIT")] + [Param(total + 1)] == [Word("LIMIT"), Param(total + 1)];
    assert " " + "LIMIT" == " LIMIT" && LimitText(total, true) == " LIMIT" + (" ?" + Dec(total + 1));
  }

  /** The order reads as one, by the column and in the direction asked for. */
  lemma OrderReads(s: Schema, col: nat, desc: bool)
    requires col < |s.cols| && IsName(s.cols[col].name)
    ensures Lex(OrderText(s, Some((col, desc))))
            == Some([Word("ORDER"), Word("BY")] + [Word(s.cols[col].name), Word(if desc then "DESC" else "ASC")])
  {
    hide Lex, OrderText, Dir;
    OrderSpelled(s, col, desc);
    OrderByReads();
    PlainWord("ASC");
    PlainWord("DESC");
    TwoMore(" ORDER BY", [Word("ORDER"), Word("BY")], s.cols[col].name, if desc then "DESC" else "ASC");
  }

  lemma TwoMore(a: string, x: seq<Token>, b: string, c: string)
    requires Lex(a) == Some(x) && IsName(b) && IsName(c)
    ensures Lex(a + (" " + b) + (" " + c)) == Some(x + [Word(b), Word(c)])
  {
    hide Lex;
    LexSpaced(b);
    LexSpaced(c);
    ReadsOn(a, x, " " + b, [Word(b)]);
    ReadsOn(a + (" " + b), x + [Word(b)], " " + c, [Word(c)]);
    assert x + [Word(b)] + [Word(c)] == x + [Word(b), Word(c)];
  }

  lemma OrderSpelled(s: Schema, col: nat, desc: bool)
    requires col < |s.cols|
    ensures OrderText(s, Some((col, desc)))
            == " ORDER BY" + (" " + s.cols[col].name) + (" " + if desc then "DESC" else "ASC")
  {
    assert " ORDER BY " == " ORDER BY" + " ";
  }

  lemma OrderByReads()
    ensures Lex(" ORDER BY") == Some([Word("ORDER"), Word("BY")])
  {
    hide Lex;
    PlainWord("ORDER");
    PlainWord("BY");
    LexSpaced("ORDER");
    LexSpaced("BY");
    ReadsOn(" " + "ORDER", [Word("ORDER")], " " + "BY", [Word("BY")]);
    assert [Word("ORDER")] + [Word("BY")] == [Word("ORDER"), Word("BY")];
    assert (" " + "ORDER") + (" " + "BY") == " ORDER BY";
  }

  lemma PlainWord(word: string)
    requires word == "ORDER" || word == "BY" || word == "ASC" || word == "DESC" || word == "LIMIT"
    ensures IsName(word) && WordOf(word) == Word(word)
  {
    assert Folded("ORDER") == "ORDER" && Folded("BY") == "BY" && Folded("ASC") == "ASC" && Folded("DESC") == "DESC";
    assert Folded("LIMIT") == "LIMIT";
  }

  /** The columns in order, a comma and a space between. */
  lemma ColsAre(s: Schema, k: nat)
    requires 0 < k <= |s.cols|
    ensures ColsText(s, 1) == s.cols[0].name
    ensures k > 1 ==> ColsText(s, k) == ColsText(s, k - 1) + ", " + s.cols[k - 1].name
  {
    assert ColsText(s, 0) == "";
  }

  function SelectHead(s: Schema): string {
    "SELECT " + ColsText(s, |s.cols|) + " FROM " + s.table + " WHERE "
  }

  lemma {:induction false} ColsFit(s: Schema, k: nat)
    requires k <= |s.cols|
    ensures |ColsText(s, k)| <= ColsSpan(s, k)
  {
    if k > 0 {
      ColsFit(s, k - 1);
    }
  }

  method EmitColumns(q: array<char>, n: nat, ghost sofar: string, s: Schema) returns (m: nat)
    requires n == |sofar| < q.Length && q.Length > n + ColsSpan(s, |s.cols|) && q[..n] == sofar
    modifies q
    ensures m == n + |ColsText(s, |s.cols|)| < q.Length && q[..m] == sofar + ColsText(s, |s.cols|)
  {
    m := n;
    for i := 0 to |s.cols|
      invariant m == n + |ColsText(s, i)| < q.Length && q[..m] == sofar + ColsText(s, i)
    {
      ColsFit(s, i + 1);
      ColsGrow(s, i + 1, |s.cols|);
      var text := (if i > 0 then ", " else "") + s.cols[i].name;
      ghost var head := sofar + ColsText(s, i);
      m := Print(q, m, head, text);
      assert head + text == sofar + ColsText(s, i + 1);
    }
  }

  lemma {:induction false} ColsGrow(s: Schema, j: nat, k: nat)
    requires j <= k <= |s.cols|
    ensures ColsSpan(s, j) <= ColsSpan(s, k)
  {
    if j < k {
      ColsGrow(s, j, k - 1);
    }
  }

  lemma OkTerms(s: Schema, terms: seq<Term>, lens: seq<nat>)
    requires GroupsOk(s, terms, lens)
    ensures TermsOk(s, terms) && NumTerms(lens) == |terms|
  {
  }

  /** store_sql_select_any. */
  method SelectAny(s: Schema, terms: seq<Term>, lens: seq<nat>, sh: Shape) returns (q: array<char>, n: nat)
    requires GroupsOk(s, terms, lens) && lens != [] && ShapeOk(s, sh)
    requires |terms| + (if sh.bounded then 1 else 0) <= UINT32_MAX
    ensures fresh(q)
    ensures Spells(q, n, SelectHead(s) + WhereText(s, terms, lens, |lens|) + OrderText(s, sh.order)
                         + LimitText(|terms|, sh.bounded))
  {
    hide WhereText, GroupsOk, OrderText, SelectHead, TermsSpan, ColsSpan, ColsText, NumTerms;
    var cols := ColumnsSpan(s);
    assert TermsOk(s, terms) && NumTerms(lens) == |terms| by { OkTerms(s, terms, lens); }
    var span := WhereSpan(s, terms, lens);
    var need := 80 + |s.table| + cols + span;
    if sh.order.Some? {
      need := need + |s.cols[sh.order.value.0].name| + |Dir(sh.order.value.1)| + 16;
    }
    if sh.bounded {
      need := need + 24;
    }
    q := new char[need](_ => ' ');
    WhereFits(s, terms, lens, |lens|);
    assert lens[..|lens|] == lens;
    HeadIs(s);
    ColsFit(s, |s.cols|);
    n := Print(q, 0, "", "SELECT ");
    n := EmitColumns(q, n, "SELECT ", s);
    n := Print(q, n, "SELECT " + ColsText(s, |s.cols|), " FROM " + s.table + " WHERE ");
    ghost var head := SelectHead(s);
    n := EmitWhere(q, n, head, s, terms, lens);
    n := EmitTail(q, n, head + WhereText(s, terms, lens, |lens|), s, |terms|, sh);
  }

  lemma HeadIs(s: Schema)
    ensures SelectHead(s) == "SELECT " + ColsText(s, |s.cols|) + (" FROM " + s.table + " WHERE ")
    ensures |SelectHead(s)| <= 20 + |s.table| + ColsSpan(s, |s.cols|)
  {
    ColsFit(s, |s.cols|);
  }

  function OrderSpan(s: Schema, sh: Shape): nat
    requires ShapeOk(s, sh)
  {
    if sh.order.Some? then |s.cols[sh.order.value.0].name| + |Dir(sh.order.value.1)| + 11 else 0
  }

  /** The order and the limit, each only if asked for. */
  method EmitTail(q: array<char>, n: nat, ghost sofar: string, s: Schema, total: nat, sh: Shape) returns (m: nat)
    requires ShapeOk(s, sh) && total + (if sh.bounded then 1 else 0) <= UINT32_MAX
    requires Spells(q, n, sofar)
    requires q.Length > n + OrderSpan(s, sh) + (if sh.bounded then 18 else 0)
    modifies q
    ensures Spells(q, m, sofar + OrderText(s, sh.order) + LimitText(total, sh.bounded))
  {
    m := n;
    ghost var head := sofar + OrderText(s, sh.order);
    if sh.order.Some? {
      m := Print(q, m, sofar, OrderText(s, sh.order));
    } else {
      assert head == sofar;
    }
    if sh.bounded {
      DecOfU32(total + 1);
      m := Print(q, m, head, LimitText(total, true));
    } else {
      assert head + "" == head;
    }
  }

  /** store_sql_count_any. */
  method CountAny(s: Schema, terms: seq<Term>, lens: seq<nat>) returns (q: array<char>, n: nat)
    requires GroupsOk(s, terms, lens) && lens != [] && |terms| <= UINT32_MAX
    ensures fresh(q) && Spells(q, n, "SELECT COUNT(*) FROM " + s.table + " WHERE " + WhereText(s, terms, lens, |lens|))
  {
    var head := "SELECT COUNT(*) FROM " + s.table + " WHERE ";
    q, n := HeadAndWhere(48 + |s.table|, head, s, terms, lens);
  }

  function Zero(s: Schema, col: nat): string
    requires col < |s.cols|
  {
    if s.cols[col].ty == TY_FLOAT then "0.0" else "0"
  }

  /** The sum over no rows is of the column's own kind: a real literal, with its point, for a
      column of floats and an integer one for any other. */
  lemma ZeroMeans(s: Schema, col: nat)
    requires col < |s.cols|
    ensures '.' in Zero(s, col) <==> s.cols[col].ty == TY_FLOAT
    ensures forall c | c in Zero(s, col) :: c == '0' || c == '.'
  {
  }

  /** store_sql_sum_any. */
  method SumAny(s: Schema, col: nat, terms: seq<Term>, lens: seq<nat>) returns (q: array<char>, n: nat)
    requires GroupsOk(s, terms, lens) && lens != [] && |terms| <= UINT32_MAX && col < |s.cols|
    ensures fresh(q)
    ensures Spells(q, n, "SELECT COALESCE(SUM(" + s.cols[col].name + "), " + Zero(s, col) + ") FROM " + s.table
                         + " WHERE " + WhereText(s, terms, lens, |lens|))
  {
    var head := "SELECT COALESCE(SUM(" + s.cols[col].name + "), " + Zero(s, col) + ") FROM " + s.table + " WHERE ";
    q, n := HeadAndWhere(72 + |s.table| + |s.cols[col].name| + |Zero(s, col)|, head, s, terms, lens);
  }

  /** store_sql_avg_any. */
  method AvgAny(s: Schema, col: nat, terms: seq<Term>, lens: seq<nat>) returns (q: array<char>, n: nat)
    requires GroupsOk(s, terms, lens) && lens != [] && |terms| <= UINT32_MAX && col < |s.cols|
    ensures fresh(q)
    ensures Spells(q, n, "SELECT COUNT(*), COALESCE(SUM(" + s.cols[col].name + "), " + Zero(s, col) + ") FROM "
                         + s.table + " WHERE " + WhereText(s, terms, lens, |lens|))
  {
    var head := "SELECT COUNT(*), COALESCE(SUM(" + s.cols[col].name + "), " + Zero(s, col) + ") FROM "
                + s.table + " WHERE ";
    q, n := HeadAndWhere(96 + |s.table| + |s.cols[col].name| + |Zero(s, col)|, head, s, terms, lens);
  }

  /** The queries that are one head and the grouped WHERE: `base` is the head's share of
      the size. */
  method HeadAndWhere(base: nat, head: string, s: Schema, terms: seq<Term>, lens: seq<nat>) returns (q: array<char>,
      n: nat)
    requires GroupsOk(s, terms, lens) && lens != [] && |terms| <= UINT32_MAX && |head| < base
    ensures fresh(q) && q.Length == base + 8 * |lens| + TermsSpan(s, terms, |terms|)
    ensures Spells(q, n, head + WhereText(s, terms, lens, |lens|))
  {
    hide WhereText;
    var span := WhereSpan(s, terms, lens);
    q := new char[base + span](_ => ' ');
    WhereFits(s, terms, lens, |lens|);
    assert lens[..|lens|] == lens;
    n := Print(q, 0, "", head);
    assert "" + head == head;
    n := EmitWhere(q, n, head, s, terms, lens);
  }

  /** store_sql_extreme_any. */
  method ExtremeAny(s: Schema, col: nat, desc: bool, terms: seq<Term>, lens: seq<nat>) returns (q: array<char>, n: nat)
    requires GroupsOk(s, terms, lens) && lens != [] && |terms| <= UINT32_MAX && col < |s.cols|
    ensures fresh(q)
    ensures Spells(q, n, "SELECT " + s.cols[col].name + " FROM " + s.table + " WHERE "
                         + WhereText(s, terms, lens, |lens|)
                         + (" ORDER BY " + s.cols[col].name + " " + Dir(desc) + " LIMIT 1"))
  {
    hide WhereText;
    var head := "SELECT " + s.cols[col].name + " FROM " + s.table + " WHERE ";
    WhereFits(s, terms, lens, |lens|);
    assert lens[..|lens|] == lens;
    q, n := HeadAndWhere(80 + |s.table| + |s.cols[col].name| * 2 + |Dir(desc)|, head, s, terms, lens);
    n := Print(q, n, head + WhereText(s, terms, lens, |lens|),
      " ORDER BY " + s.cols[col].name + " " + Dir(desc) + " LIMIT 1");
  }

  // ---- the frame bound to it ----

  /** geas_store_select's checks, in order. */
  predicate SelectAccepts(s: Schema, terms: seq<Term>, lens: seq<nat>, sh: Shape, limit: Option<Value>) {
    && s.cols != [] && lens != [] && GroupsOk(s, terms, lens) && |terms| <= UINT32_MAX
    && (forall i | 0 <= i < |terms| :: Ty(terms[i].value) == s.cols[terms[i].col].ty)
    && ShapeOk(s, sh) && (sh.bounded <==> limit.Some?) && (sh.order.None? ==> limit.None?)
    && (limit.Some? ==> limit.value.Int? && limit.value.i >= 0 && |terms| < UINT32_MAX)
  }

  /** The parameters bound: every term's value in the order of the text, then the limit. */
  method BindFrame(terms: seq<Term>, limit: Option<Value>) returns (params: seq<Value>)
    ensures |params| == |terms| + (if limit.Some? then 1 else 0)
    ensures forall i | 0 <= i < |terms| :: params[i] == terms[i].value
    ensures limit.Some? ==> params[|terms|] == limit.value
  {
    params := [];
    for i := 0 to |terms|
      invariant |params| == i && forall j | 0 <= j < i :: params[j] == terms[j].value
    {
      params := params + [terms[i].value];
    }
    if limit.Some? {
      params := params + [limit.value];
    }
  }

  method Select(s: Schema, terms: seq<Term>, lens: seq<nat>, sh: Shape, limit: Option<Value>)
    returns (st: Status, q: array<char>, n: nat, params: seq<Value>)
    requires NumTerms(lens) == |terms|
    ensures st == OK <==> SelectAccepts(s, terms, lens, sh, limit)
    ensures st == OK || st == ErrType
    ensures st == OK ==>
              && Spells(q, n, SelectHead(s) + WhereText(s, terms, lens, |lens|) + OrderText(s, sh.order)
                              + LimitText(|terms|, limit.Some?))
              && |params| == |terms| + (if limit.Some? then 1 else 0)
              && (forall i | 0 <= i < |terms| :: params[i] == terms[i].value)
              && (limit.Some? ==> params[|terms|] == limit.value)
  {
    hide WhereText, Spells;
    q, n, params := new char[0], 0, [];
    if s.cols == [] || lens == [] {
      return ErrType, q, n, params;
    }
    var total := 0;
    for g := 0 to |lens|
      invariant total == NumTerms(lens[..g]) <= UINT32_MAX
      invariant forall h | 0 <= h < g :: lens[h] > 0
    {
      NumTermsPrefix(lens, g);
      if lens[g] == 0 || UINT32_MAX - total < lens[g] {
        return ErrType, q, n, params;
      }
      total := total + lens[g];
    }
    assert lens[..|lens|] == lens;
    for i := 0 to |terms|
      invariant forall j | 0 <= j < i :: TermOk(s, terms[j]) && Ty(terms[j].value) == s.cols[terms[j].col].ty
    {
      var t := terms[i];
      if t.col >= |s.cols| || t.cmp >= |OPS| || Ty(t.value) != s.cols[t.col].ty {
        return ErrType, q, n, params;
      }
    }
    if sh.bounded != limit.Some? || (sh.order.None? && limit.Some?)
      || (sh.order.Some? && sh.order.value.0 >= |s.cols|) {
      return ErrType, q, n, params;
    }
    if limit.Some? {
      if !limit.value.Int? || limit.value.i < 0 || total == UINT32_MAX {
        return ErrType, q, n, params;
      }
    }
    q, n := SelectAny(s, terms, lens, sh);
    params := BindFrame(terms, limit);
    st := OK;
  }
}
