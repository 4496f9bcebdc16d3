/** The grouped WHERE text: what the printers write, and how it reads back under SQL's
    precedence, AND binding tighter than OR. */
module GroupedSql {
  import opened Basics
  import opened Words
  import opened Values

  datatype Column = Column(name: string, ty: u32)

  datatype Schema = Schema(table: string, cols: seq<Column>)

  datatype Term = Term(col: nat, cmp: nat, value: Value)

  const OPS: seq<string> := ["=", "<>", "<", "<=", ">", ">="]

  // ---- numbers ----

  function Digit(d: nat): char
    requires d < 10
  {
    ['0', '1', '2', '3', '4', '5', '6', '7', '8', '9'][d]
  }

  predicate IsDigit(c: char) {
    '0' <= c <= '9'
  }

  function DigitOf(c: char): (d: nat)
    requires IsDigit(c)
    ensures d < 10
  {
    (c as int) - ('0' as int)
  }

  /** The decimal spelling %u writes. */
  function Dec(n: nat): (s: string)
    ensures s != [] && forall c | c in s :: IsDigit(c)
  {
    if n < 10 then [Digit(n)] else Dec(n / 10) + [Digit(n % 10)]
  }

  function Undec(s: string): nat
    requires forall c | c in s :: IsDigit(c)
  {
    if s == [] then 0 else 10 * Undec(s[..|s| - 1]) + DigitOf(s[|s| - 1])
  }

  lemma {:induction false} DecUndec(n: nat)
    ensures Undec(Dec(n)) == n
  {
    if n < 10 {
      assert Dec(n)[..0] == [];
    } else {
      DecUndec(n / 10);
      assert Dec(n)[..|Dec(n)| - 1] == Dec(n / 10);
    }
  }

  function Pow10(k: nat): nat {
    if k == 0 then 1 else 10 * Pow10(k - 1)
  }

  lemma {:induction false} DecLength(n: nat, k: nat)
    requires k > 0 && n < Pow10(k)
    ensures |Dec(n)| <= k
  {
    if n >= 10 {
      assert Pow10(k) == 10 * Pow10(k - 1);
      DecLength(n / 10, k - 1);
    }
  }

  /** A 32 bit number takes at most ten digits. */
  lemma DecOfU32(n: u32)
    ensures |Dec(n)| <= 10
  {
    assert Pow10(5) == 100_000;
    assert Pow10(7) == 10_000_000;
    assert Pow10(9) == 1_000_000_000;
    assert Pow10(10) == 10_000_000_000;
    DecLength(n, 10);
  }

  // ---- the text ----

  function NumTerms(lens: seq<nat>): nat {
    if lens == [] then 0 else NumTerms(lens[..|lens| - 1]) + lens[|lens| - 1]
  }

  lemma {:induction false} NumTermsPrefix(lens: seq<nat>, g: nat)
    requires g < |lens|
    ensures NumTerms(lens[..g + 1]) == NumTerms(lens[..g]) + lens[g]
    ensures NumTerms(lens[..g + 1]) <= NumTerms(lens)
    decreases |lens|
  {
    assert lens[..g + 1][..g] == lens[..g];
    if g + 1 == |lens| {
      assert lens[..g + 1] == lens;
    } else {
      NumTermsPrefix(lens[..|lens| - 1], g);
      assert lens[..|lens| - 1][..g + 1] == lens[..g + 1];
      assert lens[..|lens| - 1][..g] == lens[..g];
    }
  }

  predicate TermOk(s: Schema, t: Term) {
    t.col < |s.cols| && t.cmp < |OPS|
  }

  predicate TermsOk(s: Schema, terms: seq<Term>) {
    forall i | 0 <= i < |terms| :: TermOk(s, terms[i])
  }

  function NameOf(s: Schema, t: Term): string
    requires TermOk(s, t)
  {
    s.cols[t.col].name
  }

  /** Term i with its placeholder, counted from one over all groups. */
  function TermText(s: Schema, terms: seq<Term>, i: nat): string
    requires TermsOk(s, terms) && i < |terms|
  {
    NameOf(s, terms[i]) + " " + OPS[terms[i].cmp] + " ?" + Dec(i + 1)
  }

  /** The n terms from `from` on, joined by AND. */
  function GroupText(s: Schema, terms: seq<Term>, from: nat, n: nat): string
    requires TermsOk(s, terms) && from + n <= |terms|
  {
    if n == 0 then ""
    else GroupText(s, terms, from, n - 1) + (if n > 1 then " AND " else "") + TermText(s, terms, from + n - 1)
  }

  predicate GroupsOk(s: Schema, terms: seq<Term>, lens: seq<nat>) {
    TermsOk(s, terms) && NumTerms(lens) == |terms| && forall g | 0 <= g < |lens| :: lens[g] > 0
  }

  /** The first g groups, each in parentheses, joined by OR. */
  function WhereText(s: Schema, terms: seq<Term>, lens: seq<nat>, g: nat): string
    requires GroupsOk(s, terms, lens) && g <= |lens|
  {
    if g == 0 then ""
    else
      NumTermsPrefix(lens, g - 1);
      WhereText(s, terms, lens, g - 1) + (if g > 1 then " OR " else "")
      + ("(" + GroupText(s, terms, NumTerms(lens[..g - 1]), lens[g - 1]) + ")")
  }

  // ---- tokens ----

  datatype Token = Word(s: string) | Operator(s: string) | Param(k: nat) | Open | Close

  predicate IsIdent(c: char) {
    'a' <= c <= 'z' || 'A' <= c <= 'Z' || '0' <= c <= '9' || c == '_'
  }

  predicate IsOp(c: char) {
    c == '=' || c == '<' || c == '>'
  }

  predicate Delimiter(c: char) {
    c == ' ' || c == '(' || c == ')'
  }

  datatype Class = Ident | Op | Num

  predicate InClass(k: Class, c: char) {
    match k
    case Ident => IsIdent(c)
    case Op => IsOp(c)
    case Num => IsDigit(c)
  }

  /** How many leading characters are of one class. */
  function RunLength(k: Class, s: string): (n: nat)
    ensures n <= |s| && (forall i | 0 <= i < n :: InClass(k, s[i])) && (n < |s| ==> !InClass(k, s[n]))
  {
    if s == "" || !InClass(k, s[0]) then 0 else 1 + RunLength(k, s[1..])
  }

  function Upper(c: char): char {
    if 'a' <= c <= 'z' then c - 'a' + 'A' else c
  }

  function Folded(s: string): string {
    seq(|s|, i requires 0 <= i < |s| => Upper(s[i]))
  }

  const LOWER: string := "abcdefghijklmnopqrstuvwxyz"
  const UPPER: string := "ABCDEFGHIJKLMNOPQRSTUVWXYZ"

  lemma LowerAt(i: nat)
    requires i < 26
    ensures LOWER[i] as int == 'a' as int + i
  {
  }

  lemma UpperAt(i: nat)
    requires i < 26
    ensures UPPER[i] as int == 'A' as int + i
  {
  }

  lemma InLower(c: char)
    ensures c in LOWER <==> 'a' <= c <= 'z'
  {
    if c in LOWER {
      var i :| 0 <= i < |LOWER| && LOWER[i] == c;
      LowerAt(i);
    }
    if 'a' <= c <= 'z' {
      LowerAt(c as int - 'a' as int);
      assert LOWER[c as int - 'a' as int] == c;
    }
  }

  lemma InUpper(c: char)
    ensures c in UPPER <==> 'A' <= c <= 'Z'
  {
    if c in UPPER {
      var i :| 0 <= i < |UPPER| && UPPER[i] == c;
      UpperAt(i);
    }
    if 'A' <= c <= 'Z' {
      UpperAt(c as int - 'A' as int);
      assert UPPER[c as int - 'A' as int] == c;
    }
  }

  lemma InDigits(c: char)
    ensures c in "0123456789" <==> '0' <= c <= '9'
  {
    if '0' <= c <= '9' {
      assert "0123456789"[c as int - '0' as int] == c;
    }
  }

  /** The characters of a name. */
  lemma NameCharacters(c: char)
    ensures IsIdent(c) <==> c in LOWER || c in UPPER || c in "0123456789" || c == '_'
  {
    InLower(c);
    InUpper(c);
    InDigits(c);
  }

  /** The two cases of a letter. */
  lemma UpperIs(c: char, i: nat)
    ensures i < 26 ==> Upper(LOWER[i]) == UPPER[i]
    ensures c !in LOWER ==> Upper(c) == c
  {
    InLower(c);
    if i < 26 {
      LowerAt(i);
      UpperAt(i);
    }
  }

  predicate IsKeyword(s: string) {
    Folded(s) == "AND" || Folded(s) == "OR"
  }

  /** A word as SQL reads it: AND and OR in any casing are the keywords. */
  function WordOf(s: string): Token {
    Word(if IsKeyword(s) then Folded(s) else s)
  }

  /** What stands at the front of a text: a token or white space, and how long it is. */
  datatype Bite = Bite(token: Option<Token>, n: nat) | Bad

  /** The longest token there. */
  function BiteOf(s: string): (b: Bite)
    requires s != ""
    ensures b.Bite? ==> 0 < b.n <= |s|
  {
    if s[0] == ' ' then Bite(None, 1)
    else if s[0] == '(' then Bite(Some(Open), 1)
    else if s[0] == ')' then Bite(Some(Close), 1)
    else if IsIdent(s[0]) then var n := RunLength(Ident, s); Bite(Some(WordOf(s[..n])), n)
    else if IsOp(s[0]) then var n := RunLength(Op, s); Bite(Some(Operator(s[..n])), n)
    else if s[0] == '?' then
      var n := RunLength(Num, s[1..]);
      if n == 0 then Bad else Bite(Some(Param(Undec(s[1..][..n]))), n + 1)
    else Bad
  }

  function Cons(t: Option<Token>, rest: Option<seq<Token>>): Option<seq<Token>> {
    if rest.None? then None else Some((if t.Some? then [t.value] else []) + rest.value)
  }

  /** The tokens of a text; None where it is none. */
  function Lex(s: string): Option<seq<Token>>
    decreases |s|
  {
    if s == "" then Some([])
    else
      match BiteOf(s)
      case Bad => None
      case Bite(t, n) => Cons(t, Lex(s[n..]))
  }

  function Both(a: Option<seq<Token>>, b: Option<seq<Token>>): Option<seq<Token>> {
    if a.None? || b.None? then None else Some(a.value + b.value)
  }

  /** Where two texts meet without running two tokens into one. */
  predicate Meet(a: string, b: string) {
    a == "" || b == "" || Delimiter(a[|a| - 1]) || Delimiter(b[0])
  }

  lemma DelimiterOut(k: Class, c: char)
    requires Delimiter(c)
    ensures !InClass(k, c)
  {
  }

  lemma {:induction false} RunSplits(k: Class, a: string, b: string)
    requires Meet(a, b)
    ensures a != "" ==> RunLength(k, a + b) == RunLength(k, a)
    decreases |a|
  {
    hide InClass, Delimiter;
    if a != "" {
      assert (a + b)[0] == a[0] && (a + b)[1..] == a[1..] + b;
      if |a| > 1 {
        assert a[1..][|a| - 2] == a[|a| - 1];
        RunSplits(k, a[1..], b);
      } else {
        assert a[1..] + b == b;
        if b != "" {
          DelimiterOut(k, if Delimiter(a[0]) then a[0] else b[0]);
        }
      }
    }
  }

  lemma BiteSplits(a: string, b: string)
    requires a != "" && Meet(a, b) && BiteOf(a).Bite?
    ensures BiteOf(a + b) == BiteOf(a)
  {
    RunSplits(Ident, a, b);
    RunSplits(Op, a, b);
    var n := BiteOf(a).n;
    assert (a + b)[..n] == a[..n];
    assert (a + b)[1..] == a[1..] + b;
    if a[0] == '?' {
      RunSplits(Num, a[1..], b);
      assert (a[1..] + b)[..n - 1] == a[1..][..n - 1];
    }
  }

  lemma {:induction false} LexSplits(a: string, b: string)
    requires Meet(a, b) && Lex(a).Some?
    ensures Lex(a + b) == Both(Lex(a), Lex(b))
    decreases |a|
  {
    hide BiteOf;
    if a == "" {
      assert a + b == b;
      assert Lex(b).Some? ==> [] + Lex(b).value == Lex(b).value;
    } else {
      BiteSplits(a, b);
      var n := BiteOf(a).n;
      assert (a + b)[n..] == a[n..] + b;
      LexSplits(a[n..], b);
      ConsBoth(BiteOf(a).token, Lex(a[n..]), Lex(b));
    }
  }

  lemma ConsBoth(t: Option<Token>, x: Option<seq<Token>>, y: Option<seq<Token>>)
    ensures Cons(t, Both(x, y)) == Both(Cons(t, x), y)
  {
    if x.Some? && y.Some? && t.Some? {
      assert [t.value] + (x.value + y.value) == ([t.value] + x.value) + y.value;
    } else if x.Some? && y.Some? {
      assert [] + (x.value + y.value) == ([] + x.value) + y.value;
    }
  }

  predicate IsName(s: string) {
    s != "" && (forall c | c in s :: IsIdent(c)) && !IsKeyword(s)
  }

  lemma {:induction false} RunAll(k: Class, s: string)
    requires forall i | 0 <= i < |s| :: InClass(k, s[i])
    ensures RunLength(k, s) == |s|
  {
    if s != "" {
      RunAll(k, s[1..]);
    }
  }

  lemma LexOne(s: string, t: Token)
    requires s != "" && BiteOf(s) == Bite(Some(t), |s|)
    ensures Lex(s) == Some([t]) && Lex(" " + s) == Some([t])
  {
    assert s[|s|..] == "" && Lex("") == Some([]);
    assert [t] + [] == [t] && [] + [t] == [t];
    assert Lex(s) == Cons(Some(t), Lex(""));
    assert (" " + s)[1..] == s;
    assert BiteOf(" " + s) == Bite(None, 1);
  }

  lemma LexWord(s: string)
    requires s != "" && forall c | c in s :: IsIdent(c)
    ensures Lex(s) == Some([WordOf(s)])
  {
    RunAll(Ident, s);
    assert s[..|s|] == s;
    LexOne(s, WordOf(s));
  }

  lemma LexSpaced(s: string)
    requires s != "" && forall c | c in s :: IsIdent(c)
    ensures Lex(" " + s) == Some([WordOf(s)])
  {
    RunAll(Ident, s);
    assert s[..|s|] == s;
    LexOne(s, WordOf(s));
  }

  lemma LexOp(i: nat)
    requires i < |OPS|
    ensures Lex(" " + OPS[i]) == Some([Operator(OPS[i])])
  {
    assert forall k | 0 <= k < |OPS[i]| :: IsOp(OPS[i][k]);
    RunAll(Op, OPS[i]);
    assert OPS[i][..|OPS[i]|] == OPS[i];
    LexOne(OPS[i], Operator(OPS[i]));
  }

  lemma LexParam(k: nat)
    ensures Lex(" ?" + Dec(k)) == Some([Param(k)])
  {
    var s := "?" + Dec(k);
    assert " ?" + Dec(k) == " " + s;
    assert s[1..] == Dec(k);
    RunAll(Num, Dec(k));
    DecUndec(k);
    assert Dec(k)[..|Dec(k)|] == Dec(k);
    LexOne(s, Param(k));
  }

  lemma LexKeyword(s: string)
    requires s == "AND" || s == "OR"
    ensures Lex(" " + s + " ") == Some([Word(s)])
  {
    assert Folded("AND") == "AND" && Folded("OR") == "OR";
    LexWord(s);
    RunAll(Ident, s);
    assert s[..|s|] == s;
    LexOne(s, Word(s));
    LexSpace();
    hide Lex;
    LexSplits(" " + s, " ");
  }

  lemma LexSpace()
    ensures Lex(" ") == Some([]) && Lex("") == Some([])
    ensures Lex(")") == Some([Close])
    ensures Lex("(") == Some([Token.Open])
  {
    assert Lex("") == Some([]);
    assert " "[1..] == "";
    var none: seq<Token> := [];
    assert none + none == none;
    assert BiteOf(" ") == Bite(None, 1);
    assert Lex(" ") == Cons(None, Lex(""));
    LexOne(")", Close);
    LexOne("(", Token.Open);
  }

  /** Text before and after a join that starts and ends with a space; without one there is
      nothing before. */
  lemma LexJoin(front: string, join: string, last: string, joined: bool)
    requires if joined then |join| > 0 && join[0] == ' ' && join[|join| - 1] == ' ' else join == "" && front == ""
    requires Lex(front).Some? && Lex(join).Some? && Lex(last).Some?
    ensures Lex(front + join + last) == Some(Lex(front).value + Lex(join).value + Lex(last).value)
  {
    hide Lex;
    LexSplits(front, join);
    assert Lex(front + join) == Some(Lex(front).value + Lex(join).value);
    assert joined ==> (front + join)[|front + join| - 1] == ' ';
    LexSplits(front + join, last);
  }

  // ---- the tokens of the text ----

  predicate Readable(s: Schema) {
    forall c | 0 <= c < |s.cols| :: IsName(s.cols[c].name)
  }

  function TermToks(s: Schema, terms: seq<Term>, i: nat): seq<Token>
    requires TermsOk(s, terms) && i < |terms|
  {
    [Word(NameOf(s, terms[i])), Operator(OPS[terms[i].cmp]), Param(i + 1)]
  }

  function GroupToks(s: Schema, terms: seq<Term>, from: nat, n: nat): seq<Token>
    requires TermsOk(s, terms) && from + n <= |terms|
  {
    if n == 0 then []
    else GroupToks(s, terms, from, n - 1) + (if n > 1 then [Word("AND")] else []) + TermToks(s, terms, from + n - 1)
  }

  function WhereToks(s: Schema, terms: seq<Term>, lens: seq<nat>, g: nat): seq<Token>
    requires GroupsOk(s, terms, lens) && g <= |lens|
  {
    if g == 0 then []
    else
      NumTermsPrefix(lens, g - 1);
      WhereToks(s, terms, lens, g - 1) + (if g > 1 then [Word("OR")] else [])
      + ([Open] + GroupToks(s, terms, NumTerms(lens[..g - 1]), lens[g - 1]) + [Close])
  }

  lemma LexTerm(s: Schema, terms: seq<Term>, i: nat)
    requires TermsOk(s, terms) && i < |terms| && Readable(s)
    ensures Lex(TermText(s, terms, i)) == Some(TermToks(s, terms, i))
  {
    hide Lex;
    var (name, op, num) := (NameOf(s, terms[i]), " " + OPS[terms[i].cmp], " ?" + Dec(i + 1));
    LexWord(name);
    LexOp(terms[i].cmp);
    LexParam(i + 1);
    LexSplits(name, op);
    LexSplits(name + op, num);
    assert TermText(s, terms, i) == (name + op) + num;
    assert TermToks(s, terms, i) == ([Word(name)] + [Operator(OPS[terms[i].cmp])]) + [Param(i + 1)];
  }

  lemma {:induction false} LexGroup(s: Schema, terms: seq<Term>, from: nat, n: nat)
    requires TermsOk(s, terms) && from + n <= |terms| && Readable(s)
    ensures Lex(GroupText(s, terms, from, n)) == Some(GroupToks(s, terms, from, n))
    decreases n
  {
    hide Lex, TermText, TermToks, Meet;
    LexSpace();
    if n > 0 {
      LexGroup(s, terms, from, n - 1);
      LexTerm(s, terms, from + n - 1);
      var (front, last) := (GroupText(s, terms, from, n - 1), TermText(s, terms, from + n - 1));
      var join := if n > 1 then " AND " else "";
      assert " AND " == " " + "AND" + " ";
      LexKeyword("AND");
      LexJoin(front, join, last, n > 1);
    }
  }

  lemma LexParens(body: string)
    requires Lex(body).Some?
    ensures Lex("(" + body + ")") == Some([Open] + Lex(body).value + [Close])
  {
    hide Lex;
    LexSpace();
    LexSplits("(", body);
    assert Lex("(" + body).Some?;
    LexSplits("(" + body, ")");
  }

  /** The last of the first g groups, and how it joins the others. */
  lemma WhereLast(s: Schema, terms: seq<Term>, lens: seq<nat>, g: nat) returns (from: nat, join: string, group: string)
    requires GroupsOk(s, terms, lens) && 0 < g <= |lens|
    ensures from == NumTerms(lens[..g - 1]) && from + lens[g - 1] <= |terms|
    ensures join == (if g > 1 then " OR " else "") && group == "(" + GroupText(s, terms, from, lens[g - 1]) + ")"
    ensures WhereText(s, terms, lens, g) == WhereText(s, terms, lens, g - 1) + join + group
    ensures WhereToks(s, terms, lens, g) == WhereToks(s, terms, lens, g - 1) + (if g > 1 then [Word("OR")] else [])
            + ([Open] + GroupToks(s, terms, from, lens[g - 1]) + [Close])
  {
    hide GroupText, GroupToks;
    NumTermsPrefix(lens, g - 1);
    from, join := NumTerms(lens[..g - 1]), if g > 1 then " OR " else "";
    group := "(" + GroupText(s, terms, from, lens[g - 1]) + ")";
  }

  /** One more group in parentheses, after OR unless it is the first. */
  lemma LexOr(front: string, body: string, more: bool)
    requires Lex(front).Some? && Lex(body).Some? && (!more ==> front == "")
    ensures Lex(front + (if more then " OR " else "") + ("(" + body + ")"))
            == Some(Lex(front).value + (if more then [Word("OR")] else []) + ([Open] + Lex(body).value + [Close]))
  {
    hide Lex;
    LexSpace();
    assert " OR " == " " + "OR" + " ";
    LexKeyword("OR");
    LexParens(body);
    LexJoin(front, if more then " OR " else "", "(" + body + ")", more);
  }

  lemma {:induction false} LexWhere(s: Schema, terms: seq<Term>, lens: seq<nat>, g: nat)
    requires GroupsOk(s, terms, lens) && g <= |lens| && Readable(s)
    ensures Lex(WhereText(s, terms, lens, g)) == Some(WhereToks(s, terms, lens, g))
    decreases g
  {
    if g == 0 {
      assert Lex("") == Some([]);
    } else {
      var from, join, group := WhereLast(s, terms, lens, g);
      hide Lex, GroupText, GroupToks, WhereText, WhereToks, Readable, TermsOk;
      LexWhere(s, terms, lens, g - 1);
      LexGroup(s, terms, from, lens[g - 1]);
      NoGroups(s, terms, lens);
      LexOr(WhereText(s, terms, lens, g - 1), GroupText(s, terms, from, lens[g - 1]), g > 1);
    }
  }

  lemma NoGroups(s: Schema, terms: seq<Term>, lens: seq<nat>)
    requires GroupsOk(s, terms, lens)
    ensures WhereText(s, terms, lens, 0) == ""
  {
  }

  // ---- reading it back ----

  datatype Cond = Compare(name: string, op: string, k: nat) | Both2(l: Cond, r: Cond) | Either(l: Cond, r: Cond)

  datatype Parsed = Parsed(c: Cond, rest: seq<Token>)

  /** OR, the loosest: a chain of AND chains. */
  function ParseOr(t: seq<Token>): (p: Option<Parsed>)
    ensures p.Some? ==> |p.value.rest| < |t|
    decreases |t|, 4
  {
    match ParseAnd(t)
    case None => None
    case Some(a) => OrTail(a.c, a.rest)
  }

  function OrTail(c: Cond, t: seq<Token>): (p: Option<Parsed>)
    ensures p.Some? ==> |p.value.rest| <= |t|
    decreases |t|, 3
  {
    if t == [] || t[0] != Word("OR") then Some(Parsed(c, t))
    else
      match ParseAnd(t[1..])
      case None => None
      case Some(a) => OrTail(Either(c, a.c), a.rest)
  }

  function ParseAnd(t: seq<Token>): (p: Option<Parsed>)
    ensures p.Some? ==> |p.value.rest| < |t|
    decreases |t|, 2
  {
    match ParsePrimary(t)
    case None => None
    case Some(a) => AndTail(a.c, a.rest)
  }

  function AndTail(c: Cond, t: seq<Token>): (p: Option<Parsed>)
    ensures p.Some? ==> |p.value.rest| <= |t|
    decreases |t|, 1
  {
    if t == [] || t[0] != Word("AND") then Some(Parsed(c, t))
    else
      match ParsePrimary(t[1..])
      case None => None
      case Some(a) => AndTail(Both2(c, a.c), a.rest)
  }

  /** A comparison, or a condition in parentheses. */
  function ParsePrimary(t: seq<Token>): (p: Option<Parsed>)
    ensures p.Some? ==> |p.value.rest| < |t|
    decreases |t|, 0
  {
    if t == [] then None
    else if t[0] == Open then
      match ParseOr(t[1..])
      case None => None
      case Some(a) => if a.rest == [] || a.rest[0] != Close then None else Some(Parsed(a.c, a.rest[1..]))
    else if |t| >= 3 && t[0].Word? && t[1].Operator? && t[2].Param? && t[0].s != "AND" && t[0].s != "OR" then
      Some(Parsed(Compare(t[0].s, t[1].s, t[2].k), t[3..]))
    else None
  }

  /** The condition a text spells, if it spells one and nothing after it. */
  function ReadCond(text: string): Option<Cond> {
    match Lex(text)
    case None => None
    case Some(t) =>
      match ParseOr(t)
      case None => None
      case Some(p) => if p.rest == [] then Some(p.c) else None
  }

  function TermCond(s: Schema, terms: seq<Term>, i: nat): Cond
    requires TermsOk(s, terms) && i < |terms|
  {
    Compare(NameOf(s, terms[i]), OPS[terms[i].cmp], i + 1)
  }

  function GroupCond(s: Schema, terms: seq<Term>, from: nat, n: nat): Cond
    requires TermsOk(s, terms) && from + n <= |terms| && n > 0
  {
    if n == 1 then TermCond(s, terms, from)
    else Both2(GroupCond(s, terms, from, n - 1), TermCond(s, terms, from + n - 1))
  }

  function WhereCond(s: Schema, terms: seq<Term>, lens: seq<nat>, g: nat): Cond
    requires GroupsOk(s, terms, lens) && 0 < g <= |lens|
  {
    NumTermsPrefix(lens, g - 1);
    var group := GroupCond(s, terms, NumTerms(lens[..g - 1]), lens[g - 1]);
    if g == 1 then group else Either(WhereCond(s, terms, lens, g - 1), group)
  }

  lemma PrimaryTerm(s: Schema, terms: seq<Term>, i: nat, rest: seq<Token>)
    requires TermsOk(s, terms) && i < |terms| && Readable(s)
    ensures ParsePrimary(TermToks(s, terms, i) + rest) == Some(Parsed(TermCond(s, terms, i), rest))
  {
    var t := TermToks(s, terms, i) + rest;
    assert t[3..] == rest;
  }

  lemma {:induction false} AndGroup(s: Schema, terms: seq<Term>, from: nat, n: nat, rest: seq<Token>)
    requires TermsOk(s, terms) && from + n <= |terms| && n > 0 && Readable(s)
    ensures ParseAnd(GroupToks(s, terms, from, n) + rest) == AndTail(GroupCond(s, terms, from, n), rest)
    decreases n
  {
    hide ParsePrimary, TermToks;
    PrimaryTerm(s, terms, from + n - 1, rest);
    var last := TermToks(s, terms, from + n - 1) + rest;
    if n == 1 {
      assert GroupToks(s, terms, from, 0) == [];
      assert GroupToks(s, terms, from, 1) + rest == last;
    } else {
      AndGroup(s, terms, from, n - 1, [Word("AND")] + last);
      assert GroupToks(s, terms, from, n) + rest == GroupToks(s, terms, from, n - 1) + ([Word("AND")] + last);
      assert ([Word("AND")] + last)[1..] == last;
    }
  }

  lemma AndParens(s: Schema, terms: seq<Term>, from: nat, n: nat, rest: seq<Token>)
    requires TermsOk(s, terms) && from + n <= |terms| && n > 0 && Readable(s)
    ensures ParseAnd([Open] + GroupToks(s, terms, from, n) + [Close] + rest)
            == AndTail(GroupCond(s, terms, from, n), rest)
  {
    var t := [Open] + GroupToks(s, terms, from, n) + [Close] + rest;
    var inner := GroupToks(s, terms, from, n) + ([Close] + rest);
    assert t[1..] == inner;
    AndGroup(s, terms, from, n, [Close] + rest);
    assert ([Close] + rest)[1..] == rest;
    assert ParseOr(inner) == Some(Parsed(GroupCond(s, terms, from, n), [Close] + rest));
  }

  lemma WhereToksLast(s: Schema, terms: seq<Term>, lens: seq<nat>, g: nat, rest: seq<Token>)
    requires GroupsOk(s, terms, lens) && 1 < g <= |lens|
    ensures var from := NumTerms(lens[..g - 1]);
            && from + lens[g - 1] <= |terms|
            && var last := [Open] + GroupToks(s, terms, from, lens[g - 1]) + [Close] + rest;
               WhereToks(s, terms, lens, g) + rest == WhereToks(s, terms, lens, g - 1) + ([Word("OR")] + last)
  {
    hide GroupToks;
    NumTermsPrefix(lens, g - 1);
  }

  lemma {:induction false} OrGroups(s: Schema, terms: seq<Term>, lens: seq<nat>, g: nat, rest: seq<Token>)
    requires GroupsOk(s, terms, lens) && 0 < g <= |lens| && Readable(s) && (rest == [] || rest[0] != Word("AND"))
    ensures ParseOr(WhereToks(s, terms, lens, g) + rest) == OrTail(WhereCond(s, terms, lens, g), rest)
    decreases g
  {
    hide GroupToks, GroupCond, ParseAnd;
    NumTermsPrefix(lens, g - 1);
    var from := NumTerms(lens[..g - 1]);
    AndParens(s, terms, from, lens[g - 1], rest);
    var last := [Open] + GroupToks(s, terms, from, lens[g - 1]) + [Close] + rest;
    if g == 1 {
      assert WhereToks(s, terms, lens, 0) == [];
      assert WhereToks(s, terms, lens, 1) + rest == last;
    } else {
      OrGroups(s, terms, lens, g - 1, [Word("OR")] + last);
      WhereToksLast(s, terms, lens, g, rest);
      assert ([Word("OR")] + last)[1..] == last;
    }
  }

  // ---- what it means ----

  /** A condition's truth, given each comparison's. */
  predicate Holds(c: Cond, truth: (string, string, nat) -> bool) {
    match c
    case Compare(name, op, k) => truth(name, op, k)
    case Both2(l, r) => Holds(l, truth) && Holds(r, truth)
    case Either(l, r) => Holds(l, truth) || Holds(r, truth)
  }

  predicate TermHolds(s: Schema, terms: seq<Term>, i: nat, truth: (string, string, nat) -> bool)
    requires TermsOk(s, terms) && i < |terms|
  {
    truth(NameOf(s, terms[i]), OPS[terms[i].cmp], i + 1)
  }

  /** Every term of group g holds. */
  predicate GroupHolds(s: Schema, terms: seq<Term>, lens: seq<nat>, g: nat, truth: (string, string, nat) -> bool)
    requires GroupsOk(s, terms, lens) && g < |lens|
  {
    NumTermsPrefix(lens, g);
    forall i | NumTerms(lens[..g]) <= i < NumTerms(lens[..g]) + lens[g] :: TermHolds(s, terms, i, truth)
  }

  lemma {:induction false} GroupMeans(s: Schema, terms: seq<Term>, from: nat, n: nat,
      truth: (string, string, nat) -> bool)
    requires TermsOk(s, terms) && from + n <= |terms| && n > 0
    ensures Holds(GroupCond(s, terms, from, n), truth)
      <==> forall i | from <= i < from + n :: TermHolds(s, terms, i, truth)
    decreases n
  {
    if n > 1 {
      GroupMeans(s, terms, from, n - 1, truth);
      assert Holds(TermCond(s, terms, from + n - 1), truth) == TermHolds(s, terms, from + n - 1, truth);
    } else {
      assert Holds(GroupCond(s, terms, from, 1), truth) == TermHolds(s, terms, from, truth);
    }
  }

  lemma {:induction false} WhereMeans(s: Schema, terms: seq<Term>, lens: seq<nat>, g: nat,
      truth: (string, string, nat) -> bool)
    requires GroupsOk(s, terms, lens) && 0 < g <= |lens|
    ensures Holds(WhereCond(s, terms, lens, g), truth)
      <==> exists h | 0 <= h < g :: GroupHolds(s, terms, lens, h, truth)
    decreases g
  {
    hide GroupHolds, GroupCond, NumTerms;
    LastMeans(s, terms, lens, g - 1, truth);
    if g > 1 {
      WhereMeans(s, terms, lens, g - 1, truth);
    }
  }

  lemma LastMeans(s: Schema, terms: seq<Term>, lens: seq<nat>, g: nat, truth: (string, string, nat) -> bool)
    requires GroupsOk(s, terms, lens) && g < |lens|
    ensures NumTerms(lens[..g]) + lens[g] <= |terms|
    ensures Holds(GroupCond(s, terms, NumTerms(lens[..g]), lens[g]), truth) <==> GroupHolds(s, terms, lens, g, truth)
  {
    NumTermsPrefix(lens, g);
    GroupMeans(s, terms, NumTerms(lens[..g]), lens[g], truth);
  }

  /** The text reads back as one condition, and that condition is the OR over the groups of
      the AND over each group's terms, placeholder k standing for term k - 1. */
  lemma WhereReadsBack(s: Schema, terms: seq<Term>, lens: seq<nat>)
    requires GroupsOk(s, terms, lens) && lens != [] && Readable(s)
    ensures ReadCond(WhereText(s, terms, lens, |lens|)) == Some(WhereCond(s, terms, lens, |lens|))
    ensures forall truth: (string, string, nat) -> bool ::
              Holds(WhereCond(s, terms, lens, |lens|), truth)
              <==> exists g | 0 <= g < |lens| :: GroupHolds(s, terms, lens, g, truth)
  {
    hide Lex, ParseOr, WhereText, WhereToks, WhereCond, GroupHolds;
    LexWhere(s, terms, lens, |lens|);
    var t := WhereToks(s, terms, lens, |lens|);
    assert t + [] == t;
    OrGroups(s, terms, lens, |lens|, []);
    forall truth: (string, string, nat) -> bool
      ensures Holds(WhereCond(s, terms, lens, |lens|), truth)
              <==> exists g | 0 <= g < |lens| :: GroupHolds(s, terms, lens, g, truth)
    {
      WhereMeans(s, terms, lens, |lens|, truth);
    }
  }

  /** A keyword stands for no column. */
  lemma KeywordNoName(word: string, rest: seq<Token>)
    requires word == "AND" || word == "OR"
    ensures ParsePrimary([Word(word)] + rest) == None
  {
  }

  // ---- which rows it selects ----

  /** The comparison a term asks for, by its number. */
  predicate Compares(cmp: nat, x: int, y: int) {
    match cmp
    case 0 => x == y
    case 1 => x != y
    case 2 => x < y
    case 3 => x <= y
    case 4 => x > y
    case 5 => x >= y
    case _ => false
  }

  /** The comparison SQL makes of an operator's spelling. */
  predicate Operates(op: string, x: int, y: int) {
    match op
    case "=" => x == y
    case "<>" => x < y || x > y
    case "<" => x < y
    case "<=" => !(x > y)
    case ">" => x > y
    case ">=" => !(x < y)
    case _ => false
  }

  lemma OpsMean(cmp: nat, x: int, y: int)
    requires cmp < |OPS|
    ensures Operates(OPS[cmp], x, y) <==> Compares(cmp, x, y)
  {
  }

  /** Every term of group g compares its column, as the term asked, with the value bound to
      its placeholder. */
  predicate GroupSelects(
    s: Schema, terms: seq<Term>, lens: seq<nat>, g: nat, row: string -> int, bound: nat -> int)
    requires TermsOk(s, terms) && g < |lens|
  {
    forall i | NumTerms(lens[..g]) <= i < NumTerms(lens[..g]) + lens[g] && i < |terms| ::
      Compares(terms[i].cmp, row(s.cols[terms[i].col].name), bound(i + 1))
  }

  lemma GroupMeaning(s: Schema, terms: seq<Term>, lens: seq<nat>, g: nat, row: string -> int, bound: nat -> int)
    requires GroupsOk(s, terms, lens) && g < |lens|
    ensures GroupHolds(s, terms, lens, g, (name: string, op: string, k: nat) => Operates(op, row(name), bound(k))) <==>
            GroupSelects(s, terms, lens, g, row, bound)
  {
    hide NumTerms, Operates, Compares;
    NumTermsPrefix(lens, g);
    var truth := (name: string, op: string, k: nat) => Operates(op, row(name), bound(k));
    forall i | 0 <= i < |terms|
      ensures TermHolds(s, terms, i, truth) <==>
              Compares(terms[i].cmp, row(s.cols[terms[i].col].name), bound(i + 1))
    {
      OpsMean(terms[i].cmp, row(s.cols[terms[i].col].name), bound(i + 1));
    }
  }

  /** A row is selected exactly when in some group every term's column compares, as the term
      asked, with the value bound to that term's placeholder. */
  lemma WhereSelects(s: Schema, terms: seq<Term>, lens: seq<nat>, row: string -> int, bound: nat -> int)
    requires GroupsOk(s, terms, lens) && lens != [] && Readable(s)
    ensures var c := ReadCond(WhereText(s, terms, lens, |lens|));
            && c.Some?
            && (Holds(c.value, (name: string, op: string, k: nat) => Operates(op, row(name), bound(k))) <==>
                exists g | 0 <= g < |lens| :: GroupSelects(s, terms, lens, g, row, bound))
  {
    hide ReadCond, WhereText, WhereCond, Holds, Operates, Compares, NumTerms, GroupHolds, TermHolds, Readable;
    WhereReadsBack(s, terms, lens);
    var truth := (name: string, op: string, k: nat) => Operates(op, row(name), bound(k));
    forall g | 0 <= g < |lens|
      ensures GroupHolds(s, terms, lens, g, truth) <==> GroupSelects(s, terms, lens, g, row, bound)
    {
      GroupMeaning(s, terms, lens, g, row, bound);
    }
  }
}
