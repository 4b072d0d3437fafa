/** C expressions as text: printing the tokens of an expression, or the expression itself with
    the fewest parentheses, and reading them back. */
module CText {
  import opened Options
  import opened Word
  import opened Front

  // ---------------------------------------------------------------- tokens

  /** n characters from c on. */
  function From(c: char, n: nat): string
    requires c as int + n < 128
  {
    seq(n, i requires 0 <= i < n => (c as int + i) as char)
  }

  predicate Letter(c: char) { c in From('a', 26) || c in From('A', 26) || c == '_' }

  const KEYWORDS: seq<string> :=
    ["int", "char", "if", "else", "while", "for", "return", "sizeof", "struct", "typedef", "switch", "case", "default",
     "break", "continue"]

  const MARKS: seq<string> :=
    ["+", "-", "*", "/", "%", "=", "<", ">", "(", ")", "[", "]", "{", "}", "&", "!", ",", ";", ".", ":"]

  const PAIRS: seq<string> := ["==", "!=", "<=", ">=", "&&", "||", "->"]

  ghost predicate Plain(t: Tok) {
    match t
    case TNum(v) => v < M64
    case TId(s) => s !in KEYWORDS && s != "" && Letter(s[0]) && forall i :: 0 <= i < |s| ==>
      Letter(s[i]) || s[i] in From('0', 10)
    case TKw(s) => s in KEYWORDS
    case TP(s) => s in MARKS || s in PAIRS
  }

  function Spell(t: Tok): string { match t case TNum(v) => Dec(v) case TId(s) => s case TKw(s) => s case TP(s) => s }

  /** Every token followed by a space. */
  function Text(toks: seq<Tok>): string { if toks == [] then "" else Spell(toks[0]) + (" " + Text(toks[1..])) }

  lemma Letters(c: char)
    ensures (Letter(c) ==> IsAlpha(c)) && (c in From('0', 10) ==> IsDigit(c))
  {
  }

  lemma KeywordNames(s: string)
    requires s in KEYWORDS
    ensures Name(s) && IsKeyword(s)
  {
  }

  lemma LexMarkSpace(c: char, rest: string)
    requires [c] in MARKS
    ensures Lex([c] + (" " + rest)) == Cons(TP([c]), Lex(" " + rest))
  {
    var s := [c] + (" " + rest);
    MarkParts(c);
    assert s[..1] == [c] && s[1..] == " " + rest && s[0] == c && s[1] == ' ';
    assert s[..2] == [c, ' '];
  }

  lemma MarkParts(c: char)
    requires [c] in MARKS
    ensures OneChar(c) && !IsSpace(c) && !IsDigit(c) && !IsAlpha(c) && !TwoChar([c, ' '])
  {
    var s := [c, ' '];
    assert s[1] == ' ';
    assert [c][0] == c;
  }

  lemma LexPair(p: string, rest: string)
    requires p in PAIRS
    ensures Lex(p + rest) == Cons(TP(p), Lex(rest))
  {
    var s := p + rest;
    assert |p| == 2 && s[..2] == p && s[2..] == rest && s[0] == p[0] && s[1] == p[1];
  }

  lemma LexToken(t: Tok, rest: string)
    requires Plain(t)
    ensures Lex(Spell(t) + (" " + rest)) == Cons(t, Lex(rest))
  {
    hide Lex, Dec;
    LexSpace(rest);
    match t
    case TNum(v) => LexDec(v, " " + rest);
    case TId(s) =>
      forall i | 0 <= i < |s| ensures IsAlnum(s[i]) { Letters(s[i]); }
      Letters(s[0]);
      NotKeyword(s);
      LexWord(s, " " + rest);
    case TKw(s) =>
      KeywordNames(s);
      LexWord(s, " " + rest);
    case TP(s) =>
      if s in PAIRS {
        LexPair(s, " " + rest);
      } else {
        MarkIs(s);
        LexMarkSpace(s[0], rest);
      }
  }

  lemma MarkIs(s: string)
    requires s in MARKS
    ensures |s| == 1 && s == [s[0]]
  {
  }

  lemma NotKeyword(s: string)
    requires s !in KEYWORDS
    ensures !IsKeyword(s)
  {
  }

  /** The lexer reads any sequence of tokens back from its spelling. */
  lemma {:induction false} LexText(toks: seq<Tok>)
    requires forall i :: 0 <= i < |toks| ==> Plain(toks[i])
    ensures Lex(Text(toks)) == Some(toks)
    decreases |toks|
  {
    hide Plain, Spell;
    if toks == [] {
      assert Lex("") == Some([]);
    } else {
      hide Lex;
      LexText(toks[1..]);
      LexToken(toks[0], Text(toks[1..]));
      assert [toks[0]] + toks[1..] == toks;
    }
  }

  // ---------------------------------------------------------------- expressions

  /** The binary operators, tightest first; those of one level associate to the left. */
  const LEVELS: seq<set<string>> :=
    [{"*", "/", "%"}, {"+", "-"}, {"<", "<=", ">", ">="}, {"==", "!="}, {"&&"}, {"||"}]

  function OpLevel(op: string): (n: nat)
    ensures n <= 6 && (n > 0 ==> op in LEVELS[n - 1])
  {
    if op in LEVELS[0] then 1
    else if op in LEVELS[1] then 2
    else if op in LEVELS[2] then 3
    else if op in LEVELS[3] then 4
    else if op in LEVELS[4] then 5
    else if op in LEVELS[5] then 6
    else 0
  }

  lemma OneLevel(n: nat, op: string)
    requires 1 <= n <= 6
    ensures OpAt(n, op) <==> OpLevel(op) == n
  {
  }

  predicate Valid(e: CE) {
    match e
    case CNum(_) | CVar(_) => true
    case CCall(_, es) => ValidArgs(es)
    case CNeg(x) => Valid(x)
    case CNot(x) => Valid(x)
    case CBin(op, l, r) => OpLevel(op) > 0 && Valid(l) && Valid(r)
  }

  predicate ValidArgs(es: CEs) { match es case CNil => true case CCons(e, t) => Valid(e) && ValidArgs(t) }

  function LevelOf(e: CE): nat { if e.CBin? then OpLevel(e.op) else 0 }

  /** Parentheses only where precedence or associativity asks for them. */
  function Show(n: nat, e: CE): (ts: seq<Tok>)
    decreases e, 1
  {
    if LevelOf(e) > n then [TP("(")] + Bare(e) + [TP(")")] else Bare(e)
  }

  function Bare(e: CE): (ts: seq<Tok>)
    decreases e, 0
  {
    match e
    case CNum(v) => [TNum(v)]
    case CVar(x) => [TId(x)]
    case CCall(f, es) => [TId(f), TP("(")] + ShowArgs(es) + [TP(")")]
    case CNeg(x) => [TP("-")] + Show(0, x)
    case CNot(x) => [TP("!")] + Show(0, x)
    case CBin(op, l, r) => Show(OpLevel(op), l) + [TP(op)] + Show(if OpLevel(op) > 0 then OpLevel(op) - 1 else 0, r)
  }

  function ShowArgs(es: CEs): (ts: seq<Tok>)
    decreases es, 2
  {
    match es
    case CNil => []
    case CCons(e, t) => if t.CNil? then Show(6, e) else Show(6, e) + [TP(",")] + ShowArgs(t)
  }

  /** What may follow an expression of level n: no operator of that level or tighter, and
      nothing that goes on with an operand. */
  predicate Stops(n: nat, ts: seq<Tok>) {
    ts == [] || (ts[0].TP? && ts[0].s !in ["(", "[", ".", "->", "="] && !(1 <= OpLevel(ts[0].s) <= n))
  }

  lemma {:induction false} FirstShown(n: nat, e: CE)
    requires Valid(e)
    ensures Show(n, e) != [] && Bare(e) != [] && Show(n, e)[0] != TP(")")
    ensures Bare(e)[0] != TP(")")
    decreases e
  {
    match e
    case CBin(op, l, r) => FirstShown(OpLevel(op), l);
    case _ =>
  }

  /** Operands: what Unary reads. */
  lemma {:induction false} ReadsOperand(e: CE, rest: seq<Tok>)
    requires Valid(e) && Stops(0, rest)
    ensures Unary(Show(0, e) + rest) == Some((e, rest))
    decreases e, if LevelOf(e) == 0 then 0 else 10
  {
    hide Level, Assign, Args, Show;
    match e
    case CNum(v) => ReadsPlain(e, rest);
    case CVar(x) => ReadsPlain(e, rest);
    case CCall(f, es) => ReadsCall(f, es, rest);
    case CNeg(x) =>
      ReadsOperand(x, rest);
      ReadsSign(e, x, "-", rest);
    case CNot(x) =>
      ReadsOperand(x, rest);
      ReadsSign(e, x, "!", rest);
    case CBin(op, l, r) =>
      var close := [TP(")")] + rest;
      Reads(6, e, close);
      ReadsParens(e, rest);
  }

  lemma ReadsPlain(e: CE, rest: seq<Tok>)
    requires (e.CNum? || e.CVar?) && Stops(0, rest)
    ensures Unary(Show(0, e) + rest) == Some((e, rest))
  {
    var toks := Show(0, e) + rest;
    var t := if e.CNum? then TNum(e.v) else TId(e.name);
    assert Show(0, e) == [t];
    assert toks[0] == t && toks[1..] == rest;
    assert Primary(toks) == Some((e, rest));
  }

  lemma ReadsSign(e: CE, x: CE, sign: string, rest: seq<Tok>)
    requires (e == CNeg(x) && sign == "-") || (e == CNot(x) && sign == "!")
    requires Unary(Show(0, x) + rest) == Some((x, rest))
    ensures Unary(Show(0, e) + rest) == Some((e, rest))
  {
    hide Unary, Show;
    ShowSign(e, x, sign);
    var toks := [TP(sign)] + (Show(0, x) + rest);
    assert ([TP(sign)] + Show(0, x)) + rest == toks;
    assert toks[1..] == Show(0, x) + rest;
    UnarySign(toks, sign, x, rest);
  }

  lemma ShowSign(e: CE, x: CE, sign: string)
    requires (e == CNeg(x) && sign == "-") || (e == CNot(x) && sign == "!")
    ensures Show(0, e) == [TP(sign)] + Show(0, x)
  {
  }

  lemma UnarySign(toks: seq<Tok>, sign: string, x: CE, rest: seq<Tok>)
    requires (sign == "-" || sign == "!") && At(toks, sign) && Unary(toks[1..]) == Some((x, rest))
    ensures Unary(toks) == Some((if sign == "-" then CNeg(x) else CNot(x), rest))
  {
  }

  lemma ReadsParens(e: CE, rest: seq<Tok>)
    requires e.CBin? && OpLevel(e.op) > 0 && Stops(0, rest)
    requires Assign(Bare(e) + ([TP(")")] + rest)) == Some((e, [TP(")")] + rest))
    ensures Unary(Show(0, e) + rest) == Some((e, rest))
  {
    hide Assign;
    var toks := Show(0, e) + rest;
    var close := [TP(")")] + rest;
    assert Show(0, e) == [TP("(")] + Bare(e) + [TP(")")];
    assert toks[0] == TP("(") && toks[1..] == Bare(e) + close && close[1..] == rest;
    assert Primary(toks) == Some((e, rest));
  }

  lemma ReadsCall(f: string, es: CEs, rest: seq<Tok>)
    requires ValidArgs(es) && Stops(0, rest)
    ensures Unary(Show(0, CCall(f, es)) + rest) == Some((CCall(f, es), rest))
    decreases es, 12
  {
    hide Assign, Args;
    var e := CCall(f, es);
    var toks := Show(0, e) + rest;
    var t := ShowArgs(es) + ([TP(")")] + rest);
    assert Show(0, e) == [TId(f), TP("(")] + ShowArgs(es) + [TP(")")];
    assert toks[0] == TId(f) && toks[1..][0] == TP("(") && toks[2..] == t;
    ReadsArgs(es, rest);
    assert Primary(toks) == Some((e, rest));
  }

  lemma {:induction false} ReadsArgs(es: CEs, rest: seq<Tok>)
    requires ValidArgs(es)
    ensures Args(ShowArgs(es) + ([TP(")")] + rest)) == Some((es, rest))
    ensures es.CCons? ==> MoreArgs(ShowArgs(es) + ([TP(")")] + rest)) == Some((es, rest))
    decreases es, 11
  {
    hide Assign, Show, MoreArgs, Valid;
    var close := [TP(")")] + rest;
    assert close[1..] == rest && close[0] == TP(")");
    match es
    case CNil => assert ShowArgs(es) + close == close;
    case CCons(e, t) =>
      ArgsParts(e, t);
      FirstShown(6, e);
      if t.CNil? {
        Reads(6, e, close);
        LastArg(e, Show(6, e) + close, close);
      } else {
        var next := ShowArgs(t) + close;
        var more := [TP(",")] + next;
        ReadsArgs(t, rest);
        Reads(6, e, more);
        assert more[1..] == next;
        assert ShowArgs(es) + close == Show(6, e) + more;
        OneMoreArg(e, t, Show(6, e) + more, more, rest);
      }
  }

  lemma ArgsParts(e: CE, t: CEs)
    requires ValidArgs(CCons(e, t))
    ensures Valid(e) && ValidArgs(t)
  {
  }

  /** An expression of level n followed by something looser is read whole; up to level 6 that
      is also what Assign reads. */
  lemma {:induction false} Reads(n: nat, e: CE, rest: seq<Tok>)
    requires Valid(e) && n <= 6 && Stops(n, rest)
    ensures Level(n, Show(n, e) + rest) == Some((e, rest))
    ensures n == 6 ==> Assign(Show(n, e) + rest) == Some((e, rest)) && Assign(Bare(e) + rest) == Some((e, rest))
    decreases e, if n < LevelOf(e) then 20 + n else n + 1, 1
  {
    hide Unary, Show, Bare;
    if n == 0 {
      ReadsOperand(e, rest);
    } else {
      Continues(n, e, rest);
      if rest != [] { OneLevel(n, rest[0].s); }
      assert Rest(n, e, rest) == Some((e, rest));
    }
    if n == 6 { ShowAll(e); }
  }

  lemma {:induction false} Continues(n: nat, e: CE, rest: seq<Tok>)
    requires Valid(e) && 1 <= n <= 6 && Stops(n - 1, rest)
    ensures Level(n, Show(n, e) + rest) == Rest(n, e, rest)
    decreases e, if n < LevelOf(e) then 20 + n else n + 1, 0
  {
    hide Unary, Show, Bare;
    ShowBin(n, e);
    if LevelOf(e) == n {
      var more := [TP(e.op)] + (Show(n - 1, e.r) + rest);
      assert Show(n, e) + rest == Show(n, e.l) + more;
      assert more[1..] == Show(n - 1, e.r) + rest;
      OneLevel(n, e.op);
      Continues(n, e.l, more);
      Reads(n - 1, e.r, rest);
    } else {
      assert Show(n, e) == Show(n - 1, e);
      Reads(n - 1, e, rest);
    }
  }

  lemma ShowBin(n: nat, e: CE)
    requires 1 <= n <= 6
    ensures if LevelOf(e) == n then e.CBin? && Show(n, e) == Show(n, e.l) + [TP(e.op)] + Show(n - 1, e.r)
            else Show(n, e) == Show(n - 1, e)
  {
  }

  /** Printing an expression and reading it back, from its text. */
  lemma PrintRead(e: CE)
    requires Valid(e)
    ensures Assign(Show(6, e)) == Some((e, []))
    ensures (forall i :: 0 <= i < |Show(6, e)| ==> Plain(Show(6, e)[i])) ==> Lex(Text(Show(6, e))) == Some(Show(6, e))
  {
    hide *;
    StopsEmpty();
    Reads(6, e, []);
    assert Show(6, e) + [] == Show(6, e);
    if forall i :: 0 <= i < |Show(6, e)| ==> Plain(Show(6, e)[i]) { LexText(Show(6, e)); }
  }

  lemma StopsEmpty()
    ensures Stops(6, [])
  {
  }

  lemma ShowAll(e: CE)
    ensures Show(6, e) == Bare(e)
  {
  }
}
