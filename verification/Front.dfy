/** The C front end on values: the lexer, and the expression part of the parser.  Literals in
    quotes, comments, indexing, members, `*`, `&`, `sizeof` and assignment give None. */
module Front {
  import opened Options
  import opened Word

  datatype Tok = TNum(v: nat) | TId(s: string) | TKw(s: string) | TP(s: string)

  predicate IsSpace(c: char) { c == ' ' || c == '\t' || c == '\r' || c == '\n' }
  predicate IsDigit(c: char) { '0' <= c <= '9' }
  predicate IsAlpha(c: char) { 'a' <= c <= 'z' || 'A' <= c <= 'Z' || c == '_' }
  predicate IsAlnum(c: char) { IsAlpha(c) || IsDigit(c) }

  predicate IsKeyword(s: string) {
    s in ["int", "char", "if", "else", "while", "for", "return", "sizeof", "struct", "typedef", "switch", "case",
      "default", "break", "continue"]
  }

  predicate TwoChar(s: string) { s in ["==", "!=", "<=", ">=", "&&", "||", "->"] }
  predicate OneChar(c: char) { c in "+-*/%=<>()[]{}&!,;.:" }

  /** How many characters from the front are digits, or alphanumeric. */
  function Digits(s: string): (n: nat)
    ensures n <= |s|
  {
    if s != "" && IsDigit(s[0]) then 1 + Digits(s[1..]) else 0
  }

  function Alnums(s: string): (n: nat)
    ensures n <= |s|
  {
    if s != "" && IsAlnum(s[0]) then 1 + Alnums(s[1..]) else 0
  }

  function Value(s: string): nat {
    if s == "" then 0 else (10 * Value(s[..|s| - 1]) + DigitOf(s[|s| - 1])) % M64
  }

  function DigitOf(c: char): nat { if IsDigit(c) then c as int - '0' as int else 0 }

  function Cons(t: Tok, r: Option<seq<Tok>>): Option<seq<Tok>> {
    match r case None => None case Some(ts) => Some([t] + ts)
  }

  function Lex(s: string): Option<seq<Tok>>
    decreases |s|
  {
    if s == "" then Some([])
    else if IsSpace(s[0]) then Lex(s[1..])
    else if |s| > 1 && s[0] == '/' && (s[1] == '/' || s[1] == '*') then None
    else if IsDigit(s[0]) then Cons(TNum(Value(s[..Digits(s)])), Lex(s[Digits(s)..]))
    else if IsAlpha(s[0]) then
      var w := s[..Alnums(s)];
      Cons(if IsKeyword(w) then TKw(w) else TId(w), Lex(s[Alnums(s)..]))
    else if |s| > 1 && TwoChar(s[..2]) then Cons(TP(s[..2]), Lex(s[2..]))
    else if OneChar(s[0]) then Cons(TP(s[..1]), Lex(s[1..]))
    else None
  }

  // ---------------------------------------------------------------- parsing

  datatype CE =
    | CNum(v: nat)
    | CVar(name: string)
    | CCall(f: string, args: CEs)
    | CNeg(e: CE)
    | CNot(e: CE)
    | CBin(op: string, l: CE, r: CE)

  datatype CEs = CNil | CCons(hd: CE, tl: CEs)

  predicate At(toks: seq<Tok>, s: string) { toks != [] && toks[0] == TP(s) }

  /** The binary operators of each level, tightest first. */
  predicate OpAt(n: nat, s: string) {
    match n
    case 1 => s == "*" || s == "/" || s == "%"
    case 2 => s == "+" || s == "-"
    case 3 => s == "<" || s == "<=" || s == ">" || s == ">="
    case 4 => s == "==" || s == "!="
    case 5 => s == "&&"
    case 6 => s == "||"
    case _ => false
  }

  type Parsed<T> = Option<(T, seq<Tok>)>

  predicate Shorter<T>(r: Parsed<T>, toks: seq<Tok>) { r.Some? ==> |r.value.1| < |toks| }

  function Primary(toks: seq<Tok>): (r: Parsed<CE>)
    ensures Shorter(r, toks)
    decreases |toks|, 0
  {
    if toks == [] then None
    else if At(toks, "(") then
      (match Assign(toks[1..])
       case Some((e, t)) => if At(t, ")") then Some((e, t[1..])) else None
       case None => None)
    else match toks[0]
      case TNum(v) => Some((CNum(v), toks[1..]))
      case TId(f) =>
        if At(toks[1..], "(") then
          (match Args(toks[2..])
           case Some((es, t)) => Some((CCall(f, es), t))
           case None => None)
        else Some((CVar(f), toks[1..]))
      case _ => None
  }

  /** The arguments of a call and the closing parenthesis. */
  function Args(toks: seq<Tok>): (r: Parsed<CEs>)
    ensures Shorter(r, toks)
    decreases |toks|, 20
  {
    if At(toks, ")") then Some((CNil, toks[1..])) else MoreArgs(toks)
  }

  function MoreArgs(toks: seq<Tok>): (r: Parsed<CEs>)
    ensures Shorter(r, toks)
    decreases |toks|, 19
  {
    match Assign(toks)
    case None => None
    case Some((e, t)) =>
      if At(t, ",") then
        (match MoreArgs(t[1..])
         case None => None
         case Some((es, u)) => Some((CCons(e, es), u)))
      else if At(t, ")") then Some((CCons(e, CNil), t[1..]))
      else None
  }

  function Postfix(toks: seq<Tok>): (r: Parsed<CE>)
    ensures Shorter(r, toks)
    decreases |toks|, 1
  {
    match Primary(toks)
    case None => None
    case Some((e, t)) => if At(t, "[") || At(t, ".") || At(t, "->") then None else Some((e, t))
  }

  function Unary(toks: seq<Tok>): (r: Parsed<CE>)
    ensures Shorter(r, toks)
    decreases |toks|, 2
  {
    if toks == [] || At(toks, "*") || At(toks, "&") || toks[0] == TKw("sizeof") then None
    else if At(toks, "+") then Unary(toks[1..])
    else if At(toks, "-") || At(toks, "!") then
      (match Unary(toks[1..])
       case None => None
       case Some((e, t)) => Some((if toks[0].s == "-" then CNeg(e) else CNot(e), t)))
    else Postfix(toks)
  }

  /** Left-associative levels, from unary up to `||`. */
  function Level(n: nat, toks: seq<Tok>): (r: Parsed<CE>)
    requires n <= 6
    ensures Shorter(r, toks)
    decreases |toks|, 3 + 2 * n
  {
    if n == 0 then Unary(toks)
    else match Level(n - 1, toks)
      case None => None
      case Some((e, t)) => Rest(n, e, t)
  }

  function Rest(n: nat, e: CE, toks: seq<Tok>): (r: Parsed<CE>)
    requires 1 <= n <= 6
    ensures r.Some? ==> |r.value.1| <= |toks|
    decreases |toks|, 2 + 2 * n
  {
    if toks != [] && toks[0].TP? && OpAt(n, toks[0].s) then
      match Level(n - 1, toks[1..])
      case None => None
      case Some((f, t)) => Rest(n, CBin(toks[0].s, e, f), t)
    else Some((e, toks))
  }

  function Assign(toks: seq<Tok>): (r: Parsed<CE>)
    ensures Shorter(r, toks)
    decreases |toks|, 18
  {
    match Level(6, toks)
    case None => None
    case Some((e, t)) => if At(t, "=") then None else Some((e, t))
  }

  // ---------------------------------------------------------------- lexing in pieces

  /** What may follow an operand. */
  predicate Break(s: string) { s == "" || s[0] == '(' || s[0] == ')' || s[0] == ',' || s[0] == ' ' }

  predicate Name(w: string) { w != "" && IsAlpha(w[0]) && forall i :: 0 <= i < |w| ==> IsAlnum(w[i]) }

  lemma {:induction false} AlnumsOf(w: string, rest: string)
    requires (forall i :: 0 <= i < |w| ==> IsAlnum(w[i])) && Break(rest)
    ensures Alnums(w + rest) == |w|
    decreases |w|
  {
    if w == "" {
      assert w + rest == rest;
    } else {
      assert (w + rest)[1..] == w[1..] + rest;
      AlnumsOf(w[1..], rest);
    }
  }

  lemma LexWord(w: string, rest: string)
    requires Name(w) && Break(rest)
    ensures Lex(w + rest) == Cons(if IsKeyword(w) then TKw(w) else TId(w), Lex(rest))
  {
    AlnumsOf(w, rest);
    var s := w + rest;
    assert s[..|w|] == w && s[|w|..] == rest && s[0] == w[0];
  }

  lemma LexMark(c: char, rest: string)
    requires c == '(' || c == ')' || c == ','
    ensures Lex([c] + rest) == Cons(TP([c]), Lex(rest))
  {
    var s := [c] + rest;
    assert s[..1] == [c] && s[1..] == rest && s[0] == c;
    if |s| > 1 { assert s[..2][0] == c; }
  }

  lemma LexSpace(rest: string)
    ensures Lex(" " + rest) == Lex(rest)
  {
    assert (" " + rest)[1..] == rest;
  }

  function Dec(n: nat): (s: string)
    ensures |s| > 0 && forall i :: 0 <= i < |s| ==> IsDigit(s[i])
  {
    if n < 10 then [('0' as int + n) as char] else Dec(n / 10) + [('0' as int + n % 10) as char]
  }

  lemma {:induction false} ValueDec(n: nat)
    requires n < M64
    ensures Value(Dec(n)) == n
    decreases n
  {
    var s := Dec(n);
    if n < 10 {
      assert s[..|s| - 1] == "";
    } else {
      assert s[..|s| - 1] == Dec(n / 10);
      ValueDec(n / 10);
    }
  }

  lemma {:induction false} DigitsOf(w: string, rest: string)
    requires (forall i :: 0 <= i < |w| ==> IsDigit(w[i])) && Break(rest)
    ensures Digits(w + rest) == |w|
    decreases |w|
  {
    if w == "" {
      assert w + rest == rest;
    } else {
      assert (w + rest)[1..] == w[1..] + rest;
      DigitsOf(w[1..], rest);
    }
  }

  lemma LexDec(n: nat, rest: string)
    requires n < M64 && Break(rest)
    ensures Lex(Dec(n) + rest) == Cons(TNum(n), Lex(rest))
  {
    var w := Dec(n);
    DigitsOf(w, rest);
    ValueDec(n);
    var s := w + rest;
    assert s[..|w|] == w && s[|w|..] == rest && s[0] == w[0];
  }

  // ---------------------------------------------------------------- parsing in pieces

  predicate Ends(toks: seq<Tok>) { toks == [] || toks[0] == TP(",") || toks[0] == TP(")") }

  /** An operand followed by the end of an argument passes every level unchanged. */
  lemma {:induction false} LevelPass(n: nat, toks: seq<Tok>, e: CE, rest: seq<Tok>)
    requires n <= 6 && Unary(toks) == Some((e, rest)) && Ends(rest)
    ensures Level(n, toks) == Some((e, rest))
    decreases n
  {
    if n > 0 { LevelPass(n - 1, toks, e, rest); }
  }

  lemma AssignPass(toks: seq<Tok>, e: CE, rest: seq<Tok>)
    requires Primary(toks) == Some((e, rest)) && Ends(rest) && toks != [] && (toks[0].TId? || toks[0].TNum?)
    ensures Assign(toks) == Some((e, rest))
  {
    assert Postfix(toks) == Some((e, rest));
    assert Unary(toks) == Some((e, rest));
    LevelPass(6, toks, e, rest);
  }

  lemma LastArg(e: CE, toks: seq<Tok>, close: seq<Tok>)
    requires Assign(toks) == Some((e, close)) && At(close, ")")
    ensures MoreArgs(toks) == Some((CCons(e, CNil), close[1..]))
  {
    hide Assign;
  }

  lemma OneMoreArg(e: CE, t: CEs, toks: seq<Tok>, more: seq<Tok>, rest: seq<Tok>)
    requires Assign(toks) == Some((e, more)) && At(more, ",") && MoreArgs(more[1..]) == Some((t, rest))
    ensures MoreArgs(toks) == Some((CCons(e, t), rest))
  {
    hide Assign;
  }

  lemma CallRead(f: string, toks: seq<Tok>, es: CEs, rest: seq<Tok>)
    requires |toks| > 2 && toks[0] == TId(f) && toks[1] == TP("(") && toks[2] != TP(")")
    requires MoreArgs(toks[2..]) == Some((es, rest))
    ensures Primary(toks) == Some((CCall(f, es), rest))
  {
    hide MoreArgs, Assign;
    assert toks[1..][0] == toks[1] && toks[2..][0] == toks[2];
  }
}
