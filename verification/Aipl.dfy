/** Expressions of the actor language, translated to C text whose meaning is kept: the text
    is lexed and parsed by the C front end, compiled, and run against the value runtime. */
module Aipl {
  import opened Options
  import opened Word
  import opened Front

  datatype Op2 = OAdd | OSub | OMul | ODiv | OLt | OLe | OGt | OGe | OEq | ONe | OAnd | OOr

  /** Effect-free expressions over integers, booleans and local variables. */
  datatype Exp =
    | Int(n: nat)
    | Truth(b: bool)
    | Local(name: string)
    | Not(e: Exp)
    | Neg(e: Exp)
    | Bin(op: Op2, l: Exp, r: Exp)

  /** Literals fit a long, names are identifiers. */
  predicate Sane(e: Exp) {
    match e
    case Int(n) => n < M63
    case Truth(_) => true
    case Local(x) => forall i :: 0 <= i < |x| ==> IsAlnum(x[i])
    case Not(x) => Sane(x)
    case Neg(x) => Sane(x)
    case Bin(_, l, r) => Sane(l) && Sane(r)
  }

  // ---------------------------------------------------------------- emitting text

  /** The runtime function of an operator; > and >= are < and <= with operands swapped. */
  function Fn(op: Op2): string {
    match op
    case OAdd => "v_add" case OSub => "v_sub" case OMul => "v_mul" case ODiv => "v_div"
    case OLt => "v_lt" case OGt => "v_lt" case OLe => "v_le" case OGe => "v_le"
    case OEq => "v_eq" case ONe => "v_ne" case OAnd => "v_and" case OOr => "v_or"
  }

  predicate Swaps(op: Op2) { op == OGt || op == OGe }

  const SELF := "self"

  /** `self` is the number of the running actor, a C int that has to be wrapped. */
  function NameText(x: string): string { if x == SELF then "v_int" + ("(" + (SELF + ")")) else "v_" + x }

  function Text(e: Exp): string {
    match e
    case Int(n) => "v_int" + ("(" + (Dec(n) + ")"))
    case Truth(b) => "v_bool" + ("(" + (Dec(if b then 1 else 0) + ")"))
    case Local(x) => NameText(x)
    case Not(x) => "v_not" + ("(" + (Text(x) + ")"))
    case Neg(x) => "v_sub" + ("(" + ("v_int" + ("(" + (Dec(0) + (")" + ("," + (" " + (Text(x) + ")"))))))))
    case Bin(op, l, r) =>
      var (a, b) := if Swaps(op) then (r, l) else (l, r);
      Fn(op) + ("(" + (Text(a) + ("," + (" " + (Text(b) + ")")))))
  }

  /** What fits: the last byte of the buffer stays free. */
  function Fit(s: string, cap: nat): string
    requires cap > 0
  {
    if |s| < cap then s else s[..cap - 1]
  }

  class Printer {
    const cap: nat
    var out: string

    ghost predicate Valid() reads this { cap > 0 && |out| < cap }

    constructor (cap: nat)
      requires cap > 0
      ensures Valid() && out == "" && this.cap == cap
    {
      this.cap, out := cap, "";
    }

    method PutChar(c: char)
      requires Valid()
      modifies this`out
      ensures Valid() && out == Fit(old(out) + [c], cap)
    {
      if |out| < cap - 1 { out := out + [c]; }
    }

    method PutText(s: string)
      requires Valid()
      modifies this`out
      ensures Valid() && out == Fit(old(out) + s, cap)
    {
      for i := 0 to |s|
        invariant Valid() && out == Fit(old(out) + s[..i], cap)
      {
        FitMore(old(out) + s[..i], [s[i]], cap);
        assert old(out) + s[..i + 1] == (old(out) + s[..i]) + [s[i]];
        PutChar(s[i]);
      }
      assert s[..|s|] == s;
    }

    /** Decimal digits, collected from the right and printed from the left. */
    method PutNumber(v: nat)
      requires Valid()
      modifies this`out
      ensures Valid() && out == Fit(old(out) + Dec(v), cap)
    {
      var b, n := "", v;
      if v == 0 { b := "0"; }
      assert Dec(v) + "" == Dec(v);
      while n > 0
        invariant Valid() && out == old(out)
        invariant n >= 0 && Dec(v) == if n > 0 then Dec(n) + b else b
      {
        DecStep(n, b);
        assert Dec(n) + b == Dec(v);
        b := [('0' as int + n % 10) as char] + b;
        n := n / 10;
      }
      PutText(b);
    }

    /** The recursive emitter writes the text of the expression, cut at the capacity. */
    method Emit(e: Exp)
      requires Valid()
      modifies this`out
      ensures Valid() && out == Fit(old(out) + Text(e), cap)
      decreases e, 1
    {
      hide Fit, Dec, NameText, Text;
      ghost var o := out;
      match e
      case Int(_) | Truth(_) => EmitConstant(e);
      case Local(x) =>
        LocalText(x);
        EmitIdent(x);
      case Not(x) =>
        PutText("v_not(");
        Emit(x);
        PutChar(')');
        Three(o, "v_not(", Text(x), ")", cap);
        NotText(x);
      case Neg(x) =>
        PutText("v_sub(v_int(0), ");
        Emit(x);
        PutChar(')');
        Three(o, "v_sub(v_int(0), ", Text(x), ")", cap);
        NegText(x);
      case Bin(op, l, r) =>
        EmitBinary(e);
    }

    method EmitConstant(e: Exp)
      requires Valid() && (e.Int? || e.Truth?)
      modifies this`out
      ensures Valid() && out == Fit(old(out) + Text(e), cap)
    {
      hide Fit, Dec;
      var f, n := if e.Int? then "v_int(" else "v_bool(", if e.Int? then e.n else if e.b then 1 else 0;
      ghost var o := out;
      PutText(f);
      PutNumber(n);
      PutChar(')');
      Three(o, f, Dec(n), ")", cap);
      assert Text(e) == f + Dec(n) + ")";
    }

    method EmitIdent(x: string)
      requires Valid()
      modifies this`out
      ensures Valid() && out == Fit(old(out) + NameText(x), cap)
    {
      if x == SELF {
        PutText("v_int(self)");
        assert NameText(x) == "v_int(self)";
        return;
      }
      PutText("v_");
      PutText(x);
      Two(old(out), "v_", x, cap);
    }

    method EmitBinary(e: Exp)
      requires Valid() && e.Bin?
      modifies this`out
      ensures Valid() && out == Fit(old(out) + Text(e), cap)
      decreases e, 0
    {
      hide Fit, Dec, Text, Fn;
      var f, a, b := Fn(e.op), if Swaps(e.op) then e.r else e.l, if Swaps(e.op) then e.l else e.r;
      ghost var o := out;
      PutText(f);
      PutChar('(');
      Two(o, f, "(", cap);
      Emit(a);
      Two(o, f + "(", Text(a), cap);
      PutText(", ");
      Two(o, f + "(" + Text(a), ", ", cap);
      Emit(b);
      PutChar(')');
      Three(o, f + "(" + Text(a) + ", ", Text(b), ")", cap);
      BinText(e);
      Flatten(f, Text(a), Text(b));
    }
  }

  lemma FitMore(a: string, b: string, cap: nat)
    requires cap > 0
    ensures Fit(Fit(a, cap) + b, cap) == Fit(a + b, cap)
  {
  }

  lemma Two(o: string, a: string, b: string, cap: nat)
    requires cap > 0
    ensures Fit(Fit(o + a, cap) + b, cap) == Fit(o + (a + b), cap)
  {
    FitMore(o + a, b, cap);
    assert (o + a) + b == o + (a + b);
  }

  lemma Three(o: string, a: string, b: string, c: string, cap: nat)
    requires cap > 0
    ensures Fit(Fit(Fit(o + a, cap) + b, cap) + c, cap) == Fit(o + (a + b + c), cap)
  {
    Two(o, a, b, cap);
    Two(o, a + b, c, cap);
  }

  lemma DecStep(n: nat, b: string)
    requires n > 0
    ensures var d := [('0' as int + n % 10) as char];
            if n / 10 > 0 then Dec(n) + b == Dec(n / 10) + (d + b) else Dec(n) + b == d + b
  {
    if n >= 10 { assert Dec(n) == Dec(n / 10) + [('0' as int + n % 10) as char]; }
  }

  lemma BinText(e: Exp)
    requires e.Bin?
    ensures var a, b := if Swaps(e.op) then e.r else e.l, if Swaps(e.op) then e.l else e.r;
            Text(e) == Fn(e.op) + ("(" + (Text(a) + ("," + (" " + (Text(b) + ")")))))
  {
  }

  lemma Flatten(f: string, a: string, b: string)
    ensures f + ("(" + (a + ("," + (" " + (b + ")"))))) == f + "(" + a + ", " + b + ")"
  {
    assert "," + (" " + (b + ")")) == ", " + (b + ")");
    assert a + (", " + (b + ")")) == (a + ", ") + (b + ")");
    assert "(" + ((a + ", ") + (b + ")")) == ("(" + a + ", ") + (b + ")");
    assert f + (("(" + a + ", ") + (b + ")")) == (f + "(" + a + ", ") + (b + ")");
  }

  lemma ZeroText()
    ensures "v_sub" + "(" + ("v_int" + ("(" + (Dec(0) + ")"))) + ", " == "v_sub(v_int(0), "
  {
    assert Dec(0) == "0";
  }

  lemma LocalText(x: string)
    ensures Text(Local(x)) == NameText(x)
  {
  }

  lemma NotText(x: Exp)
    ensures Text(Exp.Not(x)) == "v_not(" + Text(x) + ")"
  {
    hide Text;
    NotParts(x);
    Flat1("v_not", "(", Text(x), ")");
    assert "v_not" + "(" == "v_not(";
  }

  lemma NotParts(x: Exp)
    ensures Text(Exp.Not(x)) == "v_not" + ("(" + (Text(x) + ")"))
  {
  }

  lemma Flat1(f: string, o: string, x: string, c: string)
    ensures f + (o + (x + c)) == f + o + x + c
  {
    assert (f + o) + (x + c) == f + (o + (x + c));
  }

  lemma NegText(x: Exp)
    ensures Text(Exp.Neg(x)) == "v_sub(v_int(0), " + Text(x) + ")"
  {
    hide Text, Dec;
    NegParts(x);
    Flatten("v_sub", "v_int" + ("(" + (Dec(0) + ")")), Text(x));
    ZeroText();
  }

  // ---------------------------------------------------------------- the intended tree

  function Call1(f: string, a: CE): CE { CCall(f, CCons(a, CNil)) }
  function Call2(f: string, a: CE, b: CE): CE { CCall(f, CCons(a, CCons(b, CNil))) }

  function Tree(e: Exp): CE {
    match e
    case Int(n) => Call1("v_int", CNum(n))
    case Truth(b) => Call1("v_bool", CNum(if b then 1 else 0))
    case Local(x) => if x == SELF then Call1("v_int", CVar(SELF)) else CVar("v_" + x)
    case Not(x) => Call1("v_not", Tree(x))
    case Neg(x) => Call2("v_sub", Call1("v_int", CNum(0)), Tree(x))
    case Bin(op, l, r) =>
      var (a, b) := if Swaps(op) then (r, l) else (l, r);
      Call2(Fn(op), Tree(a), Tree(b))
  }

  /** The tokens of the text. */
  function Toks(e: Exp): seq<Tok> {
    match e
    case Int(n) => [TId("v_int"), TP("("), TNum(n), TP(")")]
    case Truth(b) => [TId("v_bool"), TP("("), TNum(if b then 1 else 0), TP(")")]
    case Local(x) => if x == SELF then [TId("v_int"), TP("("), TId(SELF), TP(")")] else [TId("v_" + x)]
    case Not(x) => [TId("v_not"), TP("(")] + Toks(x) + [TP(")")]
    case Neg(x) => [TId("v_sub"), TP("("), TId("v_int"), TP("("), TNum(0), TP(")"), TP(",")] + Toks(x) + [TP(")")]
    case Bin(op, l, r) =>
      var (a, b) := if Swaps(op) then (r, l) else (l, r);
      [TId(Fn(op)), TP("(")] + Toks(a) + [TP(",")] + Toks(b) + [TP(")")]
  }

  // ---------------------------------------------------------------- the text comes back

  function Append(ts: seq<Tok>, r: Option<seq<Tok>>): Option<seq<Tok>> {
    match r case None => None case Some(us) => Some(ts + us)
  }

  lemma Appends(ts: seq<Tok>, us: seq<Tok>, r: Option<seq<Tok>>)
    ensures Append(ts, Append(us, r)) == Append(ts + us, r)
    ensures forall t :: Cons(t, r) == Append([t], r)
  {
    if r.Some? { assert ts + (us + r.value) == (ts + us) + r.value; }
  }

  /** Lexing the text gives its tokens, whatever operand end follows. */
  lemma {:induction false} LexText(e: Exp, rest: string)
    requires Sane(e) && Break(rest)
    ensures Lex(Text(e) + rest) == Append(Toks(e), Lex(rest))
    decreases e, 1
  {
    hide Lex, Dec, Text, Toks, Append, NameText;
    match e
    case Int(_) | Truth(_) => LexConstant(e, rest);
    case Local(_) => LexLocal(e, rest);
    case Not(x) =>
      LexText(x, ")" + rest);
      LexNot(x, rest);
    case Neg(x) => LexNeg(x, rest);
    case Bin(op, l, r) => LexBin(op, l, r, rest);
  }

  lemma LexConstant(e: Exp, rest: string)
    requires (e.Int? || e.Truth?) && Sane(e) && Break(rest)
    ensures Lex(Text(e) + rest) == Append(Toks(e), Lex(rest))
  {
    hide Lex, Dec;
    match e
    case Int(n) => LexLiteral("v_int", n, rest);
    case Truth(b) => LexLiteral("v_bool", if b then 1 else 0, rest);
  }

  lemma LexLocal(e: Exp, rest: string)
    requires e.Local? && Sane(e) && Break(rest)
    ensures Lex(Text(e) + rest) == Append(Toks(e), Lex(rest))
  {
    hide Lex;
    if e.name == SELF { LexSelf(rest); } else { LexName("v_" + e.name, rest); }
  }

  lemma LexNot(x: Exp, rest: string)
    requires Lex(Text(x) + (")" + rest)) == Append(Toks(x), Lex(")" + rest)) && Break(rest)
    ensures Lex(Text(Exp.Not(x)) + rest) == Append(Toks(Exp.Not(x)), Lex(rest))
  {
    hide Lex;
    var t := ")" + rest;
    LexOpen("v_not", Text(x) + t);
    LexMark(')', rest);
    assert Text(Exp.Not(x)) + rest == "v_not" + ("(" + (Text(x) + t));
    Chain([TId("v_not"), TP("(")], Toks(x), [TP(")")], Lex(rest));
    Appends([], [], Lex(rest));
  }

  lemma Chain(a: seq<Tok>, b: seq<Tok>, c: seq<Tok>, r: Option<seq<Tok>>)
    ensures Append(a, Append(b, Append(c, r))) == Append(a + b + c, r)
  {
    Appends(b, c, r);
    Appends(a, b + c, r);
    assert a + (b + c) == a + b + c;
  }

  lemma LexName(w: string, rest: string)
    requires |w| >= 2 && w[0] == 'v' && w[1] == '_' && (forall i :: 0 <= i < |w| ==> IsAlnum(w[i])) && Break(rest)
    ensures Lex(w + rest) == Append([TId(w)], Lex(rest))
  {
    hide Lex;
    assert !IsKeyword(w);
    LexWord(w, rest);
  }

  lemma LexOpen(f: string, rest: string)
    requires |f| >= 2 && f[0] == 'v' && f[1] == '_' && (forall i :: 0 <= i < |f| ==> IsAlnum(f[i]))
    ensures Lex(f + ("(" + rest)) == Append([TId(f), TP("(")], Lex(rest))
  {
    hide Lex;
    var r := Lex(rest);
    LexName(f, "(" + rest);
    LexMark('(', rest);
    assert "(" == ['('];
    Appends([TId(f)], [TP("(")], r);
    assert [TId(f)] + [TP("(")] == [TId(f), TP("(")];
  }

  lemma LexLiteral(f: string, n: nat, rest: string)
    requires |f| >= 2 && f[0] == 'v' && f[1] == '_' && (forall i :: 0 <= i < |f| ==> IsAlnum(f[i])) && n < M64
             && Break(rest)
    ensures Lex((f + ("(" + (Dec(n) + ")"))) + rest) == Append([TId(f), TP("("), TNum(n), TP(")")], Lex(rest))
  {
    hide Lex, Dec;
    var t := ")" + rest;
    LexOpen(f, Dec(n) + t);
    LexDec(n, t);
    LexMark(')', rest);
    assert (f + ("(" + (Dec(n) + ")"))) + rest == f + ("(" + (Dec(n) + t));
    assert ")" == [')'];
    Chain([TId(f), TP("(")], [TNum(n)], [TP(")")], Lex(rest));
    Appends([], [], Lex(t));
    Appends([], [], Lex(rest));
    assert [TId(f), TP("(")] + [TNum(n)] + [TP(")")] == [TId(f), TP("("), TNum(n), TP(")")];
  }

  lemma LexSelf(rest: string)
    requires Break(rest)
    ensures Lex(NameText(SELF) + rest) == Append([TId("v_int"), TP("("), TId(SELF), TP(")")], Lex(rest))
  {
    hide Lex;
    var t := ")" + rest;
    LexOpen("v_int", SELF + t);
    LexWord(SELF, t);
    LexMark(')', rest);
    assert ("v_int" + ("(" + (SELF + ")"))) + rest == "v_int" + ("(" + (SELF + t));
    assert ")" == [')'];
    Chain([TId("v_int"), TP("(")], [TId(SELF)], [TP(")")], Lex(rest));
    Appends([], [], Lex(t));
    Appends([], [], Lex(rest));
    assert [TId("v_int"), TP("(")] + [TId(SELF)] + [TP(")")] == [TId("v_int"), TP("("), TId(SELF), TP(")")];
  }

  lemma LexNeg(x: Exp, rest: string)
    requires Sane(x) && Break(rest)
    ensures Lex(Text(Exp.Neg(x)) + rest) == Append(Toks(Exp.Neg(x)), Lex(rest))
    decreases Exp.Neg(x), 0
  {
    hide Lex, Dec, Append, Cons, Text, Toks;
    NegTokens(x);
    assert ")" == [')'];
    var t := ")" + rest;
    var u := "," + (" " + (Text(x) + t));
    var zero := "v_int" + ("(" + (Dec(0) + ")"));
    LexText(x, t);
    LexLiteral("v_int", 0, u);
    LexComma(Text(x) + t);
    LexMark(')', rest);
    LexOpen("v_sub", zero + u);
    Regroup("v_sub", zero, Text(x), rest);
    NegParts(x);
    Appends([], [], Lex(rest));
    Chain([TP(",")], Toks(x), [TP(")")], Lex(rest));
    Chain([TId("v_sub"), TP("(")], [TId("v_int"), TP("("), TNum(0), TP(")")], [TP(",")] + Toks(x) + [TP(")")],
      Lex(rest));
  }

  /** The text of a two-argument call, regrouped for lexing from the left. */
  lemma Regroup(f: string, a: string, b: string, rest: string)
    ensures (f + ("(" + (a + ("," + (" " + (b + ")")))))) + rest == f + ("(" + (a + ("," + (" " + (b + (")" + rest))))))
  {
    assert (b + ")") + rest == b + (")" + rest);
    assert (" " + (b + ")")) + rest == " " + (b + (")" + rest));
    assert ("," + (" " + (b + ")"))) + rest == "," + (" " + (b + (")" + rest)));
    assert (a + ("," + (" " + (b + ")")))) + rest == a + ("," + (" " + (b + (")" + rest))));
    assert ("(" + (a + ("," + (" " + (b + ")"))))) + rest == "(" + (a + ("," + (" " + (b + (")" + rest)))));
  }

  lemma NegParts(x: Exp)
    ensures Text(Exp.Neg(x)) == "v_sub" + ("(" + (("v_int" + ("(" + (Dec(0) + ")"))) + ("," + (" " + (Text(x) + ")")))))
  {
    hide Dec;
    Join4("v_int", "(", Dec(0), ")", "," + (" " + (Text(x) + ")")));
  }

  lemma Join4(a: string, b: string, c: string, d: string, e: string)
    ensures a + (b + (c + (d + e))) == (a + (b + (c + d))) + e
  {
    assert (c + d) + e == c + (d + e);
    assert (b + (c + d)) + e == b + ((c + d) + e);
    assert (a + (b + (c + d))) + e == a + ((b + (c + d)) + e);
  }

  lemma NegTokens(x: Exp)
    ensures Toks(Exp.Neg(x)) == [TId("v_sub"), TP("(")] + [TId("v_int"), TP("("), TNum(0), TP(")")]
                                + ([TP(",")] + Toks(x) + [TP(")")])
  {
  }

  lemma LexComma(rest: string)
    ensures Lex("," + (" " + rest)) == Append([TP(",")], Lex(rest))
  {
    hide Lex;
    LexMark(',', " " + rest);
    LexSpace(rest);
    assert "," == [','];
    Appends([], [], Lex(rest));
  }

  lemma FnName(op: Op2)
    ensures var f := Fn(op); |f| >= 2 && f[0] == 'v' && f[1] == '_' && forall i :: 0 <= i < |f| ==> IsAlnum(f[i])
  {
  }

  lemma BinToks(op: Op2, l: Exp, r: Exp)
    ensures var a, b := if Swaps(op) then r else l, if Swaps(op) then l else r;
            Toks(Bin(op, l, r)) == [TId(Fn(op)), TP("(")] + Toks(a) + ([TP(",")] + Toks(b) + [TP(")")])
  {
    hide Fn;
  }

  lemma LexBin(op: Op2, l: Exp, r: Exp, rest: string)
    requires Sane(l) && Sane(r) && Break(rest)
    ensures Lex(Text(Bin(op, l, r)) + rest) == Append(Toks(Bin(op, l, r)), Lex(rest))
    decreases Bin(op, l, r), 0
  {
    hide Lex, Fn, Append, Cons, Text, Toks;
    BinText(Bin(op, l, r));
    BinToks(op, l, r);
    assert ")" == [')'];
    var a, b := if Swaps(op) then r else l, if Swaps(op) then l else r;
    var t := ")" + rest;
    var u := "," + (" " + (Text(b) + t));
    FnName(op);
    LexText(b, t);
    LexText(a, u);
    LexComma(Text(b) + t);
    LexMark(')', rest);
    LexOpen(Fn(op), Text(a) + u);
    Regroup(Fn(op), Text(a), Text(b), rest);
    Appends([], [], Lex(rest));
    Chain([TP(",")], Toks(b), [TP(")")], Lex(rest));
    Chain([TId(Fn(op)), TP("(")], Toks(a), [TP(",")] + Toks(b) + [TP(")")], Lex(rest));
  }

  // ---------------------------------------------------------------- and parses as intended

  lemma Join3<T>(a: seq<T>, b: seq<T>, c: seq<T>, d: seq<T>)
    ensures a + b + c + d == a + (b + (c + d))
  {
  }

  lemma Join5<T>(a: seq<T>, b: seq<T>, c: seq<T>, d: seq<T>, e: seq<T>, g: seq<T>)
    ensures a + b + c + d + e + g == a + (b + (c + (d + (e + g))))
  {
  }

  lemma AfterMark(s: string, r: seq<Tok>)
    ensures At([TP(s)] + r, s) && ([TP(s)] + r)[1..] == r
  {
  }

  lemma ReadCall(f: string, t: seq<Tok>, es: CEs, rest: seq<Tok>)
    requires t != [] && t[0] != TP(")") && MoreArgs(t) == Some((es, rest)) && Ends(rest)
    ensures Assign([TId(f), TP("(")] + t) == Some((CCall(f, es), rest))
  {
    hide MoreArgs, Assign, Primary;
    var toks := [TId(f), TP("(")] + t;
    assert toks[2..] == t && toks[2] == t[0];
    CallRead(f, toks, es, rest);
    AssignPass(toks, CCall(f, es), rest);
  }

  /** One-argument call. */
  lemma ParseCall1(f: string, x: seq<Tok>, e: CE, rest: seq<Tok>)
    requires Assign(x + ([TP(")")] + rest)) == Some((e, [TP(")")] + rest)) && x != [] && x[0] != TP(")") && Ends(rest)
    ensures Assign([TId(f), TP("(")] + x + [TP(")")] + rest) == Some((Call1(f, e), rest))
  {
    hide Assign, MoreArgs, Ends;
    var close := [TP(")")] + rest;
    Join3([TId(f), TP("(")], x, [TP(")")], rest);
    AfterMark(")", rest);
    LastArg(e, x + close, close);
    ReadCall(f, x + close, CCons(e, CNil), rest);
  }

  /** Two-argument call. */
  lemma ParseCall2(f: string, x: seq<Tok>, d: CE, y: seq<Tok>, e: CE, rest: seq<Tok>)
    requires var u := y + ([TP(")")] + rest);
             Assign(x + ([TP(",")] + u)) == Some((d, [TP(",")] + u)) && Assign(u) == Some((e, [TP(")")] + rest))
    requires x != [] && x[0] != TP(")") && Ends(rest)
    ensures Assign([TId(f), TP("(")] + x + [TP(",")] + y + [TP(")")] + rest) == Some((Call2(f, d, e), rest))
  {
    hide Assign, MoreArgs, Ends;
    var close := [TP(")")] + rest;
    var u := y + close;
    var more := [TP(",")] + u;
    Join5([TId(f), TP("(")], x, [TP(",")], y, [TP(")")], rest);
    AfterMark(")", rest);
    AfterMark(",", u);
    LastArg(e, u, close);
    OneMoreArg(d, CCons(e, CNil), x + more, more, rest);
    ReadCall(f, x + more, CCons(d, CCons(e, CNil)), rest);
  }

  lemma ParseNumber(n: nat, rest: seq<Tok>)
    requires Ends(rest)
    ensures Assign([TNum(n)] + rest) == Some((CNum(n), rest))
  {
    hide Assign;
    var toks := [TNum(n)] + rest;
    assert toks[1..] == rest;
    AssignPass(toks, CNum(n), rest);
  }

  lemma ParseName(x: string, rest: seq<Tok>)
    requires Ends(rest)
    ensures Assign([TId(x)] + rest) == Some((CVar(x), rest))
  {
    hide Assign;
    var toks := [TId(x)] + rest;
    assert toks[1..] == rest;
    AssignPass(toks, CVar(x), rest);
  }

  lemma FirstTok(e: Exp)
    ensures Toks(e) != [] && Toks(e)[0].TId?
  {
  }

  /** The parser reads the tokens back as the intended call tree. */
  lemma {:induction false} ParseTree(e: Exp, rest: seq<Tok>)
    requires Ends(rest)
    ensures Assign(Toks(e) + rest) == Some((Tree(e), rest))
    decreases e, 1
  {
    hide Assign;
    match e
    case Int(n) =>
      ParseNumber(n, [TP(")")] + rest);
      ParseCall1("v_int", [TNum(n)], CNum(n), rest);
      assert Toks(e) + rest == [TId("v_int"), TP("(")] + [TNum(n)] + [TP(")")] + rest;
    case Truth(b) =>
      var n := if b then 1 else 0;
      ParseNumber(n, [TP(")")] + rest);
      ParseCall1("v_bool", [TNum(n)], CNum(n), rest);
      assert Toks(e) + rest == [TId("v_bool"), TP("(")] + [TNum(n)] + [TP(")")] + rest;
    case Local(x) =>
      if x == SELF {
        ParseName(SELF, [TP(")")] + rest);
        ParseCall1("v_int", [TId(SELF)], CVar(SELF), rest);
        assert Toks(e) + rest == [TId("v_int"), TP("(")] + [TId(SELF)] + [TP(")")] + rest;
      } else {
        ParseName("v_" + x, rest);
      }
    case Not(x) =>
      ParseTree(x, [TP(")")] + rest);
      FirstTok(x);
      ParseCall1("v_not", Toks(x), Tree(x), rest);
    case Neg(x) => ParseNeg(x, rest);
    case Bin(op, l, r) => ParseBin(op, l, r, rest);
  }

  lemma ParseNeg(x: Exp, rest: seq<Tok>)
    requires Ends(rest)
    ensures Assign(Toks(Exp.Neg(x)) + rest) == Some((Tree(Exp.Neg(x)), rest))
    decreases Exp.Neg(x), 0
  {
    hide Assign, Toks, Tree;
    var zero := [TId("v_int"), TP("("), TNum(0), TP(")")];
    var u := Toks(x) + ([TP(")")] + rest);
    ParseTree(x, [TP(")")] + rest);
    ParseZero([TP(",")] + u);
    ParseCall2("v_sub", zero, Call1("v_int", CNum(0)), Toks(x), Tree(x), rest);
    NegToks(x, rest);
  }

  lemma NegToks(x: Exp, rest: seq<Tok>)
    ensures Toks(Exp.Neg(x)) + rest
            == [TId("v_sub"), TP("(")] + [TId("v_int"), TP("("), TNum(0), TP(")")] + [TP(",")] + Toks(x) + [TP(")")]
            + rest
    ensures Tree(Exp.Neg(x)) == Call2("v_sub", Call1("v_int", CNum(0)), Tree(x))
  {
  }

  lemma ParseZero(rest: seq<Tok>)
    requires Ends(rest)
    ensures Assign([TId("v_int"), TP("("), TNum(0), TP(")")] + rest) == Some((Call1("v_int", CNum(0)), rest))
  {
    hide Assign;
    ParseNumber(0, [TP(")")] + rest);
    ParseCall1("v_int", [TNum(0)], CNum(0), rest);
    assert [TId("v_int"), TP("("), TNum(0), TP(")")] + rest == [TId("v_int"), TP("(")] + [TNum(0)] + [TP(")")] + rest;
  }

  lemma ParseBin(op: Op2, l: Exp, r: Exp, rest: seq<Tok>)
    requires Ends(rest)
    ensures Assign(Toks(Bin(op, l, r)) + rest) == Some((Tree(Bin(op, l, r)), rest))
    decreases Bin(op, l, r), 0
  {
    hide Assign, Fn;
    var a, b := if Swaps(op) then r else l, if Swaps(op) then l else r;
    ParseTree(b, [TP(")")] + rest);
    ParseTree(a, [TP(",")] + (Toks(b) + ([TP(")")] + rest)));
    FirstTok(a);
    ParseCall2(Fn(op), Toks(a), Tree(a), Toks(b), Tree(b), rest);
  }

  /** Printing, lexing and parsing: the text of every expression comes back as exactly the
      intended tree of runtime calls. */
  lemma TextMeansTree(e: Exp)
    requires Sane(e)
    ensures Lex(Text(e)) == Some(Toks(e)) && Assign(Toks(e)) == Some((Tree(e), []))
  {
    hide Lex, Assign;
    LexText(e, "");
    ParseTree(e, []);
    assert Text(e) + "" == Text(e) && Toks(e) + [] == Toks(e);
    assert Lex("") == Some([]) by { LexEmpty(); }
  }

  lemma LexEmpty()
    ensures Lex("") == Some([])
  {
  }
}
