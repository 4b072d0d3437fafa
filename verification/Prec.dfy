/** The expression parser of the script interpreter: precedence climbing reads exactly the
    left-associative trees of the operator grammar, and no others. */
module Prec {
  import opened Options

  /** A number or name, a punctuator, a keyword. */
  datatype Tok = Atom(v: nat) | P(s: string) | Word(s: string)

  datatype Tree = Leaf(v: nat) | Un(sign: Tok, e: Tree) | Bin(op: string, l: Tree, r: Tree)

  const UNARY := 8

  function Prec(s: string): nat {
    if s == "*" || s == "/" || s == "%" then 7
    else if s == "+" || s == "-" then 6
    else if s == "<" || s == ">" || s == "<=" || s == ">=" then 5
    else if s == "==" || s == "!=" || s == "===" || s == "!==" then 4
    else if s == "&&" then 3
    else if s == "||" then 2
    else 0
  }

  predicate IsUnary(t: Tok) { t == P("!") || t == P("-") || t == Word("typeof") }

  /** Tokens that would continue an operand or an expression in ways not modelled here: calls,
      members, indices, arrows, conditionals, assignments. */
  predicate Goes(ts: seq<Tok>) { ts != [] && ts[0].P? && ts[0].s in [".", "[", "(", "=>"] }
  predicate Trails(ts: seq<Tok>) { ts != [] && ts[0].P? && ts[0].s in ["?", "=", "+="] }

  /** The precedence of the operator at the front, 0 if there is none. */
  function Front(ts: seq<Tok>): nat { if ts != [] && ts[0].P? then Prec(ts[0].s) else 0 }

  /** No operator of precedence p or more, and no operand suffix, comes next. */
  predicate Stops(p: nat, ts: seq<Tok>) { Front(ts) < p && !Goes(ts) }

  // ---------------------------------------------------------------- the grammar

  /** The tokens ws are a way of writing t with operators of precedence p or more outside
      parentheses, those of one precedence associating to the left. */
  ghost predicate Derives(p: nat, t: Tree, ws: seq<Tok>)
    decreases |ws|, if p < UNARY then UNARY - p else 0, 1
  {
    if p >= UNARY then Operand(t, ws) else Derives(p + 1, t, ws) || (p > 0 && exists i :: Splits(p, t, ws, i))
  }

  ghost predicate Operand(t: Tree, ws: seq<Tok>)
    decreases |ws|, 0, 0
  {
    || (|ws| == 1 && ws[0].Atom? && t == Leaf(ws[0].v))
    || (|ws| > 1 && IsUnary(ws[0]) && t.Un? && t.sign == ws[0] && Operand(t.e, ws[1..]))
    || (|ws| > 2 && ws[0] == P("(") && ws[|ws| - 1] == P(")") && Derives(1, t, ws[1..|ws| - 1]))
  }

  /** The i-th token is the operator at the root. */
  ghost predicate Splits(p: nat, t: Tree, ws: seq<Tok>, i: nat)
    requires p < UNARY
    decreases |ws|, UNARY - p, 0
  {
    && 0 < i < |ws| - 1 && ws[i].P? && Prec(ws[i].s) == p && t.Bin? && t.op == ws[i].s
    && Derives(p, t.l, ws[..i]) && Derives(p + 1, t.r, ws[i + 1..])
  }

  lemma {:induction false} Weaken(p: nat, q: nat, t: Tree, ws: seq<Tok>)
    requires p <= q <= UNARY && Derives(q, t, ws)
    ensures Derives(p, t, ws)
    decreases q - p
  {
    if p < q { Weaken(p + 1, q, t, ws); }
  }

  // ---------------------------------------------------------------- the parser on values

  type Result = Option<(Tree, seq<Tok>)>

  function Unary(ts: seq<Tok>): (r: Result)
    ensures r.Some? ==> |r.value.1| < |ts|
    decreases |ts|, 0
  {
    if ts == [] then None
    else if IsUnary(ts[0]) then
      match Unary(ts[1..]) case None => None case Some((e, rest)) => Some((Un(ts[0], e), rest))
    else if ts[0].Atom? then (if Goes(ts[1..]) then None else Some((Leaf(ts[0].v), ts[1..])))
    else if ts[0] == P("(") then
      match Expr(ts[1..])
      case None => None
      case Some((e, rest)) => if rest == [] || rest[0] != P(")") || Goes(rest[1..]) then None else Some((e, rest[1..]))
    else None
  }

  function ParseBin(minp: nat, ts: seq<Tok>): (r: Result)
    ensures r.Some? ==> |r.value.1| < |ts|
    decreases |ts|, 1
  {
    match Unary(ts) case None => None case Some((lhs, rest)) => Climb(lhs, minp, rest)
  }

  /** The loop: take operators of precedence minp or more, each with a right operand that
      binds tighter. */
  function Climb(lhs: Tree, minp: nat, ts: seq<Tok>): (r: Result)
    ensures r.Some? ==> |r.value.1| <= |ts|
    decreases |ts|, 0
  {
    if Front(ts) == 0 || Front(ts) < minp then Some((lhs, ts))
    else
      match ParseBin(Front(ts) + 1, ts[1..])
      case None => None
      case Some((rhs, rest)) => Climb(Bin(ts[0].s, lhs, rhs), minp, rest)
  }

  function Expr(ts: seq<Tok>): (r: Result)
    ensures r.Some? ==> |r.value.1| < |ts|
    decreases |ts|, 2
  {
    match ParseBin(1, ts) case None => None case Some((e, rest)) => if Trails(rest) then None else Some((e, rest))
  }

  lemma ClimbStep(lhs: Tree, minp: nat, ts: seq<Tok>)
    requires Front(ts) > 0 && Front(ts) >= minp
    ensures ts != [] && ts[0].P? && Climb(lhs, minp, ts) == match ParseBin(Front(ts) + 1, ts[1..])
                            case None => None
                            case Some((rhs, rest)) => Climb(Bin(ts[0].s, lhs, rhs), minp, rest)
  {
  }

  lemma ClimbEnd(lhs: Tree, minp: nat, ts: seq<Tok>)
    requires Front(ts) == 0 || Front(ts) < minp
    ensures Climb(lhs, minp, ts) == Some((lhs, ts))
  {
  }

  // ---------------------------------------------------------------- it reads what the grammar writes

  lemma StopsMore(p: nat, rest: seq<Tok>)
    requires Stops(p, rest)
    ensures Stops(p + 1, rest)
  {
  }

  /** A derivable prefix is read whole, and the loop goes on after it. */
  lemma {:induction false} Reads(p: nat, m: nat, t: Tree, ws: seq<Tok>, rest: seq<Tok>)
    requires 0 < m <= p <= UNARY && Derives(p, t, ws) && Stops(p + 1, rest)
    ensures ParseBin(m, ws + rest) == Climb(t, m, rest)
    decreases |ws|, UNARY - p, 1
  {
    hide Climb, Unary, Prec, Goes, Operand, Front, Splits;
    if p == UNARY {
      ReadsOperand(t, ws, rest);
    } else if Derives(p + 1, t, ws) {
      StopsMore(p + 1, rest);
      Reads(p + 1, m, t, ws, rest);
    } else {
      var i: nat :| Splits(p, t, ws, i);
      SplitParts(p, t, ws, i, rest);
      var us, op, vs := ws[..i], ws[i], ws[i + 1..];
      var rest1 := [op] + (vs + rest);
      assert ws + rest == us + rest1 && rest1[1..] == vs + rest && rest1[0] == op;
      Reads(p, m, t.l, us, rest1);
      StopsMore(p + 1, rest);
      Reads(p + 1, p + 1, t.r, vs, rest);
      ClimbEnd(t.r, p + 1, rest);
      ClimbStep(t.l, m, rest1);
    }
  }

  lemma SplitParts(p: nat, t: Tree, ws: seq<Tok>, i: nat, rest: seq<Tok>)
    requires 0 < p < UNARY && Splits(p, t, ws, i)
    ensures 0 < i < |ws| - 1 && t.Bin? && ws[i] == P(t.op) && Derives(p, t.l, ws[..i])
            && Derives(p + 1, t.r, ws[i + 1..])
    ensures var rest1 := [ws[i]] + (ws[i + 1..] + rest); Front(rest1) == p && Stops(p + 1, rest1)
  {
    hide Derives;
    NoOperator(t.op);
  }

  lemma NoOperator(s: string)
    ensures Prec(s) > 0 ==> s !in [".", "[", "(", "=>"]
  {
  }

  lemma {:induction false} ReadsOperand(t: Tree, ws: seq<Tok>, rest: seq<Tok>)
    requires Operand(t, ws) && !Goes(rest)
    ensures Unary(ws + rest) == Some((t, rest))
    decreases |ws|, 0, 0
  {
    var all := ws + rest;
    assert all[0] == ws[0];
    if |ws| == 1 && ws[0].Atom? {
      assert all[1..] == rest;
    } else if |ws| > 1 && IsUnary(ws[0]) {
      assert all[1..] == ws[1..] + rest;
      ReadsOperand(t.e, ws[1..], rest);
    } else {
      var inner, close := ws[1..|ws| - 1], [P(")")] + rest;
      assert all[1..] == inner + close && close[1..] == rest;
      Reads(1, 1, t, inner, close);
      assert Climb(t, 1, close) == Some((t, close));
    }
  }

  // ---------------------------------------------------------------- it reads nothing else

  lemma {:induction false} UnarySound(ts: seq<Tok>) returns (ws: seq<Tok>)
    requires Unary(ts).Some?
    ensures var (t, rest) := Unary(ts).value; ts == ws + rest && Operand(t, ws) && !Goes(rest) && ws != []
    decreases |ts|, 0
  {
    hide Operand, Derives, Climb, Goes, Trails, IsUnary;
    var (t, rest) := Unary(ts).value;
    if IsUnary(ts[0]) {
      var us := UnarySound(ts[1..]);
      ws := [ts[0]] + us;
      SignOperand(ts[0], t.e, us);
    } else if ts[0].Atom? {
      ws := [ts[0]];
      AtomOperand(ts[0].v);
    } else {
      var us := BinSound(1, ts[1..]);
      ws := [P("(")] + us + [P(")")];
      ParenOperand(t, us);
      var after := ParseBin(1, ts[1..]).value.1;
      assert ts == [P("(")] + (us + after) && after == [P(")")] + rest;
    }
  }

  lemma AtomOperand(v: nat)
    ensures Operand(Leaf(v), [Atom(v)])
  {
  }

  lemma SignOperand(op: Tok, e: Tree, us: seq<Tok>)
    requires IsUnary(op) && Operand(e, us)
    ensures Operand(Un(op, e), [op] + us)
  {
    assert us != [];
    assert ([op] + us)[1..] == us;
  }

  lemma ParenOperand(t: Tree, us: seq<Tok>)
    requires Derives(1, t, us) && us != []
    ensures Operand(t, [P("(")] + us + [P(")")])
  {
    var ws := [P("(")] + us + [P(")")];
    assert ws[1..|ws| - 1] == us;
  }

  lemma JoinDerives(f: nat, l: Tree, us: seq<Tok>, op: Tok, r: Tree, vs: seq<Tok>)
    requires 0 < f < UNARY && Derives(f, l, us) && Derives(f + 1, r, vs) && us != [] && vs != [] && op.P?
             && Prec(op.s) == f
    ensures Derives(f, Bin(op.s, l, r), us + [op] + vs)
  {
    var xs, i := us + [op] + vs, |us|;
    assert xs[..i] == us && xs[i] == op && xs[i + 1..] == vs;
    assert Splits(f, Bin(op.s, l, r), xs, i);
  }

  lemma {:induction false} BinSound(p: nat, ts: seq<Tok>) returns (ws: seq<Tok>)
    requires 0 < p <= UNARY && ParseBin(p, ts).Some?
    ensures var (t, rest) := ParseBin(p, ts).value; ts == ws + rest && Derives(p, t, ws) && Stops(p, rest) && ws != []
    decreases |ts|, 1
  {
    var us := UnarySound(ts);
    var (lhs, rest) := Unary(ts).value;
    FrontBound(rest);
    ws := ClimbSound(lhs, p, UNARY, us, rest);
  }

  lemma FrontBound(ts: seq<Tok>)
    ensures Front(ts) < UNARY
  {
  }

  /** What has been read so far holds operators of precedence q or more, and none of a higher
      one comes next. */
  lemma {:induction false} ClimbSound(lhs: Tree, p: nat, q: nat, us: seq<Tok>, ts: seq<Tok>) returns (ws: seq<Tok>)
    requires 0 < p <= q <= UNARY && Derives(q, lhs, us) && Stops(q + 1, ts) && us != [] && Climb(lhs, p, ts).Some?
    ensures var (t, rest) := Climb(lhs, p, ts).value;
            us + ts == ws + rest && Derives(p, t, ws) && Stops(p, rest) && ws != []
    decreases |ts|, 0
  {
    hide Derives, Operand, Climb, ParseBin, Unary, Prec, Goes;
    var f := Front(ts);
    if f == 0 || f < p {
      ClimbEnd(lhs, p, ts);
      ws := us;
      Weaken(p, q, lhs, us);
    } else {
      FrontBound(ts);
      ClimbStep(lhs, p, ts);
      var vs := BinSound(f + 1, ts[1..]);
      var (rhs, rest) := ParseBin(f + 1, ts[1..]).value;
      Weaken(f, q, lhs, us);
      var t, xs := Bin(ts[0].s, lhs, rhs), us + [ts[0]] + vs;
      JoinDerives(f, lhs, us, ts[0], rhs, vs);
      ws := ClimbSound(t, p, f, xs, rest);
      assert us + ts == xs + rest by { assert ts == [ts[0]] + (vs + rest); }
    }
  }

  // ---------------------------------------------------------------- main results

  /** Precedence climbing is correct: it answers t and rest exactly when rest is what follows
      a derivation of t that the next token cannot continue. */
  lemma Climbs(p: nat, ts: seq<Tok>, t: Tree, rest: seq<Tok>)
    requires 0 < p <= UNARY
    ensures ParseBin(p, ts) == Some((t, rest)) <==> Stops(p, rest) && exists ws :: ts == ws + rest && Derives(p, t, ws)
  {
    hide Unary, Climb;
    if ParseBin(p, ts) == Some((t, rest)) { var ws := BinSound(p, ts); }
    if Stops(p, rest) && exists ws :: ts == ws + rest && Derives(p, t, ws) {
      var ws :| ts == ws + rest && Derives(p, t, ws);
      StopsMore(p, rest);
      Reads(p, p, t, ws, rest);
      ClimbStops(t, p, rest);
    }
  }

  lemma ClimbStops(t: Tree, p: nat, rest: seq<Tok>)
    requires Stops(p, rest)
    ensures Climb(t, p, rest) == Some((t, rest))
  {
  }

  /** Every token sequence is written by one tree at most. */
  lemma Unambiguous(p: nat, t: Tree, u: Tree, ws: seq<Tok>)
    requires 0 < p <= UNARY && Derives(p, t, ws) && Derives(p, u, ws)
    ensures t == u
  {
    assert ws + [] == ws;
    Climbs(p, ws, t, []);
    Climbs(p, ws, u, []);
  }

  predicate Proper(t: Tree) {
    match t
    case Leaf(_) => true
    case Un(op, e) => IsUnary(op) && Proper(e)
    case Bin(op, l, r) => Prec(op) > 0 && Proper(l) && Proper(r)
  }

  function Level(t: Tree): nat { if t.Bin? then Prec(t.op) else UNARY }

  /** Parentheses only where precedence or associativity asks for them. */
  function Print(p: nat, t: Tree): seq<Tok>
    decreases t, 1
  {
    if Level(t) < p then [P("(")] + Bare(t) + [P(")")] else Bare(t)
  }

  function Bare(t: Tree): seq<Tok>
    decreases t, 0
  {
    match t
    case Leaf(v) => [Atom(v)]
    case Un(op, e) => [op] + Print(UNARY, e)
    case Bin(op, l, r) => Print(Prec(op), l) + [P(op)] + Print(Prec(op) + 1, r)
  }

  lemma {:induction false} PrintDerives(p: nat, t: Tree)
    requires 0 < p <= UNARY && Proper(t)
    ensures Derives(p, t, Print(p, t)) && Print(p, t) != []
    decreases t, 1
  {
    BareDerives(t);
    if Level(t) < p {
      var ws := Print(p, t);
      assert ws[1..|ws| - 1] == Bare(t);
      Weaken(1, Level(t), t, Bare(t));
      assert Operand(t, ws);
      Weaken(p, UNARY, t, ws);
    } else {
      Weaken(p, Level(t), t, Bare(t));
    }
  }

  lemma {:induction false} BareDerives(t: Tree)
    requires Proper(t)
    ensures 0 < Level(t) <= UNARY && Derives(Level(t), t, Bare(t)) && Bare(t) != []
    decreases t, 0
  {
    match t
    case Leaf(_) => assert Operand(t, Bare(t));
    case Un(op, e) =>
      PrintDerives(UNARY, e);
      assert Bare(t)[1..] == Print(UNARY, e);
      assert Operand(t, Bare(t));
    case Bin(op, l, r) =>
      var p := Prec(op);
      PrintDerives(p, l);
      PrintDerives(p + 1, r);
      var us, vs, ws := Print(p, l), Print(p + 1, r), Bare(t);
      assert ws[..|us|] == us && ws[|us|] == P(op) && ws[|us| + 1..] == vs;
      assert Splits(p, t, ws, |us|);
  }

  /** Printing with the fewest parentheses and parsing gives the tree back. */
  lemma PrintParse(t: Tree)
    requires Proper(t)
    ensures Expr(Print(1, t)) == Some((t, []))
  {
    PrintDerives(1, t);
    assert Print(1, t) + [] == Print(1, t);
    Climbs(1, Print(1, t), t, []);
  }

  /** The operators, loosest first; those of one level associate to the left. */
  const LEVELS: seq<set<string>> :=
    [{"||"}, {"&&"}, {"==", "!=", "===", "!=="}, {"<", ">", "<=", ">="}, {"+", "-"}, {"*", "/", "%"}]

  lemma LevelOf(i: nat, op: string)
    requires i < |LEVELS| && op in LEVELS[i]
    ensures Prec(op) == i + 2
  {
  }

  /** Of two operators the tighter one takes the operand between them, of equal ones the first;
      a sign takes its operand before any. */
  lemma Groups(i: nat, op: string, j: nat, op': string, a: nat, b: nat, c: nat, sign: Tok)
    requires i < |LEVELS| && op in LEVELS[i] && j < |LEVELS| && op' in LEVELS[j]
    requires sign in [P("!"), P("-"), Word("typeof")]
    ensures Expr([Atom(a), P(op), Atom(b), P(op'), Atom(c)])
            == Some((if i >= j then Bin(op', Bin(op, Leaf(a), Leaf(b)), Leaf(c))
                     else Bin(op, Leaf(a), Bin(op', Leaf(b), Leaf(c))), []))
    ensures Expr([sign, Atom(a), P(op), Atom(b)]) == Some((Bin(op, Un(sign, Leaf(a)), Leaf(b)), []))
  {
    hide Expr, Prec;
    LevelOf(i, op);
    LevelOf(j, op');
    var x, y, z := Leaf(a), Leaf(b), Leaf(c);
    PrintBin(op, x, y, [Atom(a)], [Atom(b)]);
    PrintBin(op', y, z, [Atom(b)], [Atom(c)]);
    var all := [Atom(a), P(op), Atom(b), P(op'), Atom(c)];
    if i >= j {
      PrintBin(op', Bin(op, x, y), z, [Atom(a)] + [P(op)] + [Atom(b)], [Atom(c)]);
      PrintParse(Bin(op', Bin(op, x, y), z));
      assert [Atom(a)] + [P(op)] + [Atom(b)] + [P(op')] + [Atom(c)] == all;
    } else {
      PrintBin(op, x, Bin(op', y, z), [Atom(a)], [Atom(b)] + [P(op')] + [Atom(c)]);
      PrintParse(Bin(op, x, Bin(op', y, z)));
      assert [Atom(a)] + [P(op)] + ([Atom(b)] + [P(op')] + [Atom(c)]) == all;
    }
    var u := Un(sign, x);
    assert Bare(u) == [sign] + [Atom(a)];
    PrintBin(op, u, y, [sign] + [Atom(a)], [Atom(b)]);
    PrintParse(Bin(op, u, y));
    assert [sign] + [Atom(a)] + [P(op)] + [Atom(b)] == [sign, Atom(a), P(op), Atom(b)];
  }

  lemma PrintBin(op: string, l: Tree, r: Tree, ls: seq<Tok>, rs: seq<Tok>)
    requires Bare(l) == ls && Bare(r) == rs && 0 < Prec(op) <= Level(l) && Prec(op) < Level(r)
    ensures Print(1, Bin(op, l, r)) == Bare(Bin(op, l, r)) == ls + [P(op)] + rs
  {
  }

  // ---------------------------------------------------------------- the parser in place

  const NODECAP := 16000

  datatype Node = NNum(v: nat) | NUn(sign: Tok, a: int) | NBin(op: string, a: int, b: int)

  /** Node i of the table stands for the tree t, with nodes from lo on. */
  ghost predicate Shows(nd: seq<Node>, lo: nat, i: int, t: Tree)
    decreases t
  {
    && lo <= i < |nd|
    && match t
       case Leaf(v) => nd[i] == NNum(v)
       case Un(op, e) => nd[i].NUn? && nd[i].sign == op && Shows(nd, lo, nd[i].a, e)
       case Bin(op, l, r) => nd[i].NBin? && nd[i].op == op && Shows(nd, lo, nd[i].a, l) && Shows(nd, lo, nd[i].b, r)
  }

  function Size(t: Tree): (n: nat)
    ensures n > 0
  {
    match t case Leaf(_) => 1 case Un(_, e) => 1 + Size(e) case Bin(_, l, r) => 1 + Size(l) + Size(r)
  }

  /** Changes elsewhere do not matter. */
  lemma {:induction false} ShowsMore(nd: seq<Node>, lo: nat, more: seq<Node>, lo': nat, i: int, t: Tree)
    requires Shows(nd, lo, i, t) && lo' <= lo && |nd| <= |more| && forall k :: lo <= k < |nd| ==> more[k] == nd[k]
    ensures Shows(more, lo', i, t)
    decreases t
  {
    match t
    case Leaf(_) =>
    case Un(_, e) => ShowsMore(nd, lo, more, lo', nd[i].a, e);
    case Bin(_, l, r) =>
      ShowsMore(nd, lo, more, lo', nd[i].a, l);
      ShowsMore(nd, lo, more, lo', nd[i].b, r);
  }

  lemma {:induction false} ClimbGrows(lhs: Tree, minp: nat, ts: seq<Tok>)
    ensures Climb(lhs, minp, ts).Some? ==> Size(Climb(lhs, minp, ts).value.0) >= Size(lhs)
    decreases |ts|
  {
    if Front(ts) > 0 && Front(ts) >= minp && ParseBin(Front(ts) + 1, ts[1..]).Some? {
      var (rhs, rest) := ParseBin(Front(ts) + 1, ts[1..]).value;
      ClimbGrows(Bin(ts[0].s, lhs, rhs), minp, rest);
    }
  }

  /** What a parsing method leaves: the tree the function reads, as far as the node table has
      room for it; otherwise an error. */
  ghost predicate Left(r: Result, was: seq<Node>, nd: seq<Node>, err: bool, rest: seq<Tok>, n: int) {
    && (err <==> r.None? || |was| + Size(r.value.0) > NODECAP)
    && (!err ==> was <= nd && |nd| == |was| + Size(r.value.0) && Shows(nd, |was|, n, r.value.0) && rest == r.value.1)
  }

  class Parser {
    const toks: seq<Tok>
    var pos: nat
    var nodes: seq<Node>
    var err: bool

    ghost predicate Valid() reads this { pos <= |toks| && |nodes| <= NODECAP }

    ghost function Ahead(): seq<Tok>
      requires pos <= |toks|
      reads this
    {
      toks[pos..]
    }

    constructor (toks: seq<Tok>)
      ensures Valid() && Ahead() == toks && nodes == [] && !err
    {
      this.toks, pos, nodes, err := toks, 0, [], false;
    }

    /** A node, while there is room. */
    method Make(x: Node) returns (n: nat)
      requires Valid() && !err
      modifies this`nodes, this`err
      ensures Valid() && (err <==> |old(nodes)| >= NODECAP)
      ensures !err ==> nodes == old(nodes) + [x] && n == |old(nodes)|
    {
      if |nodes| >= NODECAP {
        err := true;
        return 0;
      }
      n, nodes := |nodes|, nodes + [x];
    }

    method ParseUnary() returns (n: nat)
      requires Valid() && !err
      modifies this`pos, this`nodes, this`err
      ensures Valid() && Left(Unary(old(Ahead())), old(nodes), nodes, err, Ahead(), n) && pos >= old(pos)
      decreases |toks| - pos, 0
    {
      hide Goes, Trails, Expr, Prec, Climb, ParseBin, IsUnary, Shows;
      n := 0;
      ghost var ts, was := Ahead(), nodes;
      if pos == |toks| {
        err := true;
        return;
      }
      var t := toks[pos];
      assert ts[0] == t && ts[1..] == toks[pos + 1..];
      if IsUnary(t) {
        pos := pos + 1;
        n := Make(NUn(t, -1));
        if err { return; }
        ghost var made := nodes;
        var a := ParseUnary();
        if !err {
          ghost var done, e := nodes, Unary(ts[1..]).value.0;
          nodes := nodes[n := NUn(t, a)];
          ShowsUn(was, done, nodes, t, a, e);
        }
      } else if t.Atom? {
        pos := pos + 1;
        n := Make(NNum(t.v));
        if !err { ShowsLeaf(was, nodes, t.v); }
        if Goes(toks[pos..]) { err := true; }
      } else if t == P("(") {
        pos := pos + 1;
        n := ParseExpr();
        if !err {
          if pos == |toks| || toks[pos] != P(")") || Goes(toks[pos + 1..]) {
            err := true;
          } else {
            assert Ahead()[1..] == toks[pos + 1..];
            pos := pos + 1;
          }
        }
      } else {
        err := true;
      }
    }

    /** `minp` is the least precedence taken. */
    method ParseBinary(minp: nat) returns (n: nat)
      requires Valid() && !err
      modifies this`pos, this`nodes, this`err
      ensures Valid() && Left(ParseBin(minp, old(Ahead())), old(nodes), nodes, err, Ahead(), n) && pos >= old(pos)
      decreases |toks| - pos, 1
    {
      hide Shows, Unary, Climb;
      ghost var ts, was := Ahead(), nodes;
      n := ParseUnary();
      if Unary(ts).Some? { ClimbGrows(Unary(ts).value.0, minp, Unary(ts).value.1); }
      if err { return; }
      ghost var lhs := Unary(ts).value.0;
      while pos < |toks| && toks[pos].P? && Prec(toks[pos].s) > 0 && Prec(toks[pos].s) >= minp
        invariant Valid() && !err && was <= nodes && |nodes| == |was| + Size(lhs) && Shows(nodes, |was|, n, lhs)
        invariant |Ahead()| < |ts| && pos >= old(pos) && ParseBin(minp, ts) == Climb(lhs, minp, Ahead())
        decreases |toks| - pos
      {
        var p, op := Prec(toks[pos].s), toks[pos].s;
        ghost var at, rest, had := n, Ahead()[1..], nodes;
        ClimbStep(lhs, minp, Ahead());
        pos := pos + 1;
        assert Ahead() == rest;
        var rhs := ParseBinary(p + 1);
        if ParseBin(p + 1, rest).Some? {
          ClimbGrows(Bin(op, lhs, ParseBin(p + 1, rest).value.0), minp, ParseBin(p + 1, rest).value.1);
        }
        if err { return; }
        ghost var r, both := ParseBin(p + 1, rest).value.0, nodes;
        n := Make(NBin(op, n, rhs));
        if err { return; }
        ShowsBin(was, had, both, nodes, op, at, rhs, lhs, r);
        lhs := Bin(op, lhs, r);
      }
      ClimbEnd(lhs, minp, Ahead());
    }

    method ParseExpr() returns (n: nat)
      requires Valid() && !err
      modifies this`pos, this`nodes, this`err
      ensures Valid() && Left(Expr(old(Ahead())), old(nodes), nodes, err, Ahead(), n) && pos >= old(pos)
      decreases |toks| - pos, 2
    {
      hide Shows, ParseBin, Trails;
      n := ParseBinary(1);
      if !err && Trails(toks[pos..]) { err := true; }
    }
  }

  lemma ShowsLeaf(was: seq<Node>, nd: seq<Node>, v: nat)
    requires nd == was + [NNum(v)]
    ensures Shows(nd, |was|, |was|, Leaf(v))
  {
  }

  /** A node filled in after its operand was built behind it. */
  lemma ShowsUn(was: seq<Node>, done: seq<Node>, nd: seq<Node>, op: Tok, a: int, e: Tree)
    requires |was| < |done| && nd == done[|was| := NUn(op, a)] && Shows(done, |was| + 1, a, e)
    ensures Shows(nd, |was|, |was|, Un(op, e))
  {
    ShowsMore(done, |was| + 1, nd, |was|, a, e);
  }

  /** A new node over two trees built one after the other. */
  lemma ShowsBin(was: seq<Node>, had: seq<Node>, both: seq<Node>, nd: seq<Node>, op: string, a: int, b: int, l: Tree,
      r: Tree)
    requires |was| <= |had| <= |both| && had <= both && nd == both + [NBin(op, a, b)]
    requires Shows(had, |was|, a, l) && Shows(both, |had|, b, r)
    ensures Shows(nd, |was|, |both|, Bin(op, l, r))
  {
    ShowsMore(had, |was|, nd, |was|, a, l);
    ShowsMore(both, |had|, nd, |was|, b, r);
  }
}
