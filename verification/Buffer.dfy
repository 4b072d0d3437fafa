/** The code generator's state: the code buffer, the label and fixup tables, and the
    sequence of items the buffer stands for. */
module Buffer {
  import opened Options
  import opened Word
  import opened Arm
  import opened Ast
  import opened Emit
  import opened Loaded

  const MAXLAB := 2048
  const MAXBFX := 2048
  const MAXCFX := 2048
  const LOOPDEPTH := 64
  const MAXWORDS := 0x1_0000     // CC_CODECAP, 256 KiB

  datatype Fix = Fix(site: int, lab: int, j: Jump)
  datatype Site = Site(at: int, f: nat)

  type Fixes = s: seq<Fix> | |s| <= MAXBFX
  type Sites = s: seq<Site> | |s| <= MAXCFX
  type Stack = s: seq<int> | |s| <= LOOPDEPTH

  function Top(s: seq<int>): int { if s == [] then -1 else s[|s| - 1] }

  /** The word first emitted for an item; branches and entry addresses are patched later. */
  function Skeleton(it: Item): int {
    match it
    case I(i) => Encode(i)
    case J(JB, _) => 0x14000000
    case J(JCbz, _) => 0xB4000000
    case J(JCbnz, _) => 0xB5000000
    case J(JCond(_), _) => 0x54000000
    case Entry(_, k) => Encode(Imm(9, 0, k))
  }

  /** The branches emitted from `start` on. */
  function Jumps(code: seq<Item>, start: nat): seq<Fix> {
    if |code| <= start then [] else
      var n := |code| - 1;
      Jumps(code[..n], start) + (if code[n].J? then [Fix(n, code[n].lab, code[n].j)] else [])
  }

  /** The places where the address of a user function is loaded. */
  function Entries(code: seq<Item>): seq<Site> {
    if code == [] then [] else
      var n := |code| - 1;
      Entries(code[..n]) + (if code[n].Entry? && code[n].k == 0 then [Site(n, code[n].f)] else [])
  }

  function Clip<T>(s: seq<T>, n: nat): seq<T> { if |s| <= n then s else s[..n] }

  lemma JumpsSnoc(code: seq<Item>, it: Item, start: nat)
    requires start <= |code|
    ensures Jumps(code + [it], start) == Jumps(code, start) + (if it.J? then [Fix(|code|, it.lab, it.j)] else [])
  {
    assert (code + [it])[..|code|] == code;
  }

  lemma EntriesSnoc(code: seq<Item>, it: Item)
    ensures Entries(code + [it]) == Entries(code) + (if it.Entry? && it.k == 0 then [Site(|code|, it.f)] else [])
  {
    assert (code + [it])[..|code|] == code;
  }

  /** The four words of an entry address stand together. */
  ghost predicate Grouped(code: seq<Item>) {
    forall i :: 0 <= i < |code| && code[i].Entry? ==>
      && 0 <= code[i].k < 4 && code[i].k <= i && i - code[i].k + 4 <= |code|
      && forall h :: 0 <= h < 4 ==> code[i - code[i].k + h] == Entry(code[i].f, h)
  }

  lemma GroupedAppend(code: seq<Item>, more: seq<Item>)
    requires Grouped(code) && Grouped(more)
    ensures Grouped(code + more)
  {
    var c := code + more;
    forall i | 0 <= i < |c| && c[i].Entry?
      ensures && 0 <= c[i].k < 4 && c[i].k <= i && i - c[i].k + 4 <= |c|
              && forall h :: 0 <= h < 4 ==> c[i - c[i].k + h] == Entry(c[i].f, h)
    {
      if i < |code| { assert c[i] == code[i]; } else { assert c[i] == more[i - |code|]; }
    }
  }

  // ---------------------------------------------------------------- growth

  /** What generation has produced: all items, where the current function starts, its
      placed labels, the next free label, and the finished words before `start`. */
  datatype Trace = Trace(code: seq<Item>, start: nat, labs: map<int, int>, nlab: nat, settled: seq<int>)

  ghost predicate Extends(a: map<int, int>, b: map<int, int>) { forall l :: l in a ==> l in b && b[l] == a[l] }

  /** `items` and n labels were added; the labels placed on the way are new ones or in cl. */
  ghost predicate Grew(o: Trace, o': Trace, items: seq<Item>, n: nat, cl: seq<int>) {
    && o'.code == o.code + items && o'.start == o.start && o'.settled == o.settled && o'.nlab == o.nlab + n
    && Extends(o.labs, o'.labs)
    && forall l :: l in o'.labs && l !in o.labs ==> o.nlab <= l < o'.nlab || l in cl
  }

  lemma GrewTrans(a: Trace, b: Trace, c: Trace, x: seq<Item>, m: nat, c1: seq<int>, y: seq<Item>, n: nat, c2: seq<int>)
    requires Grew(a, b, x, m, c1) && Grew(b, c, y, n, c2)
    ensures Grew(a, c, x + y, m + n, c1 + c2)
  {
    assert a.code + (x + y) == (a.code + x) + y;
  }

  lemma {:induction false} PlacedMono(offs: seq<nat>, e: Expr, l: int, pos: int, a: map<int, int>, b: map<int, int>)
    requires Placed(offs, e, l, pos, a) && Extends(a, b)
    ensures Placed(offs, e, l, pos, b)
    decreases e
  {
    hide Code, AddrCode, ELabels, Extends;
    match e
    case Num(_) | Text(_) | Var(_, _) =>
    case Deref(p, _) => PlacedMono(offs, p, l, pos, a, b);
    case Member(x, _, _) => PlacedMono(offs, x, l, pos, a, b);
    case AddrOf(x) => PlacedMono(offs, x, l, pos, a, b);
    case Neg(x) => PlacedMono(offs, x, l, pos, a, b);
    case Not(x) => PlacedMono(offs, x, l, pos, a, b);
    case Assign(x, r) =>
      PlacedMono(offs, x, l, pos, a, b);
      PlacedMono(offs, r, l + ELabels(x), pos + |AddrCode(offs, x, l)| + 1, a, b);
    case And(x, r) => LogicMono(offs, e, l, pos, a, b);
    case Or(x, r) => LogicMono(offs, e, l, pos, a, b);
    case Bin(_, x, r) =>
      PlacedMono(offs, r, l, pos, a, b);
      PlacedMono(offs, x, l + ELabels(r), pos + |Code(offs, r, l)| + 1, a, b);
    case Call(_, args) => ArgsPlacedMono(offs, args, l, pos, a, b);
  }

  lemma LogicMono(offs: seq<nat>, e: Expr, l: int, pos: int, a: map<int, int>, b: map<int, int>)
    requires (e.And? || e.Or?) && Placed(offs, e, l, pos, a) && Extends(a, b)
    ensures Placed(offs, e, l, pos, b)
    decreases e, 0
  {
    hide Code, ELabels;
    var p1 := pos + |Code(offs, e.l, l + 2)| + (if e.And? then 1 else 2);
    PlacedMono(offs, e.l, l + 2, pos, a, b);
    PlacedMono(offs, e.r2, l + 2 + ELabels(e.l), p1, a, b);
  }

  lemma {:induction false} ArgsPlacedMono(offs: seq<nat>, es: Exprs, l: int, pos: int, a: map<int, int>, b: map<int,
      int>)
    requires ArgsPlaced(offs, es, l, pos, a) && Extends(a, b)
    ensures ArgsPlaced(offs, es, l, pos, b)
    decreases es
  {
    hide Code, ELabels, Extends;
    match es
    case ENil =>
    case ECons(e, t) =>
      PlacedMono(offs, e, l, pos, a, b);
      ArgsPlacedMono(offs, t, l + ELabels(e), pos + |Code(offs, e, l)| + 1, a, b);
  }

  lemma OptPlacedMono(offs: seq<nat>, e: Option<Expr>, l: int, pos: int, a: map<int, int>, b: map<int, int>)
    requires OptPlaced(offs, e, l, pos, a) && Extends(a, b)
    ensures OptPlaced(offs, e, l, pos, b)
  {
    hide Placed, Extends;
    if e.Some? { PlacedMono(offs, e.value, l, pos, a, b); }
  }

  lemma {:induction false} SPlacedMono(cx: Cx, st: Stmt, l: int, first: int, pos: int, a: map<int, int>, b: map<int,
      int>)
    requires SPlaced(cx, st, l, first, pos, a) && Extends(a, b)
    ensures SPlaced(cx, st, l, first, pos, b)
    decreases st, 1
  {
    hide Code, SCode, LCode, ForCode, Placed, OptPlaced, ELabels, SLabels, OptLabels, OptCode, DispatchCode,
      Semantics.Cases;
    match st
    case ExprS(e) => PlacedMono(cx.offs, e, l, pos, a, b);
    case Return(e) => PlacedMono(cx.offs, e, l, pos, a, b);
    case If(c, t, f) =>
      var lt := l + 2 + ELabels(c);
      var pt := pos + |Code(cx.offs, c, l + 2)| + 1;
      PlacedMono(cx.offs, c, l + 2, pos, a, b);
      SPlacedMono(cx, t, lt, first, pt, a, b);
      SPlacedMono(cx, f, lt + SLabels(t), first - |Semantics.Cases(t)|, pt + |SCode(cx, t, lt, first)| + 1, a, b);
    case While(c, body) =>
      PlacedMono(cx.offs, c, l + 2, pos, a, b);
      SPlacedMono(cx.(brk := l + 1, cont := l), body, l + 2 + ELabels(c), first, pos + |Code(cx.offs, c, l + 2)| + 1,
        a, b);
    case For(i, _, _, _) =>
      OptPlacedMono(cx.offs, i, l + 3, pos, a, b);
      ForPlacedMono(cx, l, st, first, pos + |OptCode(cx.offs, i, l + 3)|, a, b);
    case Switch(c, body) =>
      var cs := Semantics.Cases(body);
      var lc := l + 1 + ELabels(c);
      var f := lc + |cs| - 1;
      PlacedMono(cx.offs, c, l + 1, pos, a, b);
      SPlacedMono(cx.(brk := l), body, lc + |cs|, f, pos + |Code(cx.offs, c, l + 1)| + |DispatchCode(cs, f)| + 1, a, b);
    case Case(_, s) => SPlacedMono(cx, s, l, first - 1, pos, a, b);
    case Break =>
    case Continue =>
    case Block(ss) => LPlacedMono(cx, ss, l, first, pos, a, b);
  }

  lemma ForPlacedMono(cx: Cx, l: int, st: Stmt, first: int, pos: int, a: map<int, int>, b: map<int, int>)
    requires st.For? && ForPlaced(cx, l, st, first, pos, a) && Extends(a, b)
    ensures ForPlaced(cx, l, st, first, pos, b)
    decreases st, 0
  {
    hide SPlaced, SCode, ForCode, OptPlaced, SLabels, OptLabels, OptCode;
    var lc := ForHead(l, st.init);
    var lb := lc + OptLabels(st.cond);
    var pb := pos + |OptCode(cx.offs, st.cond, lc)| + (if st.cond.Some? then 1 else 0);
    var cx1 := cx.(brk := l + 2, cont := l + 1);
    var pi := pb + |SCode(cx1, st.body, lb, first)|;
    OptPlacedMono(cx.offs, st.cond, lc, pos, a, b);
    SPlacedMono(cx1, st.body, lb, first, pb, a, b);
    OptPlacedMono(cx.offs, st.inc, lb + SLabels(st.body), pi, a, b);
  }

  lemma {:induction false} LPlacedMono(cx: Cx, ss: Stmts, l: int, first: int, pos: int, a: map<int, int>, b: map<int,
      int>)
    requires LPlaced(cx, ss, l, first, pos, a) && Extends(a, b)
    ensures LPlaced(cx, ss, l, first, pos, b)
    decreases ss, 0
  {
    hide SCode, SPlaced, SLabels, Semantics.Cases, Extends;
    match ss
    case SNil =>
    case SCons(h, t) =>
      SPlacedMono(cx, h, l, first, pos, a, b);
      LPlacedMono(cx, t, l + SLabels(h), first - |Semantics.Cases(h)|, pos + |SCode(cx, h, l, first)|, a, b);
  }
}
