/** The generator itself: it appends words, hands out and places labels, records fixups,
    and patches words in place.  Its methods are proved to emit exactly the items of
    module Emit, with every label where Placed says. */
module Generator {
  import opened Options
  import opened Word
  import opened Arm
  import opened Ast
  import opened Emit
  import opened Loaded
  import opened Cpu
  import opened Programs
  import opened Pieces
  import opened Buffer
  import opened Sizes
  import S = Semantics

  // ---------------------------------------------------------------- parsed input

  /** What the parser guarantees: names are resolved; and member offsets fit 12 bits. */
  predicate Named(nf: nat, nl: nat, e: Expr) {
    match e
    case Num(_) | Text(_) => true
    case Var(Local(i), _) => i < nl
    case Var(Global(_), _) => true
    case Assign(x, r) => Named(nf, nl, x) && Named(nf, nl, r)
    case Deref(p, _) => Named(nf, nl, p)
    case Member(b, off, _) => off <= 0xFFF && Named(nf, nl, b)
    case AddrOf(x) => Named(nf, nl, x)
    case Neg(x) => Named(nf, nl, x)
    case Not(x) => Named(nf, nl, x)
    case And(x, r) => Named(nf, nl, x) && Named(nf, nl, r)
    case Or(x, r) => Named(nf, nl, x) && Named(nf, nl, r)
    case Bin(_, x, r) => Named(nf, nl, x) && Named(nf, nl, r)
    case Call(f, args) => (f.User? ==> f.i < nf) && NamedArgs(nf, nl, args)
  }

  predicate NamedArgs(nf: nat, nl: nat, es: Exprs) {
    match es case ENil => true case ECons(e, t) => Named(nf, nl, e) && NamedArgs(nf, nl, t)
  }

  predicate NamedOpt(nf: nat, nl: nat, e: Option<Expr>) { e.Some? ==> Named(nf, nl, e.value) }

  predicate NamedS(nf: nat, nl: nat, st: Stmt) {
    match st
    case ExprS(e) => Named(nf, nl, e)
    case Return(e) => Named(nf, nl, e)
    case If(c, t, f) => Named(nf, nl, c) && NamedS(nf, nl, t) && NamedS(nf, nl, f)
    case While(c, b) => Named(nf, nl, c) && NamedS(nf, nl, b)
    case For(i, c, n, b) => NamedOpt(nf, nl, i) && NamedOpt(nf, nl, c) && NamedOpt(nf, nl, n) && NamedS(nf, nl, b)
    case Switch(c, b) => Named(nf, nl, c) && NamedS(nf, nl, b)
    case Case(_, b) => NamedS(nf, nl, b)
    case Break | Continue => true
    case Block(ss) => NamedL(nf, nl, ss)
  }

  predicate NamedL(nf: nat, nl: nat, ss: Stmts) {
    match ss case SNil => true case SCons(h, t) => NamedS(nf, nl, h) && NamedL(nf, nl, t)
  }

  /** How deep loops and switches nest; the break and continue stacks have 64 slots. */
  function Depth(st: Stmt): nat {
    match st
    case If(_, t, f) => Max(Depth(t), Depth(f))
    case While(_, b) => 1 + Depth(b)
    case For(_, _, _, b) => 1 + Depth(b)
    case Switch(_, b) => 1 + Depth(b)
    case Case(_, b) => Depth(b)
    case Block(ss) => DepthL(ss)
    case _ => 0
  }

  function DepthL(ss: Stmts): nat { match ss case SNil => 0 case SCons(h, t) => Max(Depth(h), DepthL(t)) }

  function Max(a: nat, b: nat): nat { if a < b then b else a }

  // ---------------------------------------------------------------- what the tables stand for

  ghost predicate Stands(t: Trace, words: seq<int>, labOff: seq<int>) {
    && |words| == |t.code| >= t.start == |t.settled| && |labOff| == MAXLAB
    && Grouped(t.code) && AllEncodable(t.code)
    && (forall i :: t.start <= i < |words| ==> words[i] == Skeleton(t.code[i]))
    && words[..t.start] == t.settled
    && LabelsAt(t, labOff) && JumpsKnown(t)
  }

  /** The first 2048 branches of the function and call sites of the program are recorded. */
  ghost predicate Tabled(t: Trace, bfx: seq<Fix>, cfx: seq<Site>) {
    bfx == Clip(Jumps(t.code, t.start), MAXBFX) && cfx == Clip(Entries(t.code), MAXCFX)
  }

  ghost predicate AllEncodable(code: seq<Item>) { forall i :: 0 <= i < |code| && code[i].I? ==> Encodable(code[i].i) }

  /** Every label handed out is open or placed, not both. */
  ghost predicate AllOpen(t: Trace, open: set<int>) {
    && (forall l :: l in open ==> 0 <= l < t.nlab && l !in t.labs)
    && (forall l :: 0 <= l < t.nlab ==> l in open || l in t.labs)
  }

  ghost predicate JumpsKnown(t: Trace) {
    forall i :: t.start <= i < |t.code| && t.code[i].J? ==> 0 <= t.code[i].lab < t.nlab
  }

  ghost predicate LabelsAt(t: Trace, labOff: seq<int>)
    requires |labOff| == MAXLAB
  {
    forall l :: l in t.labs ==> 0 <= l < t.nlab <= MAXLAB && labOff[l] == t.labs[l] && t.start <= t.labs[l] <= |t.code|
  }

  lemma StandsMore(t: Trace, words: seq<int>, labOff: seq<int>, more: seq<Item>, ws: seq<int>)
    requires Stands(t, words, labOff)
    requires |ws| == |more| && forall i :: 0 <= i < |more| ==> ws[i] == Skeleton(more[i])
    requires Grouped(more) && AllEncodable(more)
             && (forall i :: 0 <= i < |more| && more[i].J? ==> 0 <= more[i].lab < t.nlab)
    ensures Stands(t.(code := t.code + more), words + ws, labOff)
  {
    hide Skeleton, Encodable, Grouped, Jumps, Entries;
    GroupedAppend(t.code, more);
    assert (words + ws)[..t.start] == words[..t.start];
  }

  function ImmWords(r: int, v: u64): seq<int> {
    [Encode(Imm(r, v, 0)), Encode(Imm(r, v, 1)), Encode(Imm(r, v, 2)), Encode(Imm(r, v, 3))]
  }

  /** One more label, open and not placed. */
  lemma LabelDrawn(t: Trace, words: seq<int>, labOff: seq<int>, bfx: seq<Fix>, cfx: seq<Site>, open: set<int>)
    requires Stands(t, words, labOff) && Tabled(t, bfx, cfx) && AllOpen(t, open) && t.nlab < MAXLAB
    ensures var t' := t.(nlab := t.nlab + 1);
            && Stands(t', words, labOff) && Tabled(t', bfx, cfx) && AllOpen(t', open + {t.nlab})
            && Grew(t, t', [], 1, []) && t.nlab !in open
  {
    hide Grouped, AllEncodable, Skeleton, Jumps, Entries;
  }

  lemma ImmAppends(t: Trace, words: seq<int>, labOff: seq<int>, r: int, v: u64)
    requires Stands(t, words, labOff) && 0 <= r < 31
    ensures Stands(t.(code := t.code + LoadImm(r, v)), words + ImmWords(r, v), labOff)
    ensures forall bfx, cfx :: Tabled(t, bfx, cfx) ==> Tabled(t.(code := t.code + LoadImm(r, v)), bfx, cfx)
  {
    hide Jumps, Entries, Encode;
    StandsMore(t, words, labOff, LoadImm(r, v), ImmWords(r, v));
    PlainAppend(t.code, LoadImm(r, v), t.start);
  }

  lemma JumpAppends(t: Trace, words: seq<int>, labOff: seq<int>, bfx: seq<Fix>, cfx: seq<Site>, j: Jump, l: int, w: int)
    requires Stands(t, words, labOff) && Tabled(t, bfx, cfx) && w == Skeleton(J(j, l)) && 0 <= l < t.nlab
    ensures var t' := t.(code := t.code + [J(j, l)]);
            Stands(t', words + [w], labOff)
              && Tabled(t', if |bfx| < MAXBFX then bfx + [Fix(|t.code|, l, j)] else bfx, cfx)
  {
    hide Jumps, Entries;
    EntriesSnoc(t.code, J(j, l));
    JumpsSnoc(t.code, J(j, l), t.start);
    StandsMore(t, words, labOff, [J(j, l)], [w]);
  }

  lemma EntryAppends(t: Trace, words: seq<int>, labOff: seq<int>, bfx: seq<Fix>, cfx: seq<Site>, f: nat)
    requires Stands(t, words, labOff) && Tabled(t, bfx, cfx)
    ensures var t' := t.(code := t.code + EntryItems(f));
            Stands(t', words + ImmWords(9, 0), labOff)
              && Tabled(t', bfx, if |cfx| < MAXCFX then cfx + [Site(|t.code|, f)] else cfx)
  {
    hide Jumps, Entries, Encode, Grouped, AllEncodable, Skeleton, ImmWords, EntryItems;
    EntryShape(f);
    FourEntries(t.code, f, t.start);
    StandsMore(t, words, labOff, EntryItems(f), ImmWords(9, 0));
  }

  lemma EntryShape(f: nat)
    ensures |EntryItems(f)| == |ImmWords(9, 0)| == 4 && Grouped(EntryItems(f)) && AllEncodable(EntryItems(f))
    ensures forall i :: 0 <= i < 4 ==> !EntryItems(f)[i].J? && ImmWords(9, 0)[i] == Skeleton(EntryItems(f)[i])
  {
    hide Encode;
  }

  /** Instructions leave the tables alone. */
  lemma {:induction false} PlainAppend(code: seq<Item>, more: seq<Item>, start: nat)
    requires start <= |code| && forall i :: 0 <= i < |more| ==> more[i].I?
    ensures Jumps(code + more, start) == Jumps(code, start) && Entries(code + more) == Entries(code)
    decreases |more|
  {
    if more == [] {
      assert code + more == code;
    } else {
      var n := |more| - 1;
      PlainAppend(code, more[..n], start);
      JumpsSnoc(code + more[..n], more[n], start);
      EntriesSnoc(code + more[..n], more[n]);
      assert code + more == (code + more[..n]) + [more[n]];
    }
  }

  // ---------------------------------------------------------------- generated constructs

  /** From o to o' exactly the code of e was generated, its labels all placed. */
  ghost predicate GotExpr(o: Trace, o': Trace, nf: nat, offs: seq<nat>, e: Expr) {
    && Grew(o, o', Code(offs, e, o.nlab), ELabels(e), [])
    && Placed(offs, e, o.nlab, |o.code|, o'.labs) && WfE(nf, |offs|, e)
  }

  ghost predicate GotAddr(o: Trace, o': Trace, nf: nat, offs: seq<nat>, e: Expr) {
    && Grew(o, o', AddrCode(offs, e, o.nlab), ELabels(e), [])
    && Placed(offs, e, o.nlab, |o.code|, o'.labs) && WfE(nf, |offs|, e) && Lvalue(e)
  }

  /** Binary operators and assignments, from their operands. */
  lemma TwoShape(nf: nat, offs: seq<nat>, e: Expr, l: int, pos: int, labs: map<int, int>)
    requires e.Bin? || e.Assign?
    ensures e.Bin? ==>
              var a, b := Code(offs, e.r2, l), Code(offs, e.l, l + ELabels(e.r2));
              && Code(offs, e, l) == a + [I(Push)] + b + [I(Pop(1))] + OpSeq(e.op)
                 && ELabels(e) == ELabels(e.r2) + ELabels(e.l)
              && (WfE(nf, |offs|, e) <==> WfE(nf, |offs|, e.l) && WfE(nf, |offs|, e.r2))
              && (Placed(offs, e, l, pos, labs)
                 <==> Placed(offs, e.r2, l, pos, labs) && Placed(offs, e.l, l + ELabels(e.r2), pos + |a| + 1, labs))
    ensures e.Assign? ==>
              var a, b := AddrCode(offs, e.lhs, l), Code(offs, e.rhs, l + ELabels(e.lhs));
              && Code(offs, e, l) == a + [I(Push)] + b + [I(Pop(1))] + StoreSeq(TyOf(e.lhs))
                 && ELabels(e) == ELabels(e.lhs) + ELabels(e.rhs)
              && (WfE(nf, |offs|, e) <==> Lvalue(e.lhs) && WfE(nf, |offs|, e.lhs) && WfE(nf, |offs|, e.rhs))
              && (Placed(offs, e, l, pos, labs)
                 <==> Placed(offs, e.lhs, l, pos, labs) && Placed(offs, e.rhs, l + ELabels(e.lhs), pos + |a| + 1, labs))
  {
    hide OpSeq, StoreSeq, LoadSeq, LoadImm, CallSeq, PopSeq;
  }

  lemma TwoGot(o: Trace, a: Trace, b: Trace, c: Trace, d: Trace, t: Trace, nf: nat, offs: seq<nat>, e: Expr)
    requires e.Bin? || e.Assign?
    requires e.Bin? ==> GotExpr(o, a, nf, offs, e.r2) && GotExpr(b, c, nf, offs, e.l) && Grew(d, t, OpSeq(e.op), 0, [])
    requires e.Assign? ==>
             GotAddr(o, a, nf, offs, e.lhs) && GotExpr(b, c, nf, offs, e.rhs)
             && Grew(d, t, StoreSeq(TyOf(e.lhs)), 0, [])
    requires Grew(a, b, [I(Push)], 0, []) && Grew(c, d, [I(Pop(1))], 0, [])
    ensures GotExpr(o, t, nf, offs, e)
  {
    hide OpSeq, StoreSeq, Code, AddrCode, ELabels, Placed, WfE, Lvalue;
    TwoShape(nf, offs, e, o.nlab, |o.code|, t.labs);
    var x := if e.Bin? then Code(offs, e.r2, o.nlab) else AddrCode(offs, e.lhs, o.nlab);
    var y := if e.Bin? then Code(offs, e.l, b.nlab) else Code(offs, e.rhs, b.nlab);
    if e.Bin? {
      PlacedMono(offs, e.r2, o.nlab, |o.code|, a.labs, t.labs);
      PlacedMono(offs, e.l, b.nlab, |b.code|, c.labs, t.labs);
    } else {
      PlacedMono(offs, e.lhs, o.nlab, |o.code|, a.labs, t.labs);
      PlacedMono(offs, e.rhs, b.nlab, |b.code|, c.labs, t.labs);
    }
    assert t.code == o.code + (x + [I(Push)] + y + [I(Pop(1))] + if e.Bin? then OpSeq(e.op) else StoreSeq(TyOf(e.lhs)));
  }

  /** A construct whose code is that of its one operand and a tail. */
  lemma OneGot(o: Trace, a: Trace, t: Trace, nf: nat, offs: seq<nat>, e: Expr)
    requires e.Var? || e.Member? ==> GotAddr(o, a, nf, offs, e) && Grew(a, t, LoadSeq(e.ty), 0, [])
    requires e.Deref? ==> GotExpr(o, a, nf, offs, e.p) && Grew(a, t, LoadSeq(e.ty), 0, [])
    requires e.Neg? ==> GotExpr(o, a, nf, offs, e.e) && Grew(a, t, [I(SubRRR(0, 31, 0))], 0, [])
    requires e.Not? ==> GotExpr(o, a, nf, offs, e.e) && Grew(a, t, [I(Cmp0(0)), I(Cset(0, EQ))], 0, [])
    requires e.Var? || e.Member? || e.Deref? || e.Neg? || e.Not?
    ensures GotExpr(o, t, nf, offs, e)
  {
    hide OpSeq, StoreSeq, LoadSeq, LoadImm, CallSeq, PopSeq;
    var x := if e.Var? || e.Member? then e else if e.Deref? then e.p else e.e;
    PlacedMono(offs, x, o.nlab, |o.code|, a.labs, t.labs);
  }

  lemma MemberGot(o: Trace, a: Trace, t: Trace, nf: nat, offs: seq<nat>, e: Expr)
    requires e.Member? && e.off <= 0xFFF && GotAddr(o, a, nf, offs, e.b)
    requires Grew(a, t, if e.off != 0 then [I(AddImm(0, 0, e.off % 0x1000))] else [], 0, [])
    ensures GotAddr(o, t, nf, offs, e)
  {
    PlacedMono(offs, e.b, o.nlab, |o.code|, a.labs, t.labs);
  }

  /** Short circuits, from their operands. */
  lemma LogicShape(nf: nat, offs: seq<nat>, e: Expr, l: int, pos: int, labs: map<int, int>)
    requires e.And? || e.Or?
    ensures var a, h, b := Code(offs, e.l, l + 2), FirstBranch(e, l), Code(offs, e.r2, l + 2 + ELabels(e.l));
            && Code(offs, e, l) == a + h + b + LogicTail(e, l) && ELabels(e) == 2 + ELabels(e.l) + ELabels(e.r2)
            && (WfE(nf, |offs|, e) <==> WfE(nf, |offs|, e.l) && WfE(nf, |offs|, e.r2))
            && (Placed(offs, e, l, pos, labs) <==>
                  && Placed(offs, e.l, l + 2, pos, labs)
                     && Placed(offs, e.r2, l + 2 + ELabels(e.l), pos + |a| + |h|, labs)
                  && LabelAt(labs, l, pos + |a| + |h| + |b| + 3) && LabelAt(labs, l + 1, pos + |a| + |h| + |b| + 4))
  {
    hide LoadImm, LoadSeq, CallSeq, PopSeq, OpSeq, StoreSeq;
  }

  lemma LogicGot(o: Trace, o2: Trace, a: Trace, b: Trace, c: Trace, t: Trace, nf: nat, offs: seq<nat>, e: Expr)
    requires (e.And? || e.Or?) && Grew(o, o2, [], 2, []) && GotExpr(o2, a, nf, offs, e.l)
    requires Grew(a, b, FirstBranch(e, o.nlab), 0, []) && GotExpr(b, c, nf, offs, e.r2)
    requires Grew(c, t, LogicTail(e, o.nlab), 0, [o.nlab, o.nlab + 1])
    requires LabelAt(t.labs, o.nlab, |c.code| + 3) && LabelAt(t.labs, o.nlab + 1, |c.code| + 4)
    ensures GotExpr(o, t, nf, offs, e)
  {
    hide Code, Placed, WfE, ELabels, FirstBranch, LogicTail;
    LogicShape(nf, offs, e, o.nlab, |o.code|, t.labs);
    PlacedMono(offs, e.l, o2.nlab, |o2.code|, a.labs, t.labs);
    PlacedMono(offs, e.r2, b.nlab, |b.code|, c.labs, t.labs);
    assert t.code
      == o.code + (Code(offs, e.l, o2.nlab) + FirstBranch(e, o.nlab) + Code(offs, e.r2, b.nlab) + LogicTail(e, o.nlab));
  }

  /** What is left to do for a list of arguments leads to the whole list. */
  ghost predicate ArgsGoing(o: Trace, t: Trace, nf: nat, offs: seq<nat>, args: Exprs, rest: Exprs) {
    && t.nlab >= o.nlab && |t.code| >= |o.code| && Grew(o, t, t.code[|o.code|..], t.nlab - o.nlab, [])
    && o.code + ArgsCode(offs, args, o.nlab) == t.code + ArgsCode(offs, rest, t.nlab)
    && o.nlab + ArgLabels(args) == t.nlab + ArgLabels(rest)
    && (WfArgs(nf, |offs|, rest) ==> WfArgs(nf, |offs|, args))
    && forall m :: Extends(t.labs, m) && ArgsPlaced(offs, rest, t.nlab, |t.code|, m) ==>
       ArgsPlaced(offs, args, o.nlab, |o.code|, m)
  }

  lemma ArgsStart(o: Trace, nf: nat, offs: seq<nat>, args: Exprs)
    ensures ArgsGoing(o, o, nf, offs, args, args)
  {
    hide ArgsCode, ArgsPlaced;
  }

  lemma ArgsStep(o: Trace, a: Trace, b: Trace, t: Trace, nf: nat, offs: seq<nat>, args: Exprs, rest: Exprs)
    requires rest.ECons? && ArgsGoing(o, a, nf, offs, args, rest)
    requires GotExpr(a, b, nf, offs, rest.hd) && Grew(b, t, [I(Push)], 0, [])
    ensures ArgsGoing(o, t, nf, offs, args, rest.tl)
  {
    hide Code, Placed, WfE, ELabels;
    var x := Code(offs, rest.hd, a.nlab);
    assert a.code + ArgsCode(offs, rest, a.nlab) == t.code + ArgsCode(offs, rest.tl, t.nlab);
    assert t.code[|o.code|..] == a.code[|o.code|..] + x + [I(Push)];
    assert t.code == o.code + t.code[|o.code|..];
    forall m | Extends(t.labs, m) && ArgsPlaced(offs, rest.tl, t.nlab, |t.code|, m)
      ensures ArgsPlaced(offs, args, o.nlab, |o.code|, m)
    {
      PlacedMono(offs, rest.hd, a.nlab, |a.code|, b.labs, m);
      assert Extends(a.labs, m);
    }
  }

  lemma CallGot(o: Trace, a: Trace, b: Trace, t: Trace, nf: nat, offs: seq<nat>, e: Expr)
    requires e.Call? && ArgsGoing(o, a, nf, offs, e.args, ENil) && Count(e.args) <= 8
             && (if e.f.User? then e.f.i < nf else e.f.addr != 0)
    requires Grew(a, b, PopSeq(Count(e.args)), 0, []) && Grew(b, t, CallSeq(e.f), 0, [])
    ensures GotExpr(o, t, nf, offs, e)
  {
    hide CallSeq, PopSeq;
    assert Extends(a.labs, t.labs);
    assert ArgsPlaced(offs, e.args, o.nlab, |o.code|, t.labs);
    assert a.code == o.code + ArgsCode(offs, e.args, o.nlab) by { assert a.code + [] == a.code; }
    assert t.code == o.code + (ArgsCode(offs, e.args, o.nlab) + PopSeq(Count(e.args)) + CallSeq(e.f));
  }

  // ---------------------------------------------------------------- generated statements

  /** From o to t exactly the code of st was generated; cl are its case labels. */
  ghost predicate GotStmt(o: Trace, t: Trace, nf: nat, cx: Cx, st: Stmt, first: int, cl: seq<int>) {
    && Grew(o, t, SCode(cx, st, o.nlab, first), SLabels(st), cl)
    && SPlaced(cx, st, o.nlab, first, |o.code|, t.labs) && WfS(nf, |cx.offs|, st, cx.brk >= 0, cx.cont >= 0)
  }

  /** The case labels descend from `first` and are open. */
  ghost predicate Fresh(open: set<int>, cl: seq<int>, first: int) {
    forall k :: 0 <= k < |cl| ==> cl[k] == first - k && cl[k] in open
  }

  ghost function Labels(cl: seq<int>): set<int> { set l | l in cl }

  lemma FreshSplit(open: set<int>, cl: seq<int>, first: int, n: nat)
    requires Fresh(open, cl, first) && n <= |cl|
    ensures Fresh(open, cl[..n], first) && Fresh(open - Labels(cl[..n]), cl[n..], first - n)
    ensures Labels(cl) == Labels(cl[..n]) + Labels(cl[n..]) <= open
  {
    assert cl == cl[..n] + cl[n..];
  }

  /** Two labels that were not open before are not case labels, and placing them again
      leaves only the case labels gone. */
  lemma TwoMore(open: set<int>, l: int, l2: int, used: set<int>, rest: set<int>)
    requires l !in open && l2 !in open && used + rest <= open
    ensures open <= open + {l, l2} && l !in rest && l2 !in rest
    ensures open - used <= open + {l, l2} - used && {l, l2} <= open + {l, l2} - used
    ensures open + {l, l2} - used - rest - {l, l2} == open - (used + rest)
  {
  }

  lemma FreshUsed(open: set<int>, cl: seq<int>, first: int)
    requires Fresh(open, cl, first)
    ensures Labels(cl) <= open
  {
  }

  lemma ThreeGone(open: set<int>, l: int, cl: seq<int>, first: int)
    requires Fresh(open, cl, first) && {l, l + 1, l + 2} <= open && {l, l + 1, l + 2} !! Labels(cl)
    ensures Fresh(open - {l}, cl, first) && l + 1 in open - {l} - Labels(cl) && l + 2 in open - {l} - Labels(cl)
    ensures open - {l} - Labels(cl) - {l + 1, l + 2} == open - Labels(cl) - {l, l + 1, l + 2}
  {
  }

  lemma NewIndex(o: Trace, o2: Trace, o3: Trace, a: Trace, nf: nat, offs: seq<nat>, st: Stmt)
    requires st.For? && Grew(o, o2, [], 2, []) && Grew(o2, o3, [], 1, []) && GotOpt(o3, a, nf, offs, st.init)
    ensures o2.nlab == o.nlab + 2 && a.nlab == ForHead(o.nlab, st.init)
  {
  }

  lemma NewIndexOf(o: Trace, o1: Trace, l: int)
    requires Grew(o, o1, [], 1, [])
    ensures o1.nlab == o.nlab + 1
  {
  }

  lemma NoLabels(open: set<int>, first: int)
    ensures Fresh(open, [], first) && Labels([]) == {}
  {
  }

  lemma FirstOpen(open: set<int>, cl: seq<int>, first: int)
    requires Fresh(open, cl, first) && |cl| > 0
    ensures cl[0] == first && cl[0] in open && Labels(cl[..1]) == {cl[0]}
  {
  }

  lemma ArmLabels(open: set<int>, cl: seq<int>, first: int)
    requires Fresh(open, cl, first)
    ensures forall k :: 0 <= k < |cl| ==> cl[k] == first - k
  {
  }

  lemma FreshCons(open: set<int>, cl: seq<int>, first: int, l: int)
    requires Fresh(open + Labels(cl), cl, first - 1) && l == first && l !in open + Labels(cl) && open !! Labels(cl)
    ensures Fresh(open + Labels(cl) + {l}, [l] + cl, first) && Labels([l] + cl) == Labels(cl) + {l}
            && open !! Labels([l] + cl)
  {
  }

  /** One comparison of a switch. */
  function CompareCode(c: Option<int>, l: int): seq<Item> {
    match c case None => [] case Some(v) => LoadImm(1, ToU(v)) + [I(CmpRR(0, 1)), J(JCond(EQ), l)]
  }

  lemma CallInput(nf: nat, nl: nat, e: Expr)
    requires e.Call? && Named(nf, nl, e)
    ensures NamedArgs(nf, nl, e.args) && (e.f.User? ==> e.f.i < nf)
  {
  }

  lemma CallRegister()
    ensures Encodable(Blr(9))
  {
  }

  lemma LogicInput(nf: nat, nl: nat, e: Expr)
    requires (e.And? || e.Or?) && Named(nf, nl, e)
    ensures Named(nf, nl, e.l) && Named(nf, nl, e.r2)
  {
  }

  lemma MemberInput(nf: nat, nl: nat, e: Expr)
    requires e.Member? && Named(nf, nl, e)
    ensures Named(nf, nl, e.b) && e.off <= 0xFFF && Encodable(AddImm(0, 0, e.off % 0x1000))
  {
  }

  lemma TwoGone(open: set<int>, l: int, l2: int)
    requires l !in open && l2 !in open
    ensures open + {l, l2} - {l, l2} == open && l in open + {l, l2} && l2 in open + {l, l2}
  {
  }

  function LocalCode(offs: seq<nat>, i: nat): seq<Item>
    requires i < |offs|
  {
    if offs[i] <= 0xFFF then [I(SubImm(0, 29, offs[i]))] else LoadImm(9, ToU(offs[i])) + [I(SubRRR(0, 29, 9))]
  }

  lemma PopNext(i: nat)
    requires i < 8
    ensures PopSeq(i + 1) == [I(Pop(i))] + PopSeq(i) && Encodable(Pop(i))
  {
  }

  lemma PopLast()
    ensures PopSeq(0) == []
  {
  }

  lemma GrewOn(o: Trace, a: Trace, t: Trace, done: seq<Item>, more: seq<Item>)
    requires Grew(o, a, done, 0, []) && Grew(a, t, more, 0, [])
    ensures Grew(o, t, done + more, 0, [])
  {
    GrewTrans(o, a, t, done, 0, [], more, 0, []);
  }

  lemma GrewNone(o: Trace)
    ensures Grew(o, o, [], 0, [])
  {
  }

  lemma DispatchGrew(o: Trace, a: Trace, b: Trace, t: Trace, done: seq<Item>, n: nat, c: Option<int>, l: int)
    requires Grew(o, a, done, n, []) && Grew(a, b, [], 1, []) && Grew(b, t, CompareCode(c, l), 0, [])
    ensures Grew(o, t, done + CompareCode(c, l), n + 1, []) && a.nlab == o.nlab + n
  {
    hide CompareCode;
    GrewTrans(o, a, b, done, n, [], [], 1, []);
    GrewTrans(o, b, t, done + [], n + 1, [], CompareCode(c, l), 0, []);
  }

  lemma DispatchNone(first: int)
    ensures forall done: seq<Item> {:trigger done + DispatchCode([], first)} :: done + DispatchCode([], first) == done
  {
  }

  lemma DSizeStep(cs: seq<Option<int>>, l: int)
    requires cs != []
    ensures DSize(cs) == |CompareCode(cs[|cs| - 1], l)| + DSize(cs[..|cs| - 1])
  {
    DispatchSize(cs[..|cs| - 1], 0);
  }

  lemma DispatchStep(cs: seq<Option<int>>, first: int)
    requires cs != []
    ensures DispatchCode(cs, first)
            == CompareCode(cs[|cs| - 1], first - (|cs| - 1)) + DispatchCode(cs[..|cs| - 1], first)
  {
    hide LoadImm;
  }

  lemma GrewJump(o: Trace, o1: Trace, d: Trace, l: int, l2: int)
    requires Grew(o, o1, [J(JB, l2)], 0, []) && Grew(o1, d, [], 0, [l]) && LabelAt(d.labs, l, |o1.code|)
    ensures Grew(o, d, [J(JB, l2)], 0, [l]) && LabelAt(d.labs, l, |o.code| + 1)
  {
    GrewTrans(o, o1, d, [J(JB, l2)], 0, [], [], 0, [l]);
  }

  lemma FreshLess(open: set<int>, cl: seq<int>, first: int, l: int)
    requires Fresh(open, cl, first) && l !in Labels(cl)
    ensures Fresh(open - {l}, cl, first)
  {
  }

  lemma LabelsSplit(open: set<int>, cl: seq<int>, l: int, l2: int)
    requires l !in Labels(cl) && l2 !in Labels(cl) && l2 in open && l != l2
    ensures l2 in open - {l} - Labels(cl) && open - {l} - Labels(cl) - {l2} == open - Labels(cl) - {l, l2}
  {
  }

  lemma FreshSlice(open: set<int>, cl: seq<int>, first: int, i: nat, n: nat)
    requires Fresh(open, cl, first) && i + n <= |cl|
    ensures Fresh(open - Labels(cl[..i]), cl[i..i + n], first - i)
    ensures open - Labels(cl[..i]) - Labels(cl[i..i + n]) == open - Labels(cl[..i + n])
            && cl[..i] + cl[i..i + n] == cl[..i + n]
  {
    assert cl[..i] + cl[i..i + n] == cl[..i + n];
  }

  lemma FreshMore(open: set<int>, more: set<int>, cl: seq<int>, first: int)
    requires Fresh(open, cl, first) && open <= more
    ensures Fresh(more, cl, first)
  {
  }

  lemma JumpGot(o: Trace, a: Trace, t: Trace, nf: nat, cx: Cx, st: Stmt, first: int)
    requires st.ExprS? ==> GotExpr(o, t, nf, cx.offs, st.e)
    requires st.Return? ==> GotExpr(o, a, nf, cx.offs, st.e) && Grew(a, t, [J(JB, RET)], 0, [])
    requires st.Break? ==> cx.brk >= 0 && Grew(o, t, [J(JB, cx.brk)], 0, [])
    requires st.Continue? ==> cx.cont >= 0 && Grew(o, t, [J(JB, cx.cont)], 0, [])
    requires st.ExprS? || st.Return? || st.Break? || st.Continue?
    ensures GotStmt(o, t, nf, cx, st, first, [])
  {
    hide Code, Placed, WfE, ELabels;
    if st.Return? { PlacedMono(cx.offs, st.e, o.nlab, |o.code|, a.labs, t.labs); }
  }

  lemma CaseGot(o: Trace, a: Trace, t: Trace, nf: nat, cx: Cx, st: Stmt, first: int, cl: seq<int>)
    requires st.Case? && |cl| > 0 && cl[0] == first && Grew(o, a, [], 0, [cl[0]]) && LabelAt(a.labs, cl[0], |o.code|)
    requires GotStmt(a, t, nf, cx, st.s, first - 1, cl[1..])
    ensures GotStmt(o, t, nf, cx, st, first, cl)
  {
    hide SCode, SPlaced, WfS, SLabels;
    CaseUnfold(nf, cx, st, o.nlab, first, |o.code|, t.labs);
    assert a.code == o.code;
    assert cl == [cl[0]] + cl[1..];
  }

  lemma CaseUnfold(nf: nat, cx: Cx, st: Stmt, l: int, first: int, pos: int, labs: map<int, int>)
    requires st.Case?
    ensures SCode(cx, st, l, first) == SCode(cx, st.s, l, first - 1) && SLabels(st) == SLabels(st.s)
    ensures LabelAt(labs, first, pos) && SPlaced(cx, st.s, l, first - 1, pos, labs) ==>
            SPlaced(cx, st, l, first, pos, labs)
    ensures WfS(nf, |cx.offs|, st.s, cx.brk >= 0, cx.cont >= 0) ==> WfS(nf, |cx.offs|, st, cx.brk >= 0, cx.cont >= 0)
  {
  }

  /** A condition and the branch taken when it is 0. */
  ghost predicate GotTest(o: Trace, t: Trace, nf: nat, offs: seq<nat>, c: Expr, exit: int) {
    && Grew(o, t, Code(offs, c, o.nlab) + [J(JCbz, exit)], ELabels(c), [])
    && Placed(offs, c, o.nlab, |o.code|, t.labs) && WfE(nf, |offs|, c)
  }

  lemma TestGot(o: Trace, a: Trace, t: Trace, nf: nat, offs: seq<nat>, c: Expr, exit: int)
    requires GotExpr(o, a, nf, offs, c) && Grew(a, t, [J(JCbz, exit)], 0, [])
    ensures GotTest(o, t, nf, offs, c, exit)
  {
    hide Code, Placed, WfE, ELabels;
    PlacedMono(offs, c, o.nlab, |o.code|, a.labs, t.labs);
  }

  lemma IfGot(o: Trace, o2: Trace, b: Trace, c: Trace, d: Trace, e: Trace, t: Trace, nf: nat, cx: Cx, st: Stmt,
      first: int, cl: seq<int>)
    requires st.If? && |cl| >= |S.Cases(st.t)|
    requires var l, n := o.nlab, |S.Cases(st.t)|;
      && Grew(o, o2, [], 2, []) && GotTest(o2, b, nf, cx.offs, st.c, l)
      && GotStmt(b, c, nf, cx, st.t, first, cl[..n])
      && Grew(c, d, [J(JB, l + 1)], 0, [l]) && LabelAt(d.labs, l, |c.code| + 1)
      && GotStmt(d, e, nf, cx, st.f, first - n, cl[n..])
      && Grew(e, t, [], 0, [l + 1]) && LabelAt(t.labs, l + 1, |e.code|)
    ensures GotStmt(o, t, nf, cx, st, first, cl)
  {
    hide Code, Placed, WfE, ELabels, SCode, SPlaced, WfS, SLabels, S.Cases;
    var l, n := o.nlab, |S.Cases(st.t)|;
    var x, y, z := Code(cx.offs, st.c, l + 2), SCode(cx, st.t, b.nlab, first), SCode(cx, st.f, d.nlab, first - n);
    PlacedMono(cx.offs, st.c, l + 2, |o.code|, b.labs, t.labs);
    SPlacedMono(cx, st.t, b.nlab, first, |b.code|, c.labs, t.labs);
    SPlacedMono(cx, st.f, d.nlab, first - n, |d.code|, e.labs, t.labs);
    IfUnfold(nf, cx, st, l, first, |o.code|, t.labs);
    assert cl == cl[..n] + cl[n..];
    assert t.code == o.code + (x + [J(JCbz, l)] + y + [J(JB, l + 1)] + z);
  }

  lemma IfUnfold(nf: nat, cx: Cx, st: Stmt, l: int, first: int, pos: int, labs: map<int, int>)
    requires st.If?
    ensures var lt := l + 2 + ELabels(st.c); var lf := lt + SLabels(st.t); var n := |S.Cases(st.t)|;
      var x, y, z := Code(cx.offs, st.c, l + 2), SCode(cx, st.t, lt, first), SCode(cx, st.f, lf, first - n);
      var pt := pos + |x| + 1; var pf := pt + |y| + 1;
      && SCode(cx, st, l, first) == x + [J(JCbz, l)] + y + [J(JB, l + 1)] + z
      && SLabels(st) == 2 + ELabels(st.c) + SLabels(st.t) + SLabels(st.f)
      && (SPlaced(cx, st, l, first, pos, labs)
          <== Placed(cx.offs, st.c, l + 2, pos, labs) && SPlaced(cx, st.t, lt, first, pt, labs)
              && SPlaced(cx, st.f, lf, first - n, pf, labs) && LabelAt(labs, l, pf) && LabelAt(labs, l + 1, pf + |z|))
    ensures WfE(nf, |cx.offs|, st.c) && WfS(nf, |cx.offs|, st.t, cx.brk >= 0, cx.cont >= 0)
            && WfS(nf, |cx.offs|, st.f, cx.brk >= 0, cx.cont >= 0)
            ==> WfS(nf, |cx.offs|, st, cx.brk >= 0, cx.cont >= 0)
  {
    hide Code, Placed, ELabels, S.Cases;
  }

  lemma WhileGot(o: Trace, o2: Trace, p: Trace, b: Trace, c: Trace, t: Trace, nf: nat, cx: Cx, st: Stmt, first: int,
      cl: seq<int>)
    requires st.While?
    requires var l := o.nlab; var cx1 := cx.(brk := l + 1, cont := l);
      && Grew(o, o2, [], 2, []) && Grew(o2, p, [], 0, [l]) && LabelAt(p.labs, l, |o2.code|)
      && GotTest(p, b, nf, cx.offs, st.c, l + 1) && GotStmt(b, c, nf, cx1, st.body, first, cl)
      && Grew(c, t, TickCode(cx.tick, l + 1) + [J(JB, l)], 0, [l + 1]) && LabelAt(t.labs, l + 1, |t.code|)
    ensures GotStmt(o, t, nf, cx, st, first, cl)
  {
    hide Code, Placed, WfE, ELabels, SCode, SPlaced, WfS, SLabels, S.Cases, TickCode;
    var l := o.nlab;
    var cx1 := cx.(brk := l + 1, cont := l);
    var x, y := Code(cx.offs, st.c, l + 2), SCode(cx1, st.body, b.nlab, first);
    PlacedMono(cx.offs, st.c, l + 2, |o.code|, b.labs, t.labs);
    SPlacedMono(cx1, st.body, b.nlab, first, |b.code|, c.labs, t.labs);
    WhileUnfold(nf, cx, st, l, first, |o.code|, t.labs);
    assert t.code == o.code + (x + [J(JCbz, l + 1)] + y + TickCode(cx.tick, l + 1) + [J(JB, l)]);
  }

  lemma WhileUnfold(nf: nat, cx: Cx, st: Stmt, l: int, first: int, pos: int, labs: map<int, int>)
    requires st.While? && l >= 0
    ensures var lb := l + 2 + ELabels(st.c); var cx1 := cx.(brk := l + 1, cont := l);
      var x, y := Code(cx.offs, st.c, l + 2), SCode(cx1, st.body, lb, first);
      && SCode(cx, st, l, first) == x + [J(JCbz, l + 1)] + y + TickCode(cx.tick, l + 1) + [J(JB, l)]
      && SLabels(st) == 2 + ELabels(st.c) + SLabels(st.body) && S.Cases(st) == S.Cases(st.body)
      && (SPlaced(cx, st, l, first, pos, labs)
          <== Placed(cx.offs, st.c, l + 2, pos, labs) && SPlaced(cx1, st.body, lb, first, pos + |x| + 1, labs)
              && LabelAt(labs, l, pos) && LabelAt(labs, l + 1, pos + |SCode(cx, st, l, first)|))
    ensures WfE(nf, |cx.offs|, st.c) && WfS(nf, |cx.offs|, st.body, true, true) ==>
            WfS(nf, |cx.offs|, st, cx.brk >= 0, cx.cont >= 0)
  {
    hide Code, Placed, ELabels, TickCode;
  }

  /** An optional expression. */
  ghost predicate GotOpt(o: Trace, t: Trace, nf: nat, offs: seq<nat>, e: Option<Expr>) {
    && Grew(o, t, OptCode(offs, e, o.nlab), OptLabels(e), [])
    && OptPlaced(offs, e, o.nlab, |o.code|, t.labs) && WfOpt(nf, |offs|, e)
  }

  lemma OptGot(o: Trace, t: Trace, nf: nat, offs: seq<nat>, e: Option<Expr>)
    requires e.Some? ==> GotExpr(o, t, nf, offs, e.value)
    requires e.None? ==> t == o
    ensures GotOpt(o, t, nf, offs, e)
  {
    hide Code, Placed, WfE, ELabels;
  }

  ghost predicate GotOptTest(o: Trace, t: Trace, nf: nat, offs: seq<nat>, c: Option<Expr>, exit: int) {
    && Grew(o, t, OptCode(offs, c, o.nlab) + (if c.Some? then [J(JCbz, exit)] else []), OptLabels(c), [])
    && OptPlaced(offs, c, o.nlab, |o.code|, t.labs) && WfOpt(nf, |offs|, c)
  }

  lemma OptTestGot(o: Trace, t: Trace, nf: nat, offs: seq<nat>, c: Option<Expr>, exit: int)
    requires c.Some? ==> GotTest(o, t, nf, offs, c.value, exit)
    requires c.None? ==> t == o
    ensures GotOptTest(o, t, nf, offs, c, exit)
  {
    hide Code, Placed, WfE, ELabels;
  }

  /** A for loop from its test on; o has its three labels handed out, the first being l. */
  ghost predicate GotLoop(o: Trace, t: Trace, nf: nat, cx: Cx, l: int, st: Stmt, first: int, cl: seq<int>)
    requires st.For?
  {
    && Grew(o, t, ForCode(cx, l, st, first), OptLabels(st.cond) + SLabels(st.body) + OptLabels(st.inc),
       [l, l + 1, l + 2] + cl)
    && ForPlaced(cx, l, st, first, |o.code|, t.labs)
    && WfOpt(nf, |cx.offs|, st.cond) && WfOpt(nf, |cx.offs|, st.inc) && WfS(nf, |cx.offs|, st.body, true, true)
  }

  lemma LoopGot(o: Trace, p: Trace, b: Trace, c: Trace, q: Trace, i: Trace, t: Trace, nf: nat, cx: Cx, l: int,
      st: Stmt, first: int, cl: seq<int>)
    requires st.For? && l >= 0 && o.nlab == ForHead(l, st.init)
    requires Grew(o, p, [], 0, [l]) && LabelAt(p.labs, l, |o.code|) && GotOptTest(p, b, nf, cx.offs, st.cond, l + 2)
    requires GotStmt(b, c, nf, cx.(brk := l + 2, cont := l + 1), st.body, first, cl)
    requires Grew(c, q, [], 0, [l + 1]) && LabelAt(q.labs, l + 1, |c.code|) && GotOpt(q, i, nf, cx.offs, st.inc)
    requires Grew(i, t, TickCode(cx.tick, l + 2) + [J(JB, l)], 0, [l + 2]) && LabelAt(t.labs, l + 2, |t.code|)
    ensures GotLoop(o, t, nf, cx, l, st, first, cl)
  {
    hide OptCode, OptPlaced, OptLabels, SCode, SPlaced, WfOpt, WfS, SLabels, S.Cases, TickCode;
    var cx1 := cx.(brk := l + 2, cont := l + 1);
    var x, y, z :=
      OptCode(cx.offs, st.cond, p.nlab), SCode(cx1, st.body, b.nlab, first), OptCode(cx.offs, st.inc, q.nlab);
    var j := if st.cond.Some? then [J(JCbz, l + 2)] else [];
    OptPlacedMono(cx.offs, st.cond, p.nlab, |o.code|, b.labs, t.labs);
    SPlacedMono(cx1, st.body, b.nlab, first, |b.code|, c.labs, t.labs);
    OptPlacedMono(cx.offs, st.inc, q.nlab, |q.code|, i.labs, t.labs);
    assert t.code == o.code + (x + j + y + z + TickCode(cx.tick, l + 2) + [J(JB, l)]);
  }

  lemma ForGot(o: Trace, o3: Trace, a: Trace, t: Trace, nf: nat, cx: Cx, st: Stmt, first: int, cl: seq<int>)
    requires st.For? && Grew(o, o3, [], 3, []) && GotOpt(o3, a, nf, cx.offs, st.init)
             && GotLoop(a, t, nf, cx, o.nlab, st, first, cl)
    ensures GotStmt(o, t, nf, cx, st, first, cl)
  {
    hide OptCode, OptPlaced, OptLabels, ForCode, ForPlaced, WfOpt, S.Cases;
    OptPlacedMono(cx.offs, st.init, o3.nlab, |o.code|, a.labs, t.labs);
    assert t.code == o.code + (OptCode(cx.offs, st.init, o3.nlab) + ForCode(cx, o.nlab, st, first));
  }

  lemma SwitchGot(o: Trace, o1: Trace, a: Trace, b: Trace, c: Trace, d: Trace, t: Trace, nf: nat, cx: Cx, st: Stmt,
      first: int, cl: seq<int>)
    requires st.Switch? && Grew(o, o1, [], 1, []) && GotExpr(o1, a, nf, cx.offs, st.c)
    requires var l, cs := o.nlab, S.Cases(st.body); var f := a.nlab + |cs| - 1;
      && |cl| == |cs| && (forall k :: 0 <= k < |cl| ==> cl[k] == f - k)
      && Grew(a, b, DispatchCode(cs, f), |cs|, [])
      && Grew(b, c, [J(JB, if S.Default(cs) >= 0 then f - S.Default(cs) else l)], 0, [])
      && GotStmt(c, d, nf, cx.(brk := l), st.body, f, cl)
      && Grew(d, t, [], 0, [l]) && LabelAt(t.labs, l, |d.code|)
    ensures GotStmt(o, t, nf, cx, st, first, [])
  {
    hide Code, Placed, WfE, ELabels, SCode, SPlaced, WfS, SLabels, S.Cases, S.Default, DispatchCode;
    var l, cs := o.nlab, S.Cases(st.body);
    var f := a.nlab + |cs| - 1;
    var j := J(JB, if S.Default(cs) >= 0 then f - S.Default(cs) else l);
    PlacedMono(cx.offs, st.c, o1.nlab, |o.code|, a.labs, t.labs);
    SPlacedMono(cx.(brk := l), st.body, c.nlab, f, |c.code|, d.labs, t.labs);
    SwitchUnfold(nf, cx, st, l, first, |o.code|, t.labs);
    assert t.code
      == o.code + (Code(cx.offs, st.c, o1.nlab) + DispatchCode(cs, f) + [j] + SCode(cx.(brk := l), st.body, c.nlab, f));
  }

  lemma SwitchUnfold(nf: nat, cx: Cx, st: Stmt, l: int, first: int, pos: int, labs: map<int, int>)
    requires st.Switch? && l >= 0
    ensures var cs, lc := S.Cases(st.body), l + 1 + ELabels(st.c); var f := lc + |cs| - 1; var cx1 := cx.(brk := l);
      var x, d, y := Code(cx.offs, st.c, l + 1), DispatchCode(cs, f), SCode(cx1, st.body, lc + |cs|, f);
      && SCode(cx, st, l, first) == x + d + [J(JB, if S.Default(cs) >= 0 then f - S.Default(cs) else l)] + y
      && SLabels(st) == 1 + ELabels(st.c) + |cs| + SLabels(st.body)
      && (SPlaced(cx, st, l, first, pos, labs)
          <== Placed(cx.offs, st.c, l + 1, pos, labs) && SPlaced(cx1, st.body, lc + |cs|, f, pos + |x| + |d| + 1, labs)
              && LabelAt(labs, l, pos + |SCode(cx, st, l, first)|))
    ensures WfE(nf, |cx.offs|, st.c) && WfS(nf, |cx.offs|, st.body, true, cx.cont >= 0) ==>
            WfS(nf, |cx.offs|, st, cx.brk >= 0, cx.cont >= 0)
  {
    hide Code, Placed, ELabels, DispatchCode, S.Default, S.Cases;
  }

  /** What is left to do for a block leads to the whole block. */
  ghost predicate BlockGoing(o: Trace, t: Trace, nf: nat, cx: Cx, ss: Stmts, first: int, rest: Stmts, first': int,
      used: seq<int>)
  {
    && t.nlab >= o.nlab && |t.code| >= |o.code| && Grew(o, t, t.code[|o.code|..], t.nlab - o.nlab, used)
    && o.code + LCode(cx, ss, o.nlab, first) == t.code + LCode(cx, rest, t.nlab, first')
    && o.nlab + LLabels(ss) == t.nlab + LLabels(rest)
    && (WfL(nf, |cx.offs|, rest, cx.brk >= 0, cx.cont >= 0) ==> WfL(nf, |cx.offs|, ss, cx.brk >= 0, cx.cont >= 0))
    && forall m :: Extends(t.labs, m) && LPlaced(cx, rest, t.nlab, first', |t.code|, m) ==>
       LPlaced(cx, ss, o.nlab, first, |o.code|, m)
  }

  lemma BlockStart(o: Trace, nf: nat, cx: Cx, ss: Stmts, first: int)
    ensures BlockGoing(o, o, nf, cx, ss, first, ss, first, [])
  {
    hide LCode, LPlaced;
  }

  lemma BlockStep(o: Trace, a: Trace, t: Trace, nf: nat, cx: Cx, ss: Stmts, first: int, rest: Stmts, first': int,
      used: seq<int>, cl: seq<int>)
    requires rest.SCons? && BlockGoing(o, a, nf, cx, ss, first, rest, first', used)
             && GotStmt(a, t, nf, cx, rest.hd, first', cl)
    ensures BlockGoing(o, t, nf, cx, ss, first, rest.tl, first' - |S.Cases(rest.hd)|, used + cl)
  {
    hide SCode, SPlaced, WfS, SLabels, S.Cases;
    var x := SCode(cx, rest.hd, a.nlab, first');
    var more := first' - |S.Cases(rest.hd)|;
    assert a.code + LCode(cx, rest, a.nlab, first') == t.code + LCode(cx, rest.tl, t.nlab, more);
    assert t.code[|o.code|..] == a.code[|o.code|..] + x;
    assert t.code == o.code + t.code[|o.code|..];
    forall m | Extends(t.labs, m) && LPlaced(cx, rest.tl, t.nlab, more, |t.code|, m)
      ensures LPlaced(cx, ss, o.nlab, first, |o.code|, m)
    {
      SPlacedMono(cx, rest.hd, a.nlab, first', |a.code|, t.labs, m);
      assert Extends(a.labs, m);
    }
  }

  lemma BlockGot(o: Trace, t: Trace, nf: nat, cx: Cx, st: Stmt, first: int, first': int, cl: seq<int>)
    requires st.Block? && BlockGoing(o, t, nf, cx, st.ss, first, SNil, first', cl)
    ensures GotStmt(o, t, nf, cx, st, first, cl)
  {
    assert t.code + [] == t.code;
    assert Extends(t.labs, t.labs);
    assert t.code == o.code + t.code[|o.code|..];
    assert t.code[|o.code|..] == LCode(cx, st.ss, o.nlab, first);
  }

  // ---------------------------------------------------------------- patching branches

  /** How many branches of the function come before word i. */
  ghost function JumpIndex(code: seq<Item>, start: nat, i: nat): nat
    requires i <= |code|
  {
    |Jumps(code[..i], start)|
  }

  lemma {:induction false} JumpAt(code: seq<Item>, start: nat, k: nat)
    requires k < |Jumps(code, start)|
    ensures var f := Jumps(code, start)[k];
            start <= f.site < |code| && code[f.site] == J(f.j, f.lab) && JumpIndex(code, start, f.site) == k
    decreases |code|
  {
    var n := |code| - 1;
    if k < |Jumps(code[..n], start)| {
      JumpAt(code[..n], start, k);
      var f := Jumps(code, start)[k];
      assert code[..n][..f.site] == code[..f.site];
    }
  }

  lemma {:induction false} JumpFound(code: seq<Item>, start: nat, i: nat)
    requires start <= i < |code| && code[i].J?
    ensures JumpIndex(code, start, i) < |Jumps(code, start)| && Jumps(code, start)[JumpIndex(code, start, i)].site == i
    decreases |code|
  {
    var n := |code| - 1;
    if i < n {
      JumpFound(code[..n], start, i);
      assert code[..n][..i] == code[..i];
    }
  }

  /** The word at i once the first k recorded branches are patched. */
  ghost function Settle(code: seq<Item>, start: nat, labs: map<int, int>, i: nat, k: int): int
    requires i < |code|
  {
    if code[i].J?
      && JumpIndex(code, start, i) < k then Encode(Branch(labs, code[i].j, code[i].lab, i)) else Skeleton(code[i])
  }

  /** Patching the k-th recorded branch settles exactly that word. */
  lemma SettleStep(code: seq<Item>, start: nat, labs: map<int, int>, k: nat, i: nat)
    requires k < |Jumps(code, start)| && start <= i < |code|
    ensures var f := Jumps(code, start)[k];
            if i == f.site then Settle(code, start, labs, i, k + 1) == Encode(Branch(labs, f.j, f.lab, i))
            else Settle(code, start, labs, i, k + 1) == Settle(code, start, labs, i, k)
  {
    hide Skeleton, Encode;
    JumpAt(code, start, k);
    if code[i].J? && JumpIndex(code, start, i) == k { JumpFound(code, start, i); }
  }

  lemma SettleNone(code: seq<Item>, start: nat, labs: map<int, int>, i: nat)
    requires i < |code|
    ensures Settle(code, start, labs, i, 0) == Skeleton(code[i])
  {
  }

  /** Past the recorded branches nothing is left to patch. */
  lemma SettleAll(code: seq<Item>, start: nat, labs: map<int, int>, i: nat)
    requires start <= i < |code|
    ensures Settle(code, start, labs, i, |Clip(Jumps(code, start), MAXBFX)|) == Settle(code, start, labs, i, MAXBFX)
  {
    hide Skeleton, Encode, Jumps;
    if code[i].J? { JumpFound(code, start, i); }
  }

  lemma BranchWord(labs: map<int, int>, j: Jump, lab: int, site: int, delta: int)
    requires lab in labs && delta == labs[lab] - site
    ensures Encode(Branch(labs, j, lab, site)) == match j
              case JB => 0x14000000 + delta % 0x400_0000
              case JCbz => 0xB4000000 + (delta % 0x8_0000) * 32
              case JCbnz => 0xB5000000 + (delta % 0x8_0000) * 32
              case JCond(c) => 0x54000000 + (delta % 0x8_0000) * 32 + CondCode(c)
  {
  }

  // ---------------------------------------------------------------- generated functions

  /** From o to t the code of fn was generated and settled; m is its label table. */
  ghost predicate FuncMade(o: Trace, t: Trace, nf: nat, p: Prog, fn: Func, m: map<int, int>) {
    && t.code == o.code + FCode(p, fn) && FPlaced(p, fn, |o.code|, m)
    && WfS(nf, |fn.locals|, fn.body, false, false) && 1 + SLabels(fn.body) <= MAXLAB
    && |o.settled| == |o.code| && |t.settled| == |t.code| && t.settled[..|o.code|] == o.settled
    && (forall l :: l in m ==> |o.code| <= m[l] <= |t.code|)
    && (forall i :: |o.code| <= i < |t.code| && t.code[i].J? ==> t.code[i].lab in m)
    && forall i :: |o.code| <= i < |t.code| ==> t.settled[i] == Settle(t.code, |o.code|, m, i, MAXBFX)
  }

  ghost predicate Started(o: Trace, a: Trace) {
    a.code == o.code && a.start == |o.code| == |o.settled| && a.settled == o.settled
  }

  /** The words of the current function are settled and nothing else changed. */
  ghost predicate Finished(o: Trace, t: Trace, m: map<int, int>) {
    && t.code == o.code && o.start == |o.settled| <= |t.code| == |t.settled| && t.settled[..o.start] == o.settled
    && (forall l :: l in m ==> o.start <= m[l] <= |t.code|)
    && (forall i :: o.start <= i < |t.code| && t.code[i].J? ==> t.code[i].lab in m)
    && (forall i :: o.start <= i < |t.code| ==> t.settled[i] == Settle(t.code, o.start, m, i, MAXBFX))
  }

  lemma FuncSize(p: Prog, fn: Func)
    ensures var offs := Offsets(fn.locals);
            |FCode(p, fn)| == |Prologue(Frame(fn.locals))| + |SpillCode(fn, offs, 0)| + SSize(offs, p.tick, fn.body) + 4
  {
    hide Prologue, SpillCode, SCode, Offsets, Frame;
    SCodeSize(BodyCx(p, fn), fn.body, 1, -1);
  }

  lemma MadeFunc(o: Trace, a: Trace, b: Trace, t: Trace, nf: nat, p: Prog, fn: Func, m: map<int, int>)
    requires Started(o, a) && b.code == a.code + FCode(p, fn) && FPlaced(p, fn, |a.code|, m) && b.start == a.start
             && b.settled == a.settled
    requires WfS(nf, |fn.locals|, fn.body, false, false) && 1 + SLabels(fn.body) <= MAXLAB && Finished(b, t, m)
    ensures FuncMade(o, t, nf, p, fn, m)
  {
    hide FCode, FPlaced, WfS, Settle;
  }

  lemma FuncGot(o: Trace, a: Trace, b: Trace, c: Trace, d: Trace, e: Trace, t: Trace, nf: nat, p: Prog, fn: Func)
    requires o.nlab == 1 && Grew(o, a, Prologue(Frame(fn.locals)), 0, [])
             && Grew(a, b, SpillCode(fn, Offsets(fn.locals), 0), 0, [])
    requires GotStmt(b, c, nf, BodyCx(p, fn), fn.body, -1, []) && Grew(c, d, [I(Movz(0, 0))], 0, [])
    requires Grew(d, e, [], 0, [RET]) && LabelAt(e.labs, RET, |d.code|) && Grew(e, t, Epilogue(), 0, [])
    requires |Offsets(fn.locals)| == |fn.locals|
    ensures t.code == o.code + FCode(p, fn) && FPlaced(p, fn, |o.code|, t.labs) && t.start == o.start
            && t.settled == o.settled
    ensures WfS(nf, |fn.locals|, fn.body, false, false) && t.nlab == 1 + SLabels(fn.body)
  {
    hide Prologue, SpillCode, Epilogue, Offsets, Frame, SCode, SPlaced, WfS, SLabels;
    var cx := BodyCx(p, fn);
    SPlacedMono(cx, fn.body, b.nlab, -1, |b.code|, c.labs, t.labs);
    assert t.code
      == o.code + (Prologue(Frame(fn.locals)) + SpillCode(fn, Offsets(fn.locals), 0) + SCode(cx, fn.body, b.nlab, -1)
      + [I(Movz(0, 0))] + Epilogue());
    assert FCode(p, fn)
      == Prologue(Frame(fn.locals)) + SpillCode(fn, Offsets(fn.locals), 0) + SCode(cx, fn.body, 1, -1)
      + [I(Movz(0, 0))] + Epilogue();
  }

  /** A parsed function: case labels only inside switches, at most eight parameters. */
  predicate NamedF(nf: nat, fn: Func) {
    && |fn.params| <= 8 && (forall k :: 0 <= k < |fn.params| ==> fn.params[k] < |fn.locals|)
    && S.Cases(fn.body) == [] && NamedS(nf, |fn.locals|, fn.body) && Depth(fn.body) <= LOOPDEPTH
  }

  /** Lay the locals out below the frame pointer. */
  method AssignOffsets(tys: seq<Ty>) returns (offs: seq<nat>, frame: nat)
    ensures offs == Offsets(tys) && frame == Frame(tys) && |offs| == |tys|
  {
    hide *;
    OffsetsStart(tys);
    offs := [];
    var off := 0;
    for i := 0 to |tys|
      invariant |offs| == i && off == (if offs == [] then 0 else offs[|offs| - 1])
      invariant Offsets(tys) == offs + OffsetsFrom(tys[i..], off)
    {
      OffsetsNext(tys, i, off);
      off := AlignUp(off + Size(tys[i]), 8);
      offs := offs + [off];
    }
    OffsetsDone(tys, off);
    assert offs + [] == offs;
    frame := AlignUp(off, 16);
  }

  lemma OffsetsStart(tys: seq<Ty>)
    ensures |Offsets(tys)| == |tys| && Offsets(tys) == [] + OffsetsFrom(tys[0..], 0)
    ensures var os := Offsets(tys); Frame(tys) == AlignUp(if os == [] then 0 else os[|os| - 1], 16)
  {
    OffsetsShape(tys, 0);
    assert tys[0..] == tys;
  }

  lemma OffsetsNext(tys: seq<Ty>, i: nat, off: nat)
    requires i < |tys|
    ensures var o := AlignUp(off + Size(tys[i]), 8); OffsetsFrom(tys[i..], off) == [o] + OffsetsFrom(tys[i + 1..], o)
  {
    assert tys[i..][1..] == tys[i + 1..];
  }

  lemma OffsetsDone(tys: seq<Ty>, off: nat)
    ensures OffsetsFrom(tys[|tys|..], off) == []
  {
  }

  // ---------------------------------------------------------------- generated programs

  /** The code of the first n functions. */
  ghost function AllCode(p: Prog, n: nat): seq<Item>
    requires n <= |p.funcs|
  {
    if n == 0 then [] else AllCode(p, n - 1) + FCode(p, p.funcs[n - 1])
  }

  /** The fixup tables hold every branch of each function and every call of the program. */
  ghost predicate FitsTables(p: Prog) {
    && (forall f :: 0 <= f < |p.funcs| ==> |Jumps(FCode(p, p.funcs[f]), 0)| <= MAXBFX)
    && |Entries(AllCode(p, |p.funcs|))| <= MAXCFX
  }

  /** Function fn lies at word `at` with label table m, its branches settled. */
  ghost predicate Lies(code: seq<Item>, words: seq<int>, nf: nat, p: Prog, fn: Func, at: int, m: map<int, int>) {
    && 0 <= at && at + |FCode(p, fn)| <= |code| == |words| && code[at..at + |FCode(p, fn)|] == FCode(p, fn)
    && FPlaced(p, fn, at, m) && WfS(nf, |fn.locals|, fn.body, false, false) && 1 + SLabels(fn.body) <= MAXLAB
    && (forall l :: l in m ==> at <= m[l] <= |code|)
    && (forall i :: at <= i < at + |FCode(p, fn)| && code[i].J? ==> code[i].lab in m)
    && (forall i :: at <= i < at + |FCode(p, fn)| ==> words[i] == Settle(code, at, m, i, MAXBFX))
  }

  lemma LiesNow(o: Trace, t: Trace, nf: nat, p: Prog, fn: Func, m: map<int, int>)
    requires FuncMade(o, t, nf, p, fn, m)
    ensures Lies(t.code, t.settled, nf, p, fn, |o.code|, m)
  {
    hide FCode, FPlaced, WfS, Settle;
  }

  lemma LiesStill(o: Trace, t: Trace, nf: nat, p: Prog, fn: Func, at: int, m: map<int, int>, p': Prog, fn': Func,
      m': map<int, int>)
    requires Lies(o.code, o.settled, nf, p, fn, at, m) && FuncMade(o, t, nf, p', fn', m')
    ensures Lies(t.code, t.settled, nf, p, fn, at, m)
  {
    hide FCode, FPlaced, WfS, Branch, Skeleton, Encode;
    var n := |FCode(p, fn)|;
    assert t.code[at..at + n] == o.code[at..at + n];
    forall i | at <= i < at + n ensures t.settled[i] == Settle(t.code, at, m, i, MAXBFX) && t.code[i] == o.code[i] {
      assert t.settled[..|o.code|][i] == o.settled[i];
      assert t.code[..i] == o.code[..i];
    }
  }

  // ---------------------------------------------------------------- patching calls

  lemma {:induction false} EntryAt(code: seq<Item>, k: nat)
    requires k < |Entries(code)|
    ensures var e := Entries(code)[k];
            0 <= e.at < |code| && code[e.at] == Entry(e.f, 0) && |Entries(code[..e.at])| == k
    decreases |code|
  {
    var n := |code| - 1;
    if k < |Entries(code[..n])| {
      EntryAt(code[..n], k);
      var e := Entries(code)[k];
      assert code[..n][..e.at] == code[..e.at];
    }
  }

  lemma {:induction false} EntryFound(code: seq<Item>, i: nat)
    requires i < |code| && code[i].Entry? && code[i].k == 0
    ensures var k := |Entries(code[..i])|; k < |Entries(code)| && Entries(code)[k].at == i
    decreases |code|
  {
    var n := |code| - 1;
    if i < n {
      EntryFound(code[..n], i);
      assert code[..n][..i] == code[..i];
    }
  }

  /** The call site word i belongs to is among the first n. */
  ghost predicate Called(code: seq<Item>, i: nat, n: int)
    requires i < |code|
  {
    code[i].Entry? && 0 <= i - code[i].k <= |code| && |Entries(code[..i - code[i].k])| < n
  }

  /** The word at i once the first n recorded call sites are patched. */
  ghost function Final(code: seq<Item>, words: seq<int>, base: int, entry: seq<int>, i: nat, n: int): int
    requires i < |code| == |words|
  {
    if Called(code, i, n)
      && code[i].f < |entry| then Encode(Imm(9, ToU(base + 4 * entry[code[i].f]), code[i].k)) else words[i]
  }

  lemma CallSite(code: seq<Item>, n: nat)
    requires n < |Entries(code)| && Grouped(code)
    ensures var e := Entries(code)[n];
            0 <= e.at && e.at + 4 <= |code| && |Entries(code[..e.at])| == n && forall h :: 0 <= h < 4 ==>
              code[e.at + h] == Entry(e.f, h)
  {
    hide Entries;
    EntryAt(code, n);
    var e := Entries(code)[n];
    assert code[e.at].Entry?;
    assert forall h :: 0 <= h < 4 ==> code[e.at - 0 + h] == Entry(e.f, h);
  }

  lemma CalledStep(code: seq<Item>, i: nat, n: nat)
    requires n < |Entries(code)| && i < |code| && Grouped(code)
    ensures var e := Entries(code)[n]; Called(code, i, n + 1) <==> Called(code, i, n) || e.at <= i < e.at + 4
    ensures var e := Entries(code)[n]; e.at <= i < e.at + 4 ==> !Called(code, i, n)
  {
    hide Entries;
    CallSite(code, n);
    var e := Entries(code)[n];
    if e.at <= i < e.at + 4 {
      assert code[e.at + (i - e.at)] == Entry(e.f, i - e.at);
    } else if code[i].Entry? {
      GroupHead(code, i);
      if |Entries(code[..i - code[i].k])| == n { EntryFound(code, i - code[i].k); }
    }
  }

  lemma GroupHead(code: seq<Item>, i: nat)
    requires i < |code| && code[i].Entry? && Grouped(code)
    ensures 0 <= code[i].k < 4 && 0 <= i - code[i].k && code[i - code[i].k] == Entry(code[i].f, 0)
  {
    assert code[i - code[i].k + 0] == Entry(code[i].f, 0);
  }

  lemma FinalStep(code: seq<Item>, words: seq<int>, base: int, entry: seq<int>, n: nat, i: nat)
    requires n < |Entries(code)| && i < |code| == |words| && Grouped(code)
    requires Entries(code)[n].f < |entry|
    ensures var e := Entries(code)[n];
            && 0 <= e.at && e.at + 4 <= |code|
            && Final(code, words, base, entry, i, n + 1)
               == if e.at <= i < e.at + 4 then ImmWords(9, ToU(base + 4 * entry[e.f]))[i - e.at]
                 else Final(code, words, base, entry, i, n)
  {
    hide Encode, Entries, Grouped, Called, Imm;
    CallSite(code, n);
    CalledStep(code, i, n);
    var e := Entries(code)[n];
    if e.at <= i < e.at + 4 { assert code[e.at + (i - e.at)] == Entry(e.f, i - e.at); }
  }

  // ---------------------------------------------------------------- finished programs

  lemma {:induction false} JumpsShift(code: seq<Item>, at: nat, n: nat)
    requires at + n <= |code|
    ensures |Jumps(code[..at + n], at)| == |Jumps(code[at..at + n], 0)|
    decreases n
  {
    if n > 0 {
      JumpsShift(code, at, n - 1);
      assert code[..at + n][..at + n - 1] == code[..at + n - 1];
      assert code[at..at + n][..n - 1] == code[at..at + n - 1];
    }
  }

  /** No branch of a function with few enough of them is left unpatched. */
  lemma AllSettled(code: seq<Item>, at: nat, n: nat, i: nat)
    requires at <= i < at + n <= |code| && code[i].J? && |Jumps(code[at..at + n], 0)| <= MAXBFX
    ensures JumpIndex(code, at, i) < MAXBFX
  {
    hide Jumps;
    JumpsShift(code, at, i - at);
    JumpFound(code[at..at + n], 0, i - at);
    assert code[at..at + n][..i - at] == code[at..i];
  }

  /** The finished buffer: every word is its item's instruction with labels and entries in. */
  lemma WordHeld(im: Image, code: seq<Item>, words: seq<int>, nf: nat, p: Prog, fn: Func, at: int, m: map<int, int>,
      i: nat)
    requires Lies(code, words, nf, p, fn, at, m) && Grouped(code) && AllEncodable(code)
             && |im.m.code| == |code| <= MAXWORDS
    requires |Jumps(FCode(p, fn), 0)| <= MAXBFX && |Entries(code)| <= MAXCFX && at <= i < at + |FCode(p, fn)|
    requires im.m.code[i] == Final(code, words, im.m.base, im.entry, i, MAXCFX)
    requires code[i].Entry? ==> code[i].f < |im.entry|
    ensures Patched(im, m, code[i], i)
  {
    hide Jumps, Entries, FPlaced, WfS, FCode, Final, Encode, Encodable, Branch, Imm, Grouped, Called, Skeleton;
    if code[i].Entry? {
      FinalEntry(code, words, im.m.base, im.entry, i);
      GroupHead(code, i);
      ImmFits(ToU(PcOf(im, im.entry[code[i].f])), code[i].k);
    } else {
      FinalOther(code, words, im.m.base, im.entry, i);
      SettledWord(code, at, |FCode(p, fn)|, m, i);
      if code[i].J? { BranchFits(m, code[i].j, code[i].lab, i); }
    }
  }

  lemma SettledWord(code: seq<Item>, at: nat, n: nat, m: map<int, int>, i: nat)
    requires at <= i < at + n <= |code| && !code[i].Entry? && |Jumps(code[at..at + n], 0)| <= MAXBFX
    ensures Settle(code, at, m, i, MAXBFX) ==
            match code[i]
            case I(x) => Encode(x)
            case J(j, l) => Encode(Branch(m, j, l, i))
            case Entry(_, _) => 0
  {
    hide Jumps, Encode, Branch;
    if code[i].J? { AllSettled(code, at, n, i); }
  }

  lemma FinalOther(code: seq<Item>, words: seq<int>, base: int, entry: seq<int>, i: nat)
    requires i < |code| == |words| && !code[i].Entry?
    ensures Final(code, words, base, entry, i, MAXCFX) == words[i]
  {
  }

  lemma FinalEntry(code: seq<Item>, words: seq<int>, base: int, entry: seq<int>, i: nat)
    requires i < |code| == |words| && code[i].Entry? && code[i].f < |entry| && Grouped(code)
             && |Entries(code)| <= MAXCFX
    ensures Final(code, words, base, entry, i, MAXCFX) == Encode(Imm(9, ToU(base + 4 * entry[code[i].f]), code[i].k))
  {
    hide Entries, Encode, Imm, Grouped;
    GroupHead(code, i);
    EntryFound(code, i - code[i].k);
  }

  lemma BranchFits(m: map<int, int>, j: Jump, lab: int, site: int)
    requires lab in m && 0 <= m[lab] <= MAXWORDS && 0 <= site < MAXWORDS
    ensures Encodable(Branch(m, j, lab, site))
  {
  }

  lemma ImmFits(v: u64, k: int)
    requires 0 <= k < 4
    ensures Encodable(Imm(9, v, k))
  {
  }

  ghost predicate FuncHeld(im: Image, nf: nat, p: Prog, f: nat)
    requires f < |p.funcs| == |im.entry| == |im.tabs|
  {
    && Holding(im, im.tabs[f], im.entry[f], FCode(p, p.funcs[f])) && FPlaced(p, p.funcs[f], im.entry[f], im.tabs[f])
    && WfS(nf, |p.funcs[f].locals|, p.funcs[f].body, false, false)
  }

  /** The whole program lies in the image, every function with its label table. */
  ghost predicate Laid(im: Image, nf: nat, p: Prog) {
    && |im.entry| == |im.tabs| == |p.funcs|
    && forall f :: 0 <= f < |p.funcs| ==> FuncHeld(im, nf, p, f)
  }

  /** Tables with room for everything lose nothing. */
  lemma FewLost(im: Image, nf: nat, p: Prog)
    requires Written(im, nf, p) && FitsTables(p)
    ensures |im.entry| == |im.tabs| == |p.funcs| && NoneLost(im, p)
  {
    hide FCode, FPlaced, WfS, Final, Jumps, Entries, AllCode, Grouped, AllEncodable, Settle, Resolve, Skeleton, Encode;
    var code := AllCode(p, |p.funcs|);
    var words :| WrittenAs(im, nf, p, code, words);
    forall f, i | 0 <= f < |p.funcs| && 0 <= im.entry[f] <= i < im.entry[f] + |FCode(p, p.funcs[f])| <= |code|
      ensures Recorded(code, im.entry[f], i)
    {
      var at := im.entry[f];
      assert Lies(code, words, nf, p, p.funcs[f], at, im.tabs[f]);
      match code[i]
      case I(_) =>
      case J(_, _) => AllSettled(code, at, |FCode(p, p.funcs[f])|, i);
      case Entry(_, k) =>
        GroupHead(code, i);
        EntryFound(code, i - k);
    }
  }

  ghost predicate AllLie(code: seq<Item>, words: seq<int>, nf: nat, p: Prog, entry: seq<int>, tabs: seq<map<int, int>>)
    requires |entry| == |tabs| <= |p.funcs|
  {
    forall f :: 0 <= f < |entry| ==> Lies(code, words, nf, p, p.funcs[f], entry[f], tabs[f])
  }

  ghost predicate EntriesKnown(code: seq<Item>, nf: nat) {
    forall i :: 0 <= i < |code| && code[i].Entry? ==> code[i].f < nf
  }

  // ---------------------------------------------------------------- exactly what is in the buffer

  /** Whether the tables had room for item i of a function that starts at `at`. */
  ghost predicate Recorded(code: seq<Item>, at: nat, i: nat)
    requires i < |code|
  {
    match code[i]
    case I(_) => true
    case J(_, _) => JumpIndex(code, at, i) < MAXBFX
    case Entry(_, k) => 0 <= i - k <= |code| && |Entries(code[..i - k])| < MAXCFX
  }

  /** The generated program, words and all: every word is its item's skeleton, or that with
      its label or entry filled in when the tables had room for it. */
  ghost predicate WrittenAs(im: Image, nf: nat, p: Prog, code: seq<Item>, words: seq<int>) {
    && |im.entry| == |im.tabs| == |p.funcs| == nf && AllLie(code, words, nf, p, im.entry, im.tabs)
       && code == AllCode(p, |p.funcs|)
    && Grouped(code) && AllEncodable(code) && |im.m.code| == |code| == |words| <= MAXWORDS
    && forall i :: 0 <= i < |code| ==> im.m.code[i] == Final(code, words, im.m.base, im.entry, i, MAXCFX)
  }

  ghost predicate Written(im: Image, nf: nat, p: Prog) {
    exists words :: WrittenAs(im, nf, p, AllCode(p, |p.funcs|), words)
  }

  /** A word holds its item's instruction if and only if its fixup was recorded, or it needed
      none: the instruction is the skeleton. */
  lemma WordHeldIff(im: Image, code: seq<Item>, words: seq<int>, nf: nat, p: Prog, f: nat, i: nat)
    requires WrittenAs(im, nf, p, code, words) && f < |p.funcs|
             && im.entry[f] <= i < im.entry[f] + |FCode(p, p.funcs[f])|
    ensures 0 <= im.entry[f] <= i < |code|
    ensures Patched(im, im.tabs[f], code[i], i) <==>
            Recorded(code, im.entry[f], i) || Encode(Resolve(im, im.tabs[f], code[i], i)) == Skeleton(code[i])
    ensures Recorded(code, im.entry[f], i) || im.m.code[i] == Skeleton(code[i])
  {
    hide Jumps, Entries, FPlaced, WfS, FCode, Encode, Encodable, Branch, Imm, Grouped, AllCode, AllEncodable;
    var at, m, fn := im.entry[f], im.tabs[f], p.funcs[f];
    assert Lies(code, words, nf, p, fn, at, m);
    match code[i]
    case I(x) => PlainEncodable(code, i);
    case J(j, l) => BranchFits(m, j, l, i);
    case Entry(g, k) =>
      GroupHead(code, i);
      ImmFits(ToU(if g < |im.entry| then PcOf(im, im.entry[g]) else 0), k);
  }

  lemma PlainEncodable(code: seq<Item>, i: nat)
    requires AllEncodable(code) && i < |code| && code[i].I?
    ensures Encodable(code[i].i)
  {
  }

  /** No fixup that mattered was dropped. */
  ghost predicate NoneLost(im: Image, p: Prog)
    requires |im.entry| == |im.tabs| == |p.funcs|
  {
    var code := AllCode(p, |p.funcs|);
    forall f, i :: 0 <= f < |p.funcs| && 0 <= im.entry[f] <= i < im.entry[f] + |FCode(p, p.funcs[f])| <= |code| ==>
      Recorded(code, im.entry[f], i) || Encode(Resolve(im, im.tabs[f], code[i], i)) == Skeleton(code[i])
  }

  /** The program is laid out as the proofs need it exactly when no fixup that mattered was
      dropped. */
  lemma LaidIff(im: Image, nf: nat, p: Prog)
    requires Written(im, nf, p)
    ensures |im.entry| == |im.tabs| == |p.funcs| && (Laid(im, nf, p) <==> NoneLost(im, p))
  {
    hide FCode, FPlaced, WfS, Final, Jumps, Entries, Patched, AllCode, Grouped, AllEncodable, Settle, Recorded,
      Resolve, Skeleton, Encode;
    var code := AllCode(p, |p.funcs|);
    var words :| WrittenAs(im, nf, p, code, words);
    if NoneLost(im, p) {
      forall f | 0 <= f < |p.funcs| ensures FuncHeld(im, nf, p, f) { HeldNow(im, nf, p, code, words, f); }
    }
    if Laid(im, nf, p) {
      forall f, i | 0 <= f < |p.funcs| && 0 <= im.entry[f] <= i < im.entry[f] + |FCode(p, p.funcs[f])| <= |code|
        ensures Recorded(code, im.entry[f], i) || Encode(Resolve(im, im.tabs[f], code[i], i)) == Skeleton(code[i])
      {
        var at, items := im.entry[f], FCode(p, p.funcs[f]);
        assert FuncHeld(im, nf, p, f);
        assert Lies(code, words, nf, p, p.funcs[f], at, im.tabs[f]);
        assert code[at..at + |items|][i - at] == items[i - at];
        assert Patched(im, im.tabs[f], items[i - at], at + (i - at));
        WordHeldIff(im, code, words, nf, p, f, i);
      }
    }
  }

  lemma HeldNow(im: Image, nf: nat, p: Prog, code: seq<Item>, words: seq<int>, f: nat)
    requires WrittenAs(im, nf, p, code, words) && f < |p.funcs| && NoneLost(im, p)
    ensures FuncHeld(im, nf, p, f)
  {
    hide FCode, FPlaced, WfS, Final, Jumps, Entries, Patched, AllCode, Grouped, AllEncodable, Settle, Recorded,
      Resolve, Skeleton, Encode;
    var items, at := FCode(p, p.funcs[f]), im.entry[f];
    assert Lies(code, words, nf, p, p.funcs[f], at, im.tabs[f]);
    forall i | 0 <= i < |items| ensures Patched(im, im.tabs[f], items[i], at + i) {
      assert code[at..at + |items|][i] == code[at + i];
      WordHeldIff(im, code, words, nf, p, f, at + i);
    }
  }

  lemma AllHeld(im: Image, code: seq<Item>, words: seq<int>, nf: nat, p: Prog)
    requires |im.entry| == |im.tabs| == |p.funcs| == nf && AllLie(code, words, nf, p, im.entry, im.tabs)
    requires Grouped(code) && AllEncodable(code) && EntriesKnown(code, nf)
             && |im.m.code| == |code| == |words| <= MAXWORDS
    requires FitsTables(p) && code == AllCode(p, |p.funcs|)
    requires forall i :: 0 <= i < |code| ==> im.m.code[i] == Final(code, words, im.m.base, im.entry, i, MAXCFX)
    ensures Laid(im, nf, p)
  {
    hide FCode, FPlaced, WfS, Final, Jumps, Entries, Patched, AllCode, Grouped, AllEncodable, Settle;
    forall f | 0 <= f < |p.funcs| ensures FuncHeld(im, nf, p, f) {
      var items, at := FCode(p, p.funcs[f]), im.entry[f];
      assert Lies(code, words, nf, p, p.funcs[f], at, im.tabs[f]);
      forall i | 0 <= i < |items| ensures Patched(im, im.tabs[f], items[i], at + i) {
        assert code[at..at + |items|][i] == code[at + i];
        WordHeld(im, code, words, nf, p, p.funcs[f], at, im.tabs[f], at + i);
      }
    }
  }

  lemma KnownByTable(code: seq<Item>, cfx: seq<Site>, nf: nat)
    requires Grouped(code) && cfx == Clip(Entries(code), MAXCFX) && |Entries(code)| <= MAXCFX
    requires forall i :: 0 <= i < |cfx| ==> cfx[i].f < nf
    ensures EntriesKnown(code, nf)
  {
    hide Entries, Grouped;
    forall i | 0 <= i < |code| && code[i].Entry? ensures code[i].f < nf {
      GroupHead(code, i);
      var h := i - code[i].k;
      EntryFound(code, h);
      EntryAt(code, |Entries(code[..h])|);
    }
  }

  lemma FinalNone(code: seq<Item>, words: seq<int>, base: int, entry: seq<int>)
    requires |code| == |words|
    ensures forall i :: 0 <= i < |code| ==> Final(code, words, base, entry, i, 0) == words[i]
  {
  }

  lemma FinalAll(code: seq<Item>, words: seq<int>, base: int, entry: seq<int>, i: nat)
    requires i < |code| == |words| && Grouped(code)
    ensures Final(code, words, base, entry, i, |Clip(Entries(code), MAXCFX)|)
            == Final(code, words, base, entry, i, MAXCFX)
  {
    hide Entries, Encode, Imm, Grouped;
    if code[i].Entry? {
      GroupHead(code, i);
      EntryFound(code, i - code[i].k);
    }
  }

  lemma LiesMore(o: Trace, t: Trace, nf: nat, p: Prog, entry: seq<int>, tabs: seq<map<int, int>>, m: map<int, int>)
    requires |entry| == |tabs| < |p.funcs| && AllLie(o.code, o.settled, nf, p, entry, tabs)
             && o.code == AllCode(p, |entry|)
    requires FuncMade(o, t, nf, p, p.funcs[|entry|], m)
    ensures AllLie(t.code, t.settled, nf, p, entry + [|o.code|], tabs + [m]) && t.code == AllCode(p, |entry| + 1)
  {
    hide Lies, FCode;
    var f := p.funcs[|entry|];
    assert t.code == o.code + FCode(p, f) by { CodeMade(o, t, nf, p, f, m); }
    forall g | 0 <= g <= |entry|
      ensures Lies(t.code, t.settled, nf, p, p.funcs[g], (entry + [|o.code|])[g], (tabs + [m])[g])
    {
      if g < |entry| {
        LiesStill(o, t, nf, p, p.funcs[g], entry[g], tabs[g], p, f, m);
      } else {
        LiesNow(o, t, nf, p, f, m);
      }
    }
  }

  /** What the generator accepts: well-formed bodies, labels within their table, and code
      within the buffer. */
  ghost predicate Accepted(p: Prog, nf: nat, cap: nat) {
    && |AllCode(p, |p.funcs|)| <= cap
    && forall f :: 0 <= f < |p.funcs| ==>
       WfS(nf, |p.funcs[f].locals|, p.funcs[f].body, false, false) && 1 + SLabels(p.funcs[f].body) <= MAXLAB
  }

  lemma {:induction false} AllCodeGrows(p: Prog, f: nat, n: nat)
    requires f <= n <= |p.funcs|
    ensures |AllCode(p, f)| <= |AllCode(p, n)|
    decreases n - f
  {
    hide FCode;
    if f < n { AllCodeGrows(p, f, n - 1); }
  }

  lemma AllCodeNext(p: Prog, f: nat)
    requires f < |p.funcs|
    ensures |AllCode(p, f + 1)| == |AllCode(p, f)| + |FCode(p, p.funcs[f])|
  {
    hide FCode;
  }

  lemma AcceptedNow(code: seq<Item>, words: seq<int>, nf: nat, p: Prog, entry: seq<int>, tabs: seq<map<int, int>>,
      cap: nat)
    requires |entry| == |tabs| == |p.funcs| && AllLie(code, words, nf, p, entry, tabs)
             && code == AllCode(p, |p.funcs|) && |code| <= cap
    ensures Accepted(p, nf, cap)
  {
    hide FCode, FPlaced, WfS, AllCode, Settle;
    forall f | 0 <= f < |p.funcs|
      ensures WfS(nf, |p.funcs[f].locals|, p.funcs[f].body, false, false) && 1 + SLabels(p.funcs[f].body) <= MAXLAB
    {
      assert Lies(code, words, nf, p, p.funcs[f], entry[f], tabs[f]);
    }
  }

  lemma NoneLie(code: seq<Item>, words: seq<int>, nf: nat, p: Prog)
    ensures AllLie(code, words, nf, p, [], []) && AllCode(p, 0) == []
  {
  }

  lemma EmptyCode()
    ensures Grouped([]) && AllEncodable([]) && Clip(Entries([]), MAXCFX) == []
  {
  }

  lemma FewEntries(p: Prog, code: seq<Item>)
    requires FitsTables(p) && code == AllCode(p, |p.funcs|)
    ensures |Entries(code)| <= MAXCFX
  {
  }

  lemma CodeMade(o: Trace, t: Trace, nf: nat, p: Prog, fn: Func, m: map<int, int>)
    requires FuncMade(o, t, nf, p, fn, m)
    ensures t.code == o.code + FCode(p, fn)
  {
  }

  /** Words and labels asked for, and whether ill-formed input was met. */
  datatype Tally = Tally(want: nat, drawn: nat, ill: bool)

  // ---------------------------------------------------------------- the generator

  class CodeGen {
    const cap: nat                 // in words
    const buf: array<int>          // cap words, and one that only a lost branch touches
    const nf: nat                  // functions of the program
    const tick: Option<int>
    var pos: nat
    var oom: bool
    var failed: bool
    var labOff: seq<int>
    var nlab: nat
    var bfx: Fixes
    var cfx: Sites
    var brk: Stack
    var cont: Stack
    var offs: seq<nat>             // frame offsets of the current function's locals
    ghost var code: seq<Item>
    ghost var start: nat
    ghost var labs: map<int, int>
    ghost var settled: seq<int>
    ghost var tally: Tally         // what was attempted, whether or not it succeeded
    ghost var open: set<int>       // labels handed out and not yet placed

    constructor (cap: nat, nf: nat, tick: Option<int>)
      ensures fresh(buf) && buf.Length == cap + 1 && this.cap == cap && this.nf == nf && this.tick == tick
      ensures |labOff| == MAXLAB && !failed
    {
      this.cap, this.nf, this.tick := cap, nf, tick;
      buf := new int[cap + 1];
      labOff := seq(MAXLAB, _ => 0);
      pos, oom, failed, nlab, bfx, cfx, brk, cont, offs := 0, false, false, 0, [], [], [], [], [];
      code, start, labs, settled, open, tally := [], 0, map[], [], {}, Tally(0, 0, false);
    }

    ghost predicate Bad() reads this`oom, this`failed { oom || failed }

    ghost function Snap(): Trace reads this`code, this`start, this`labs, this`nlab, this`settled {
      Trace(code, start, labs, nlab, settled)
    }

    ghost function Around(): Cx reads this`offs, this`brk, this`cont { Cx(offs, tick, Top(brk), Top(cont)) }

    /** Errors have causes: the buffer was too short, the labels too many, the input ill-formed. */
    ghost predicate Blamed() reads this`oom, this`failed, this`tally {
      (oom ==> tally.want > cap) && (failed ==> tally.ill || tally.drawn > MAXLAB || oom) && (tally.ill ==> failed)
    }

    /** Table shapes and index ranges, which hold even after an error. */
    ghost predicate Shape()
      reads this`pos, this`oom, this`failed, this`labOff, this`nlab, this`bfx, this`cfx, this`brk, this`cont, this`tally
    {
      && buf.Length == cap + 1 && pos <= cap <= MAXWORDS && pos <= tally.want && nlab <= tally.drawn
      && |labOff| == MAXLAB && 1 <= nlab <= MAXLAB && Blamed()
      && (forall i :: 0 <= i < |bfx| ==> 0 <= bfx[i].site <= cap && 0 <= bfx[i].lab < MAXLAB)
      && (forall i :: 0 <= i < |cfx| ==> cfx[i].f < nf)
      && (forall i :: 0 <= i < |brk| ==> 0 <= brk[i] < nlab)
      && (forall i :: 0 <= i < |cont| ==> 0 <= cont[i] < nlab)
    }

    /** The buffer and the tables stand for the trace. */
    ghost predicate Tied()
      requires pos <= buf.Length
      reads this`code, this`start, this`labs, this`nlab, this`settled, this`open, this`pos, this`labOff, this`bfx,
            this`cfx, buf
    {
      start <= |code| == pos && Stands(Snap(), buf[..pos], labOff) && Tabled(Snap(), bfx, cfx) && AllOpen(Snap(), open)
    }

    ghost predicate Valid() reads this, buf { Shape() && (!Bad() ==> Tied()) }

    // -------------------------------------------------------------- emitting words

    method Put(w: int)
      requires Shape()
      modifies this`pos, this`oom, buf, this`tally
      ensures Shape()
      ensures if old(pos) < cap then oom == old(oom) && pos == old(pos) + 1
              && buf[..pos] == old(buf[..pos]) + [w] else oom && pos == old(pos)
      ensures tally == old(tally).(want := old(tally).want + 1)
    {
      tally := tally.(want := tally.want + 1);
      if pos + 1 > cap {
        oom := true;
        return;
      }
      buf[pos] := w;
      pos := pos + 1;
    }

    method PutImm(r: int, v: u64)
      requires Shape()
      modifies this`pos, this`oom, buf, this`tally
      ensures Shape() && (old(oom) ==> oom)
      ensures !oom ==> pos == old(pos) + 4 && buf[..pos] == old(buf[..pos]) + ImmWords(r, v)
      ensures tally == old(tally).(want := old(tally).want + 4)
    {
      hide Encode, Imm;
      Put(Encode(Imm(r, v, 0)));
      Put(Encode(Imm(r, v, 1)));
      Put(Encode(Imm(r, v, 2)));
      Put(Encode(Imm(r, v, 3)));
    }

    method EmitI(i: Instr)
      requires Valid() && Encodable(i)
      modifies this`pos, this`oom, this`code, buf, this`tally
      ensures Valid() && (old(Bad()) ==> Bad())
      ensures !Bad() ==> Grew(old(Snap()), Snap(), [I(i)], 0, [])
      ensures tally == old(tally).(want := old(tally).want + 1)
    {
      hide Encode, Encodable, Stands, Jumps, Entries;
      ghost var was, words := Snap(), buf[..pos];
      Put(Encode(i));
      if !Bad() {
        code := code + [I(i)];
        PlainAppend(was.code, [I(i)], start);
        StandsMore(was, words, labOff, [I(i)], [Encode(i)]);
      }
    }

    /** The four words that load a constant. */
    method EmitLoadImm(r: int, v: u64)
      requires Valid() && 0 <= r < 31
      modifies this`pos, this`oom, this`code, buf, this`tally
      ensures Valid() && (old(Bad()) ==> Bad())
      ensures !Bad() ==> Grew(old(Snap()), Snap(), LoadImm(r, v), 0, [])
      ensures tally == old(tally).(want := old(tally).want + 4)
    {
      hide Stands, Tabled, LoadImm, ImmWords;
      ghost var was, words := Snap(), buf[..pos];
      PutImm(r, v);
      if !Bad() {
        code := code + LoadImm(r, v);
        ImmAppends(was, words, labOff, r, v);
        assert |LoadImm(r, v)| == 4 by { Immediate(r, v); }
      }
    }

    method RecordFix(l: int, j: Jump)
      requires Shape() && 0 <= l < nlab
      modifies this`bfx
      ensures Shape() && bfx == if |old(bfx)| < MAXBFX then old(bfx) + [Fix(pos, l, j)] else old(bfx)
    {
      if |bfx| < MAXBFX { bfx := bfx + [Fix(pos, l, j)]; }
    }

    lemma ShapeParts()
      requires Shape()
      ensures buf.Length == cap + 1 && pos <= cap <= MAXWORDS && |labOff| == MAXLAB && 1 <= nlab <= MAXLAB
    {
    }

    lemma GrewItem(o: Trace, it: Item)
      ensures Grew(o, o.(code := o.code + [it]), [it], 0, [])
    {
    }

    /** Record a fixup, while there is room, and emit the branch with distance 0. */
    method EmitJump(j: Jump, l: int)
      requires Valid() && 0 <= l < nlab
      modifies this`pos, this`oom, this`code, this`bfx, buf, this`tally
      ensures Valid() && (old(Bad()) ==> Bad())
      ensures !Bad() ==> Grew(old(Snap()), Snap(), [J(j, l)], 0, [])
      ensures tally == old(tally).(want := old(tally).want + 1)
    {
      hide Stands, Tabled, Blamed, Grew, Shape;
      ShapeParts();
      ghost var was, words, fixes := Snap(), buf[..pos], bfx;
      GrewItem(was, J(j, l));
      var w := match j
        case JB => 0x14000000
        case JCbz => 0xB4000000
        case JCbnz => 0xB5000000
        case JCond(_) => 0x54000000;
      RecordFix(l, j);
      Put(w);
      ShapeParts();
      if !Bad() {
        code := code + [J(j, l)];
        JumpAppends(was, words, labOff, fixes, cfx, j, l, w);
      }
    }

    /** Record a call site, while there is room, and load 0 for now. */
    method EmitEntry(f: nat)
      requires Valid() && f < nf
      modifies this`pos, this`oom, this`code, this`cfx, buf, this`tally
      ensures Valid() && (old(Bad()) ==> Bad())
      ensures !Bad() ==> Grew(old(Snap()), Snap(), EntryItems(f), 0, [])
      ensures tally == old(tally).(want := old(tally).want + 4)
    {
      hide Stands, Tabled, ImmWords;
      ghost var was, words, sites := Snap(), buf[..pos], cfx;
      if |cfx| < MAXCFX { cfx := cfx + [Site(pos, f)]; }
      PutImm(9, 0);
      if !Bad() {
        code := code + EntryItems(f);
        EntryAppends(was, words, labOff, bfx, sites, f);
      }
    }

    // -------------------------------------------------------------- labels

    method NewLabel() returns (l: int)
      requires Valid()
      modifies this`nlab, this`failed, this`open, this`tally
      ensures Valid() && 0 <= l < nlab && (old(Bad()) ==> Bad()) && nlab >= old(nlab)
      ensures !Bad() ==>
              l == old(Snap()).nlab && l !in old(open) && open == old(open) + {l}
              && Grew(old(Snap()), Snap(), [], 1, [])
      ensures tally == old(tally).(drawn := old(tally).drawn + 1)
    {
      hide Stands, Tabled, AllOpen, Grew;
      if !Bad() && nlab < MAXLAB { LabelDrawn(Snap(), buf[..pos], labOff, bfx, cfx, open); }
      tally := tally.(drawn := tally.drawn + 1);
      if nlab >= MAXLAB {
        failed := true;
        return 0;
      }
      l := nlab;
      nlab := nlab + 1;
      open := open + {l};
    }

    method PlaceLabel(l: int)
      requires Valid() && 0 <= l && (!Bad() ==> l in open)
      modifies this`labOff, this`labs, this`open
      ensures Valid() && (old(Bad()) ==> Bad())
      ensures !Bad() ==>
              Grew(old(Snap()), Snap(), [], 0, [l]) && LabelAt(Snap().labs, l, |old(Snap()).code|)
              && open == old(open) - {l}
    {
      if l < MAXLAB { labOff := labOff[l := pos]; }
      labs := labs[l := pos];
      open := open - {l};
    }

    // -------------------------------------------------------------- expressions

    method GenLoad(ty: Ty)
      requires Valid()
      modifies this`pos, this`oom, this`code, buf, this`tally
      ensures Valid() && (old(Bad()) ==> Bad())
      ensures !Bad() ==> Grew(old(Snap()), Snap(), LoadSeq(ty), 0, [])
      ensures tally == old(tally).(want := old(tally).want + |LoadSeq(ty)|)
    {
      hide Encode, Valid;
      if ty.TArray? { return; }
      if Size(ty) == 1 { EmitI(Ldrb(0, 0)); } else { EmitI(Ldr(0, 0)); }
    }

    method GenStore(ty: Ty)
      requires Valid()
      modifies this`pos, this`oom, this`code, buf, this`tally
      ensures Valid() && (old(Bad()) ==> Bad())
      ensures !Bad() ==> Grew(old(Snap()), Snap(), StoreSeq(ty), 0, [])
      ensures tally == old(tally).(want := old(tally).want + |StoreSeq(ty)|)
    {
      hide Encode, Valid;
      if Size(ty) == 1 { EmitI(Strb(0, 1)); } else { EmitI(Str(0, 1)); }
    }

    method GenOp(op: Op)
      requires Valid()
      modifies this`pos, this`oom, this`code, buf, this`tally
      ensures Valid() && (old(Bad()) ==> Bad())
      ensures !Bad() ==> Grew(old(Snap()), Snap(), OpSeq(op), 0, [])
      ensures tally == old(tally).(want := old(tally).want + |OpSeq(op)|)
    {
      hide Encode, Valid;
      match op
      case Add => EmitI(AddRRR(0, 0, 1));
      case Sub => EmitI(SubRRR(0, 0, 1));
      case Mul => EmitI(Arm.Mul(0, 0, 1));
      case Div => EmitI(Sdiv(0, 0, 1));
      case Mod =>
        EmitI(Sdiv(2, 0, 1));
        EmitI(Msub(0, 2, 1, 0));
      case Eq =>
        EmitI(CmpRR(0, 1));
        EmitI(Cset(0, EQ));
      case Ne =>
        EmitI(CmpRR(0, 1));
        EmitI(Cset(0, NE));
      case Lt =>
        EmitI(CmpRR(0, 1));
        EmitI(Cset(0, LT));
      case Le =>
        EmitI(CmpRR(0, 1));
        EmitI(Cset(0, LE));
    }

    method GenBinary(e: Expr)
      requires e.Bin? && Valid() && Named(nf, |offs|, e)
      modifies this`pos, this`oom, this`failed, this`code, this`bfx, this`cfx, this`nlab, this`labOff, this`labs,
               this`open, buf, this`tally
      ensures Valid() && (old(Bad()) ==> Bad()) && nlab >= old(nlab)
      ensures !Bad() ==> GotExpr(old(Snap()), Snap(), nf, offs, e) && open == old(open)
      ensures tally.want <= old(tally).want + ESize(offs, e)
      ensures tally.drawn <= old(tally).drawn + ELabels(e)
      ensures tally.ill ==> old(tally).ill || !(WfE(nf, |offs|, e))
      decreases e, 0
    {
      hide Valid, Bad, GotExpr, Grew, Snap, ESize, ASize, ELabels, WfE;
      BinSize(nf, offs, e);
      ghost var o := Snap();
      GenExpr(e.r2);
      ghost var a := Snap();
      EmitI(Push);
      ghost var b := Snap();
      GenExpr(e.l);
      ghost var c := Snap();
      EmitI(Pop(1));
      ghost var d := Snap();
      GenOp(e.op);
      if !Bad() { TwoGot(o, a, b, c, d, Snap(), nf, offs, e); }
    }

    method GenAssign(e: Expr)
      requires e.Assign? && Valid() && Named(nf, |offs|, e)
      modifies this`pos, this`oom, this`failed, this`code, this`bfx, this`cfx, this`nlab, this`labOff, this`labs,
               this`open, buf, this`tally
      ensures Valid() && (old(Bad()) ==> Bad()) && nlab >= old(nlab)
      ensures !Bad() ==> GotExpr(old(Snap()), Snap(), nf, offs, e) && open == old(open)
      ensures tally.want <= old(tally).want + ESize(offs, e)
      ensures tally.drawn <= old(tally).drawn + ELabels(e)
      ensures tally.ill ==> old(tally).ill || !(WfE(nf, |offs|, e))
      decreases e, 0
    {
      hide Valid, Bad, GotExpr, GotAddr, Grew, Snap, ESize, ASize, ELabels, WfE;
      AssignSize(nf, offs, e);
      ghost var o := Snap();
      GenAddr(e.lhs);
      ghost var a := Snap();
      EmitI(Push);
      ghost var b := Snap();
      GenExpr(e.rhs);
      ghost var c := Snap();
      EmitI(Pop(1));
      ghost var d := Snap();
      GenStore(TyOf(e.lhs));
      if !Bad() { TwoGot(o, a, b, c, d, Snap(), nf, offs, e); }
    }

    method GenRead(e: Expr)
      requires (e.Var? || e.Member? || e.Deref?) && Valid() && Named(nf, |offs|, e)
      modifies this`pos, this`oom, this`failed, this`code, this`bfx, this`cfx, this`nlab, this`labOff, this`labs,
               this`open, buf, this`tally
      ensures Valid() && (old(Bad()) ==> Bad()) && nlab >= old(nlab)
      ensures !Bad() ==> GotExpr(old(Snap()), Snap(), nf, offs, e) && open == old(open)
      ensures tally.want <= old(tally).want + ESize(offs, e)
      ensures tally.drawn <= old(tally).drawn + ELabels(e)
      ensures tally.ill ==> old(tally).ill || !(WfE(nf, |offs|, e))
      decreases e, 2
    {
      hide Valid, Bad, GotExpr, GotAddr, Grew, Snap, ESize, ASize, ELabels, WfE;
      OneSize(nf, offs, e);
      ghost var o := Snap();
      if e.Deref? { GenExpr(e.p); } else { GenAddr(e); }
      ghost var a := Snap();
      GenLoad(e.ty);
      if !Bad() { OneGot(o, a, Snap(), nf, offs, e); }
    }

    method GenUnary(e: Expr)
      requires (e.Neg? || e.Not?) && Valid() && Named(nf, |offs|, e)
      modifies this`pos, this`oom, this`failed, this`code, this`bfx, this`cfx, this`nlab, this`labOff, this`labs,
               this`open, buf, this`tally
      ensures Valid() && (old(Bad()) ==> Bad()) && nlab >= old(nlab)
      ensures !Bad() ==> GotExpr(old(Snap()), Snap(), nf, offs, e) && open == old(open)
      ensures tally.want <= old(tally).want + ESize(offs, e)
      ensures tally.drawn <= old(tally).drawn + ELabels(e)
      ensures tally.ill ==> old(tally).ill || !(WfE(nf, |offs|, e))
      decreases e, 0
    {
      hide Valid, Bad, GotExpr, GotAddr, Snap, ESize, ASize, ELabels, WfE;
      OneSize(nf, offs, e);
      ghost var o := Snap();
      GenExpr(e.e);
      ghost var a := Snap();
      if e.Neg? {
        EmitI(SubRRR(0, 31, 0));
      } else {
        EmitI(Cmp0(0));
        EmitI(Cset(0, EQ));
      }
      if !Bad() { OneGot(o, a, Snap(), nf, offs, e); }
    }

    method GenFirstBranch(e: Expr, l: int)
      requires (e.And? || e.Or?) && Valid() && 0 <= l < nlab
      modifies this`pos, this`oom, this`code, this`bfx, buf, this`tally
      ensures Valid() && (old(Bad()) ==> Bad())
      ensures !Bad() ==> Grew(old(Snap()), Snap(), FirstBranch(e, l), 0, [])
      ensures tally == old(tally).(want := old(tally).want + (if e.And? then 1 else 2))
    {
      hide Valid, Bad, Encode;
      if e.Or? { EmitI(Cmp0(0)); }
      EmitJump(if e.And? then JCbz else JCbnz, l);
    }

    /** The common end of && and ||: a second branch, the two values, the two labels. */
    method GenLogicTail(e: Expr, l: int, l2: int)
      requires (e.And? || e.Or?) && Valid() && 0 <= l < nlab && 0 <= l2 < nlab
      requires !Bad() ==> l in open && l2 == l + 1 && l2 in open
      modifies this`pos, this`oom, this`failed, this`code, this`bfx, this`cfx, this`nlab, this`labOff, this`labs,
               this`open, buf, this`tally
      ensures Valid() && (old(Bad()) ==> Bad()) && nlab >= old(nlab)
      ensures !Bad() ==> Grew(old(Snap()), Snap(), LogicTail(e, l), 0, [l, l + 1])
      ensures !Bad() ==>
              LabelAt(Snap().labs, l, |old(Snap()).code| + 3) && LabelAt(Snap().labs, l + 1, |old(Snap()).code| + 4)
              && open == old(open) - {l, l + 1}
      ensures tally == old(tally).(want := old(tally).want + 4)
    {
      hide Valid, Bad, Encode;
      EmitJump(if e.And? then JCbz else JCbnz, l);
      EmitI(Movz(0, if e.And? then 1 else 0));
      EmitJump(JB, l2);
      GenOtherValue(if e.And? then 0 else 1, l, l2);
    }

    method GenOtherValue(v: int, l: int, l2: int)
      requires 0 <= v <= 1 && Valid() && 0 <= l < nlab && 0 <= l2 < nlab
      requires !Bad() ==> l in open && l2 == l + 1 && l2 in open
      modifies this`pos, this`oom, this`failed, this`code, this`bfx, this`cfx, this`nlab, this`labOff, this`labs,
               this`open, buf, this`tally
      ensures Valid() && (old(Bad()) ==> Bad()) && nlab >= old(nlab)
      ensures !Bad() ==> Grew(old(Snap()), Snap(), [I(Movz(0, v))], 0, [l, l + 1])
      ensures !Bad() ==>
              LabelAt(labs, l, |old(code)|) && LabelAt(labs, l + 1, |old(code)| + 1) && open == old(open) - {l, l + 1}
      ensures tally == old(tally).(want := old(tally).want + 1)
    {
      hide Valid, Bad, Encode;
      PlaceLabel(l);
      EmitI(Movz(0, v));
      PlaceLabel(l2);
    }

    method GenLogic(e: Expr)
      requires (e.And? || e.Or?) && Valid() && Named(nf, |offs|, e)
      modifies this`pos, this`oom, this`failed, this`code, this`bfx, this`cfx, this`nlab, this`labOff, this`labs,
               this`open, buf, this`tally
      ensures Valid() && (old(Bad()) ==> Bad()) && nlab >= old(nlab)
      ensures !Bad() ==> GotExpr(old(Snap()), Snap(), nf, offs, e) && open == old(open)
      ensures tally.want <= old(tally).want + ESize(offs, e)
      ensures tally.drawn <= old(tally).drawn + ELabels(e)
      ensures tally.ill ==> old(tally).ill || !(WfE(nf, |offs|, e))
      decreases e, 0
    {
      hide *;
      AndOrSize(nf, offs, e);
      LogicInput(nf, |offs|, e);
      ghost var o := Snap();
      var l, l2 := TwoLabels();
      if !Bad() { TwoGone(old(open), l, l2); }
      ghost var o2 := Snap();
      GenExpr(e.l);
      ghost var a := Snap();
      GenFirstBranch(e, l);
      ghost var b := Snap();
      GenExpr(e.r2);
      ghost var c := Snap();
      GenLogicTail(e, l, l2);
      if !Bad() { LogicGot(o, o2, a, b, c, Snap(), nf, offs, e); }
    }

    method GenPops(n: nat)
      requires Valid() && n <= 8
      modifies this`pos, this`oom, this`code, buf, this`tally
      ensures Valid() && (old(Bad()) ==> Bad())
      ensures !Bad() ==> Grew(old(Snap()), Snap(), PopSeq(n), 0, [])
      ensures tally == old(tally).(want := old(tally).want + n)
    {
      hide *;
      ghost var o, done := Snap(), [];
      GrewNone(o);
      for i := n downto 0
        invariant Valid() && (old(Bad()) ==> Bad())
        invariant tally == old(tally).(want := old(tally).want + n - i)
        invariant PopSeq(n) == done + PopSeq(i)
        invariant !Bad() ==> Grew(o, Snap(), done, 0, [])
      {
        ghost var a := Snap();
        PopNext(i);
        EmitI(Pop(i));
        if !Bad() { GrewOn(o, a, Snap(), done, [I(Pop(i))]); }
        done := done + [I(Pop(i))];
      }
      PopLast();
      assert done + [] == done;
    }

    method GenCall(e: Expr)
      requires e.Call? && Valid() && Named(nf, |offs|, e)
      modifies this`pos, this`oom, this`failed, this`code, this`bfx, this`cfx, this`nlab, this`labOff, this`labs,
               this`open, buf, this`tally
      ensures Valid() && (old(Bad()) ==> Bad()) && nlab >= old(nlab)
      ensures !Bad() ==> GotExpr(old(Snap()), Snap(), nf, offs, e) && open == old(open)
      ensures tally.want <= old(tally).want + ESize(offs, e)
      ensures tally.drawn <= old(tally).drawn + ELabels(e)
      ensures tally.ill ==> old(tally).ill || !(WfE(nf, |offs|, e))
      decreases e, 1
    {
      hide *;
      CallSize(nf, offs, e);
      CallInput(nf, |offs|, e);
      ghost var o := Snap();
      var argc := Count(e.args);
      if argc > 8 { Fail(); argc := 8; }
      GenArgs(e.args, argc);
      ghost var a := Snap();
      GenPops(argc);
      ghost var b := Snap();
      GenTarget(e.f);
      if !Bad() { CallGot(o, a, b, Snap(), nf, offs, e); }
    }

    /** The address of the callee and the branch: a compiled function's is patched in later,
        a name that resolves to nothing is an error. */
    method GenTarget(f: Callee)
      requires Valid() && (f.User? ==> f.i < nf)
      modifies this`pos, this`oom, this`failed, this`code, this`cfx, buf, this`tally
      ensures Valid() && (old(Bad()) ==> Bad())
      ensures !Bad() ==> Grew(old(Snap()), Snap(), CallSeq(f), 0, []) && (f.Builtin? ==> f.addr != 0)
      ensures tally.want <= old(tally).want + 5 && tally.drawn == old(tally).drawn
      ensures tally.ill ==> old(tally).ill || (f.Builtin? && f.addr == 0)
    {
      hide *;
      ghost var b := Snap();
      CallRegister();
      match f
      case User(i) =>
        EmitEntry(i);
        ghost var b1 := Snap();
        EmitI(Blr(9));
        if !Bad() { BranchLinkGot(b, b1, Snap(), f, EntryItems(i)); }
      case Builtin(adr) =>
        if adr == 0 { Fail(); return; }
        EmitLoadImm(9, ToU(adr));
        ghost var b1 := Snap();
        EmitI(Blr(9));
        if !Bad() { BranchLinkGot(b, b1, Snap(), f, LoadImm(9, ToU(adr))); }
    }

    method Fail()
      requires Valid()
      modifies this`failed, this`tally
      ensures Valid() && Bad()
      ensures tally == old(tally).(ill := true)
    {
      tally := tally.(ill := true);
      failed := true;
    }

    lemma StillFailed()
      requires failed
      ensures Bad()
    {
    }

    /** Evaluate and push the first n arguments, left to right. */
    method GenArgs(args: Exprs, n: nat)
      requires Valid() && NamedArgs(nf, |offs|, args) && n <= Count(args)
      requires !Bad() ==> n == Count(args)
      modifies this`pos, this`oom, this`failed, this`code, this`bfx, this`cfx, this`nlab, this`labOff, this`labs,
               this`open, buf, this`tally
      ensures Valid() && (old(Bad()) ==> Bad()) && nlab >= old(nlab)
      ensures !Bad() ==> ArgsGoing(old(Snap()), Snap(), nf, offs, args, ENil) && open == old(open)
      ensures tally.want <= old(tally).want + ArgsSize(offs, args)
      ensures tally.drawn <= old(tally).drawn + ArgLabels(args)
      ensures tally.ill ==> old(tally).ill || !(WfArgs(nf, |offs|, args))
      decreases args, 0
    {
      hide Valid, Bad, Grew, GotExpr, ArgsGoing, ArgsSize, ArgLabels, WfArgs, ESize, ELabels, WfE;
      ghost var o := Snap();
      var rest := args;
      ArgsStart(o, nf, offs, args);
      for i := 0 to n
        invariant Valid() && (old(Bad()) ==> Bad()) && nlab >= old(nlab) && offs == old(offs)
        invariant NamedArgs(nf, |offs|, rest) && Count(rest) == Count(args) - i
        invariant rest == args || (args decreases to rest)
        invariant tally.want + ArgsSize(offs, rest) <= old(tally).want + ArgsSize(offs, args)
        invariant tally.drawn + ArgLabels(rest) <= old(tally).drawn + ArgLabels(args)
        invariant (tally.ill ==> old(tally).ill || !WfArgs(nf, |offs|, args))
                  && (WfArgs(nf, |offs|, args) ==> WfArgs(nf, |offs|, rest))
        invariant !Bad() ==> ArgsGoing(o, Snap(), nf, offs, args, rest) && open == old(open)
      {
        ghost var a := Snap();
        ArgSize(nf, offs, rest);
        GenExpr(rest.hd);
        ghost var b := Snap();
        EmitI(Push);
        if !Bad() { ArgsStep(o, a, b, Snap(), nf, offs, args, rest); }
        rest := rest.tl;
      }
    }

    method GenExpr(e: Expr)
      requires Valid() && Named(nf, |offs|, e)
      modifies this`pos, this`oom, this`failed, this`code, this`bfx, this`cfx, this`nlab, this`labOff, this`labs,
               this`open, buf, this`tally
      ensures Valid() && (old(Bad()) ==> Bad()) && nlab >= old(nlab)
      ensures !Bad() ==> GotExpr(old(Snap()), Snap(), nf, offs, e) && open == old(open)
      ensures tally.want <= old(tally).want + ESize(offs, e)
      ensures tally.drawn <= old(tally).drawn + ELabels(e)
      ensures tally.ill ==> old(tally).ill || !(WfE(nf, |offs|, e))
      decreases e, 3
    {
      hide Valid, Bad;
      if failed { StillFailed(); return; }
      match e
      case Num(v) => EmitLoadImm(0, ToU(v));
      case Text(a) => EmitLoadImm(0, ToU(a));
      case Var(_, _) => GenRead(e);
      case Member(_, _, _) => GenRead(e);
      case Deref(_, _) => GenRead(e);
      case Assign(_, _) => GenAssign(e);
      case AddrOf(x) => GenAddr(x);
      case Neg(_) => GenUnary(e);
      case Not(_) => GenUnary(e);
      case And(_, _) => GenLogic(e);
      case Or(_, _) => GenLogic(e);
      case Call(_, _) => GenCall(e);
      case Bin(_, _, _) => GenBinary(e);
    }

    method GenAddr(e: Expr)
      requires Valid() && Named(nf, |offs|, e)
      modifies this`pos, this`oom, this`failed, this`code, this`bfx, this`cfx, this`nlab, this`labOff, this`labs,
               this`open, buf, this`tally
      ensures Valid() && (old(Bad()) ==> Bad()) && nlab >= old(nlab)
      ensures !Bad() ==> GotAddr(old(Snap()), Snap(), nf, offs, e) && open == old(open)
      ensures tally.want <= old(tally).want + ASize(offs, e)
      ensures tally.drawn <= old(tally).drawn + ELabels(e)
      ensures tally.ill ==> old(tally).ill || !(WfE(nf, |offs|, e) && Lvalue(e))
      decreases e, 1
    {
      hide Valid, Bad, GotExpr, LoadImm;
      match e
      case Var(Global(a), _) =>
        Immediate(0, ToU(a));
        EmitLoadImm(0, ToU(a));
      case Var(Local(i), _) =>
        GenLocal(i);
      case Deref(p, _) =>
        ghost var o := Snap();
        GenExpr(p);
        if !Bad() { DerefGot(o, Snap(), nf, offs, e); }
      case Text(a) =>
        Immediate(0, ToU(a));
        EmitLoadImm(0, ToU(a));
      case Member(b, off, _) =>
        GenMember(e);
      case _ => Fail();
    }

    /** The address of a local, in one or five words. */
    method GenLocal(i: nat)
      requires Valid() && i < |offs|
      modifies this`pos, this`oom, this`code, buf, this`tally
      ensures Valid() && (old(Bad()) ==> Bad())
      ensures !Bad() ==> Grew(old(Snap()), Snap(), LocalCode(offs, i), 0, [])
      ensures tally == old(tally).(want := old(tally).want + |LocalCode(offs, i)|)
    {
      hide Valid, Bad, LoadImm;
      if offs[i] <= 0xFFF {
        EmitI(SubImm(0, 29, offs[i]));
      } else {
        Immediate(9, ToU(offs[i]));
        EmitLoadImm(9, ToU(offs[i]));
        EmitI(SubRRR(0, 29, 9));
      }
    }

    method GenMember(e: Expr)
      requires e.Member? && Valid() && Named(nf, |offs|, e)
      modifies this`pos, this`oom, this`failed, this`code, this`bfx, this`cfx, this`nlab, this`labOff, this`labs,
               this`open, buf, this`tally
      ensures Valid() && (old(Bad()) ==> Bad()) && nlab >= old(nlab)
      ensures !Bad() ==> GotAddr(old(Snap()), Snap(), nf, offs, e) && open == old(open)
      ensures tally.want <= old(tally).want + ASize(offs, e)
      ensures tally.drawn <= old(tally).drawn + ELabels(e)
      ensures tally.ill ==> old(tally).ill || !(WfE(nf, |offs|, e) && Lvalue(e))
      decreases e, 0
    {
      hide *;
      MemberSize(nf, offs, e);
      MemberInput(nf, |offs|, e);
      ghost var o := Snap();
      GenAddr(e.b);
      ghost var a := Snap();
      if e.off != 0 {
        EmitI(AddImm(0, 0, e.off % 0x1000));
      } else if !Bad() {
        GrewNone(a);
      }
      if !Bad() { MemberGot(o, a, Snap(), nf, offs, e); }
    }


    // -------------------------------------------------------------- statements

    ghost predicate StmtInput(st: Stmt, cl: seq<int>) reads this`offs, this`brk, this`cont {
      && NamedS(nf, |offs|, st) && |cl| == |S.Cases(st)| && (forall k :: 0 <= k < |cl| ==> 0 <= cl[k])
      && |brk| + Depth(st) <= LOOPDEPTH && |cont| + Depth(st) <= LOOPDEPTH
    }

    lemma AroundParts()
      ensures Around().offs == offs && Around().tick == tick
    {
    }

    lemma CaseInput(st: Stmt, cl: seq<int>)
      requires st.Case? && StmtInput(st, cl)
      ensures |cl| > 0 && 0 <= cl[0] && StmtInput(st.s, cl[1..])
    {
    }

    lemma IfInput(st: Stmt, cl: seq<int>)
      requires st.If? && StmtInput(st, cl)
      ensures |S.Cases(st.t)| <= |cl| && Named(nf, |offs|, st.c)
      ensures StmtInput(st.t, cl[..|S.Cases(st.t)|]) && StmtInput(st.f, cl[|S.Cases(st.t)|..])
    {
    }

    method TwoLabels() returns (l: int, l2: int)
      requires Valid()
      modifies this`nlab, this`failed, this`open, this`tally
      ensures Valid() && 0 <= l < nlab && 0 <= l2 < nlab && (old(Bad()) ==> Bad()) && nlab >= old(nlab)
      ensures !Bad() ==>
              l == old(Snap()).nlab && l2 == l + 1 && l !in old(open) && l2 !in old(open) && open == old(open) + {l, l2}
      ensures !Bad() ==> Grew(old(Snap()), Snap(), [], 2, [])
      ensures tally == old(tally).(drawn := old(tally).drawn + 2)
    {
      hide Valid, Bad;
      l := NewLabel();
      l2 := NewLabel();
    }

    method GenTest(c: Expr, exit: int)
      requires Valid() && Named(nf, |offs|, c) && 0 <= exit < nlab
      modifies this`pos, this`oom, this`failed, this`code, this`bfx, this`cfx, this`nlab, this`labOff, this`labs,
               this`open, buf, this`tally
      ensures Valid() && (old(Bad()) ==> Bad()) && nlab >= old(nlab)
      ensures !Bad() ==> GotTest(old(Snap()), Snap(), nf, offs, c, exit) && open == old(open)
      ensures tally.want <= old(tally).want + ESize(offs, c) + 1
      ensures tally.drawn <= old(tally).drawn + ELabels(c)
      ensures tally.ill ==> old(tally).ill || !(WfE(nf, |offs|, c))
      decreases c, 4
    {
      hide *;
      ghost var o := Snap();
      GenExpr(c);
      ghost var a := Snap();
      EmitJump(JCbz, exit);
      if !Bad() { TestGot(o, a, Snap(), nf, offs, c, exit); }
    }

    method GenIf(st: Stmt, cl: seq<int>, ghost first: int)
      requires st.If? && Valid() && StmtInput(st, cl) && (!Bad() ==> Fresh(open, cl, first))
      modifies this`pos, this`oom, this`failed, this`code, this`bfx, this`cfx, this`nlab, this`labOff, this`labs,
               this`open, this`brk, this`cont, buf, this`tally
      ensures Valid() && (old(Bad()) ==> Bad()) && nlab >= old(nlab) && brk == old(brk) && cont == old(cont)
              && Around() == old(Around())
      ensures !Bad() ==>
              GotStmt(old(Snap()), Snap(), nf, old(Around()), st, first, cl) && open == old(open) - Labels(cl)
      ensures tally.want <= old(tally).want + SSize(offs, tick, st)
      ensures tally.drawn <= old(tally).drawn + SLabels(st)
      ensures tally.ill ==> old(tally).ill || !(WfS(nf, |offs|, st, brk != [], cont != []))
      decreases st, 1
    {
      hide *;
      AroundParts();
      ghost var o := Snap();
      IfInput(st, cl);
      IfSize(nf, offs, tick, st, brk != [], cont != []);
      var n := |S.Cases(st.t)|;
      if !Bad() { FreshSplit(open, cl, first, n); }
      var l, l2 := TwoLabels();
      if !Bad() { TwoMore(old(open), l, l2, Labels(cl[..n]), Labels(cl[n..])); }
      ghost var o2 := Snap();
      GenTest(st.c, l);
      ghost var b := Snap();
      if !Bad() { FreshMore(old(open), open, cl[..n], first); }
      GenStmt(st.t, cl[..n], first);
      ghost var c := Snap();
      if !Bad() { FreshMore(old(open) - Labels(cl[..n]), open, cl[n..], first - n); }
      ghost var d, e := GenElse(st, cl[n..], first - n, l, l2);
      if !Bad() { IfGot(o, o2, b, c, d, e, Snap(), nf, Around(), st, first, cl); }
    }

    /** The branch over the else part, the else part, and both labels. */
    method GenElse(st: Stmt, cl: seq<int>, ghost first: int, l: int, l2: int) returns (ghost d: Trace, ghost e: Trace)
      requires st.If? && Valid() && StmtInput(st.f, cl) && (!Bad() ==> Fresh(open, cl, first))
      requires 0 <= l < nlab && 0 <= l2 < nlab
      requires !Bad() ==> {l, l2} <= open && l != l2 && l !in Labels(cl) && l2 !in Labels(cl)
      modifies this`pos, this`oom, this`failed, this`code, this`bfx, this`cfx, this`nlab, this`labOff, this`labs,
               this`open, this`brk, this`cont, buf, this`tally
      ensures Valid() && (old(Bad()) ==> Bad()) && nlab >= old(nlab) && brk == old(brk) && cont == old(cont)
              && Around() == old(Around())
      ensures !Bad() ==> open == old(open) - Labels(cl) - {l, l2} && Grew(old(Snap()), d, [J(JB, l2)], 0, [l])
      ensures !Bad() ==> LabelAt(d.labs, l, |old(Snap()).code| + 1) && GotStmt(d, e, nf, Around(), st.f, first, cl)
      ensures !Bad() ==> Grew(e, Snap(), [], 0, [l2]) && LabelAt(Snap().labs, l2, |e.code|)
      ensures tally.want <= old(tally).want + 1 + SSize(offs, tick, st.f)
      ensures tally.drawn <= old(tally).drawn + SLabels(st.f)
      ensures tally.ill ==> old(tally).ill || !(WfS(nf, |offs|, st.f, brk != [], cont != []))
      decreases st, 0
    {
      hide *;
      ghost var o := Snap();
      EmitJump(JB, l2);
      ghost var o1 := Snap();
      if !Bad() { LabelsSplit(open, cl, l, l2); }
      PlaceLabel(l);
      d := Snap();
      if !Bad() {
        GrewJump(o, o1, d, l, l2);
        FreshLess(old(open), cl, first, l);
      }
      GenStmt(st.f, cl, first);
      e := Snap();
      PlaceLabel(l2);
    }

    /** The guard, the branch back, and the label of the end. */
    method GenBackEdge(head: int, exit: int)
      requires Valid() && 0 <= head < nlab && 0 <= exit < nlab && (!Bad() ==> exit in open)
      modifies this`pos, this`oom, this`code, this`bfx, this`labOff, this`labs, this`open, buf, this`tally
      ensures Valid() && (old(Bad()) ==> Bad())
      ensures !Bad() ==> open == old(open) - {exit} && LabelAt(Snap().labs, exit, |Snap().code|)
      ensures !Bad() ==> Grew(old(Snap()), Snap(), TickCode(tick, exit) + [J(JB, head)], 0, [exit])
      ensures tally == old(tally).(want := old(tally).want + TSize(tick) + 1)
    {
      hide Valid, Bad, TickCode;
      GenTick(exit);
      EmitJump(JB, head);
      PlaceLabel(exit);
    }

    /** Call the guard, when there is one, and leave the loop when it answers 0. */
    method GenTick(exit: int)
      requires Valid() && 0 <= exit < nlab
      modifies this`pos, this`oom, this`code, this`bfx, buf, this`tally
      ensures Valid() && (old(Bad()) ==> Bad())
      ensures !Bad() ==> Grew(old(Snap()), Snap(), TickCode(tick, exit), 0, [])
      ensures tally == old(tally).(want := old(tally).want + TSize(tick))
    {
      hide Valid, Bad, LoadImm;
      match tick
      case None =>
      case Some(a) =>
        EmitLoadImm(9, ToU(a));
        EmitI(Blr(9));
        EmitJump(JCbz, exit);
    }

    /** A loop body: `break` and `continue` go to the labels pushed around it. */
    method GenBody(st: Stmt, cl: seq<int>, ghost first: int, b: int, c: int)
      requires Valid() && NamedS(nf, |offs|, st) && |cl| == |S.Cases(st)| && (forall k :: 0 <= k < |cl| ==> 0 <= cl[k])
      requires |brk| + 1 + Depth(st) <= LOOPDEPTH && |cont| + 1 + Depth(st) <= LOOPDEPTH && 0 <= b < nlab
               && 0 <= c < nlab
      requires !Bad() ==> Fresh(open, cl, first)
      modifies this`pos, this`oom, this`failed, this`code, this`bfx, this`cfx, this`nlab, this`labOff, this`labs,
               this`open, this`brk, this`cont, buf, this`tally
      ensures Valid() && (old(Bad()) ==> Bad()) && nlab >= old(nlab) && brk == old(brk) && cont == old(cont)
              && Around() == old(Around())
      ensures !Bad() ==> GotStmt(old(Snap()), Snap(), nf, old(Around()).(brk := b, cont := c), st, first, cl)
      ensures !Bad() ==> open == old(open) - Labels(cl)
      ensures tally.want <= old(tally).want + SSize(offs, tick, st)
      ensures tally.drawn <= old(tally).drawn + SLabels(st)
      ensures tally.ill ==> old(tally).ill || !(WfS(nf, |offs|, st, true, true))
      decreases st, 3
    {
      hide *;
      DepthBound(st);
      ghost var bs, cs := brk, cont;
      Enter(b, c);
      BodyStmt(st, cl);
      GenStmt(st, cl, first);
      Leave(bs, cs, b, c);
    }

    /** Push the targets of `break` and `continue`. */
    method Enter(b: int, c: int)
      requires Valid() && |brk| < LOOPDEPTH && |cont| < LOOPDEPTH && 0 <= b < nlab && 0 <= c < nlab
      modifies this`brk, this`cont
      ensures Valid() && brk == old(brk) + [b] && cont == old(cont) + [c] && brk != [] && cont != []
      ensures Around() == old(Around()).(brk := b, cont := c)
    {
      hide Tied, Blamed;
      brk, cont := brk + [b], cont + [c];
    }

    /** Pop them. */
    method Leave(ghost bs: Stack, ghost cs: Stack, ghost b: int, ghost c: int)
      requires Valid() && brk == bs + [b] && cont == cs + [c]
      modifies this`brk, this`cont
      ensures Valid() && brk == bs && cont == cs && Around() == Cx(offs, tick, Top(bs), Top(cs))
    {
      hide Tied, Blamed;
      brk, cont := brk[..|brk| - 1], cont[..|cont| - 1];
    }

    lemma DepthBound(st: Stmt)
      requires |brk| + 1 + Depth(st) <= LOOPDEPTH && |cont| + Depth(st) <= LOOPDEPTH
      ensures |brk| < LOOPDEPTH && (|cont| + 1 + Depth(st) <= LOOPDEPTH ==> |cont| < LOOPDEPTH)
      ensures Around() == Cx(offs, tick, Top(brk), Top(cont))
    {
    }

    lemma BodyStmt(st: Stmt, cl: seq<int>)
      requires NamedS(nf, |offs|, st) && |cl| == |S.Cases(st)| && (forall k :: 0 <= k < |cl| ==> 0 <= cl[k])
      requires |brk| + Depth(st) <= LOOPDEPTH && |cont| + Depth(st) <= LOOPDEPTH
      ensures StmtInput(st, cl)
    {
    }

    lemma LoopInput(st: Stmt, cl: seq<int>)
      requires (st.While? || st.For?) && StmtInput(st, cl)
      ensures NamedS(nf, |offs|, st.body) && |cl| == |S.Cases(st.body)| && (forall k :: 0 <= k < |cl| ==> 0 <= cl[k])
      ensures |brk| + 1 + Depth(st.body) <= LOOPDEPTH && |cont| + 1 + Depth(st.body) <= LOOPDEPTH
      ensures st.While? ==> Named(nf, |offs|, st.c)
      ensures st.For? ==> NamedOpt(nf, |offs|, st.init) && NamedOpt(nf, |offs|, st.cond) && NamedOpt(nf, |offs|, st.inc)
    {
    }

    method GenWhile(st: Stmt, cl: seq<int>, ghost first: int)
      requires st.While? && Valid() && StmtInput(st, cl) && (!Bad() ==> Fresh(open, cl, first))
      modifies this`pos, this`oom, this`failed, this`code, this`bfx, this`cfx, this`nlab, this`labOff, this`labs,
               this`open, this`brk, this`cont, buf, this`tally
      ensures Valid() && (old(Bad()) ==> Bad()) && nlab >= old(nlab) && brk == old(brk) && cont == old(cont)
              && Around() == old(Around())
      ensures !Bad() ==>
              GotStmt(old(Snap()), Snap(), nf, old(Around()), st, first, cl) && open == old(open) - Labels(cl)
      ensures tally.want <= old(tally).want + SSize(offs, tick, st)
      ensures tally.drawn <= old(tally).drawn + SLabels(st)
      ensures tally.ill ==> old(tally).ill || !(WfS(nf, |offs|, st, brk != [], cont != []))
      decreases st, 1
    {
      hide *;
      AroundParts();
      ghost var o := Snap();
      LoopInput(st, cl);
      WhileSize(nf, offs, tick, st, brk != [], cont != []);
      var l, l2 := TwoLabels();
      if !Bad() { FreshUsed(old(open), cl, first); TwoMore(old(open), l, l2, {}, Labels(cl)); }
      ghost var o2 := Snap();
      PlaceLabel(l);
      ghost var p := Snap();
      GenTest(st.c, l2);
      ghost var b := Snap();
      if !Bad() { FreshMore(old(open), open, cl, first); }
      GenBody(st.body, cl, first, l2, l);
      ghost var c := Snap();
      GenBackEdge(l, l2);
      if !Bad() { WhileGot(o, o2, p, b, c, Snap(), nf, Around(), st, first, cl); }
    }

    method GenOpt(e: Option<Expr>)
      requires Valid() && NamedOpt(nf, |offs|, e)
      modifies this`pos, this`oom, this`failed, this`code, this`bfx, this`cfx, this`nlab, this`labOff, this`labs,
               this`open, buf, this`tally
      ensures Valid() && (old(Bad()) ==> Bad()) && nlab >= old(nlab)
      ensures !Bad() ==> GotOpt(old(Snap()), Snap(), nf, offs, e) && open == old(open)
      ensures tally.want <= old(tally).want + OptSize(offs, e)
      ensures tally.drawn <= old(tally).drawn + OptLabels(e)
      ensures tally.ill ==> old(tally).ill || !(WfOpt(nf, |offs|, e))
      decreases e, 3
    {
      hide Valid, Bad, GotOpt, GotExpr;
      ghost var o := Snap();
      match e {
        case None =>
        case Some(x) => GenExpr(x);
      }
      if !Bad() { OptGot(o, Snap(), nf, offs, e); }
    }

    method GenOptTest(c: Option<Expr>, exit: int)
      requires Valid() && NamedOpt(nf, |offs|, c) && 0 <= exit < nlab
      modifies this`pos, this`oom, this`failed, this`code, this`bfx, this`cfx, this`nlab, this`labOff, this`labs,
               this`open, buf, this`tally
      ensures Valid() && (old(Bad()) ==> Bad()) && nlab >= old(nlab)
      ensures !Bad() ==> GotOptTest(old(Snap()), Snap(), nf, offs, c, exit) && open == old(open)
      ensures tally.want <= old(tally).want + OptSize(offs, c) + (if c.Some? then 1 else 0)
      ensures tally.drawn <= old(tally).drawn + OptLabels(c)
      ensures tally.ill ==> old(tally).ill || !(WfOpt(nf, |offs|, c))
      decreases c, 4
    {
      hide Valid, Bad, GotOptTest, GotTest;
      ghost var o := Snap();
      match c {
        case None =>
        case Some(x) => GenTest(x, exit);
      }
      if !Bad() { OptTestGot(o, Snap(), nf, offs, c, exit); }
    }

    /** Where `continue` goes: the increment, the guard, and back to the test. */
    method GenNext(inc: Option<Expr>, l: int, l1: int, l2: int) returns (ghost q: Trace, ghost i: Trace)
      requires Valid() && NamedOpt(nf, |offs|, inc) && 0 <= l < nlab && 0 <= l1 < nlab && 0 <= l2 < nlab
      requires !Bad() ==> l1 in open && l2 in open && l1 != l2
      modifies this`pos, this`oom, this`failed, this`code, this`bfx, this`cfx, this`nlab, this`labOff, this`labs,
               this`open, buf, this`tally
      ensures Valid() && (old(Bad()) ==> Bad()) && nlab >= old(nlab)
      ensures !Bad() ==>
              Grew(old(Snap()), q, [], 0, [l1]) && LabelAt(q.labs, l1, |old(Snap()).code|)
              && GotOpt(q, i, nf, offs, inc)
      ensures !Bad() ==>
              Grew(i, Snap(), TickCode(tick, l2) + [J(JB, l)], 0, [l2]) && LabelAt(Snap().labs, l2, |Snap().code|)
      ensures !Bad() ==> open == old(open) - {l1, l2}
      ensures tally.want <= old(tally).want + OptSize(offs, inc) + TSize(tick) + 1
      ensures tally.drawn <= old(tally).drawn + OptLabels(inc)
      ensures tally.ill ==> old(tally).ill || !(WfOpt(nf, |offs|, inc))
      decreases inc, 4
    {
      hide Valid, Bad, GotOpt, TickCode, Grew;
      PlaceLabel(l1);
      q := Snap();
      GenOpt(inc);
      i := Snap();
      GenBackEdge(l, l2);
    }

    /** A for loop from its test on. */
    method GenLoop(st: Stmt, cl: seq<int>, ghost first: int, l: int, l1: int, l2: int)
      requires st.For? && Valid() && StmtInput(st, cl) && 0 <= l < nlab && 0 <= l1 < nlab && 0 <= l2 < nlab
      requires !Bad() ==> Fresh(open, cl, first) && l1 == l + 1 && l2 == l + 2 && Snap().nlab == ForHead(l, st.init)
      requires !Bad() ==> {l, l1, l2} <= open && {l, l1, l2} !! Labels(cl)
      modifies this`pos, this`oom, this`failed, this`code, this`bfx, this`cfx, this`nlab, this`labOff, this`labs,
               this`open, this`brk, this`cont, buf, this`tally
      ensures Valid() && (old(Bad()) ==> Bad()) && nlab >= old(nlab) && brk == old(brk) && cont == old(cont)
              && Around() == old(Around())
      ensures !Bad() ==> GotLoop(old(Snap()), Snap(), nf, old(Around()), l, st, first, cl)
      ensures !Bad() ==> open == old(open) - Labels(cl) - {l, l1, l2}
      ensures tally.want <= old(tally).want + OptSize(offs, st.cond) + (if st.cond.Some? then 1 else 0)
              + SSize(offs, tick, st.body) + OptSize(offs, st.inc) + TSize(tick) + 1
      ensures tally.drawn <= old(tally).drawn + OptLabels(st.cond) + SLabels(st.body) + OptLabels(st.inc)
      ensures tally.ill ==>
              old(tally).ill
              || !(WfOpt(nf, |offs|, st.cond) && WfOpt(nf, |offs|, st.inc) && WfS(nf, |offs|, st.body, true, true))
      decreases st, 0
    {
      hide *;
      AroundParts();
      ghost var o := Snap();
      LoopInput(st, cl);
      if !Bad() { ThreeGone(open, l, cl, first); }
      PlaceLabel(l);
      ghost var p := Snap();
      GenOptTest(st.cond, l2);
      ghost var b := Snap();
      GenBody(st.body, cl, first, l2, l1);
      ghost var c := Snap();
      ghost var q, i := GenNext(st.inc, l, l1, l2);
      if !Bad() { LoopGot(o, p, b, c, q, i, Snap(), nf, Around(), l, st, first, cl); }
    }

    method GenFor(st: Stmt, cl: seq<int>, ghost first: int)
      requires st.For? && Valid() && StmtInput(st, cl) && (!Bad() ==> Fresh(open, cl, first))
      modifies this`pos, this`oom, this`failed, this`code, this`bfx, this`cfx, this`nlab, this`labOff, this`labs,
               this`open, this`brk, this`cont, buf, this`tally
      ensures Valid() && (old(Bad()) ==> Bad()) && nlab >= old(nlab) && brk == old(brk) && cont == old(cont)
              && Around() == old(Around())
      ensures !Bad() ==>
              GotStmt(old(Snap()), Snap(), nf, old(Around()), st, first, cl) && open == old(open) - Labels(cl)
      ensures tally.want <= old(tally).want + SSize(offs, tick, st)
      ensures tally.drawn <= old(tally).drawn + SLabels(st)
      ensures tally.ill ==> old(tally).ill || !(WfS(nf, |offs|, st, brk != [], cont != []))
      decreases st, 1
    {
      hide *;
      AroundParts();
      ghost var o := Snap();
      LoopInput(st, cl);
      ForSize(nf, offs, tick, st, brk != [], cont != []);
      var l, l1 := TwoLabels();
      ghost var o2 := Snap();
      var l2 := NewLabel();
      ghost var o3 := Snap();
      GenOpt(st.init);
      ghost var a := Snap();
      if !Bad() {
        GrewTrans(o, o2, o3, [], 2, [], [], 1, []);
        NewIndex(o, o2, o3, a, nf, offs, st);
        FreshUsed(old(open), cl, first);
        FreshMore(old(open), open, cl, first);
      }
      GenLoop(st, cl, first, l, l1, l2);
      if !Bad() { ForGot(o, o3, a, Snap(), nf, Around(), st, first, cl); }
    }

    /** Hand out the case labels, last case first, and compare x0 with each value. */
    method GenDispatch(cs: seq<Option<int>>) returns (cl: seq<int>)
      requires Valid()
      modifies this`pos, this`oom, this`failed, this`code, this`bfx, this`cfx, this`nlab, this`labOff, this`labs,
               this`open, buf, this`tally
      ensures Valid() && (old(Bad()) ==> Bad()) && nlab >= old(nlab) && |cl| == |cs|
              && (forall k :: 0 <= k < |cl| ==> 0 <= cl[k] < nlab)
      ensures !Bad() ==> Grew(old(Snap()), Snap(), DispatchCode(cs, old(Snap()).nlab + |cs| - 1), |cs|, [])
      ensures !Bad() ==>
              Fresh(open, cl, old(Snap()).nlab + |cs| - 1) && open == old(open) + Labels(cl) && old(open) !! Labels(cl)
      ensures tally.want <= old(tally).want + DSize(cs)
      ensures tally.drawn <= old(tally).drawn + |cs|
      ensures tally.ill ==> old(tally).ill
    {
      hide *;
      ghost var o, first := Snap(), Snap().nlab + |cs| - 1;
      cl := [];
      NoLabels(open, first - |cs|);
      GrewNone(o);
      assert cs[..|cs|] == cs;
      ghost var done := [];
      for i := |cs| downto 0
        invariant Valid() && (old(Bad()) ==> Bad()) && nlab >= old(nlab) && |cl| == |cs| - i
                  && (forall k :: 0 <= k < |cl| ==> 0 <= cl[k] < nlab)
        invariant tally.want + DSize(cs[..i]) <= old(tally).want + DSize(cs)
                  && tally.drawn == old(tally).drawn + |cs| - i && tally.ill == old(tally).ill
        invariant !Bad() ==>
                  Grew(o, Snap(), done, |cs| - i, []) && DispatchCode(cs, first) == done + DispatchCode(cs[..i], first)
        invariant !Bad() ==> Fresh(open, cl, first - i) && open == old(open) + Labels(cl) && old(open) !! Labels(cl)
      {
        ghost var c, a := cs[..i + 1], Snap();
        var l := NewLabel();
        assert c[..i] == cs[..i];
        DSizeStep(c, l);
        ghost var b := Snap();
        GenCompare(cs[i], l);
        if !Bad() {
          assert c[..i] == cs[..i];
          DispatchStep(c, first);
          DispatchGrew(o, a, b, Snap(), done, |cs| - i - 1, cs[i], l);
          FreshCons(old(open), cl, first - i, l);
          done := done + CompareCode(cs[i], l);
        }
        cl := [l] + cl;
      }
      DispatchNone(first);
    }

    method GenCompare(c: Option<int>, l: int)
      requires Valid() && 0 <= l < nlab
      modifies this`pos, this`oom, this`code, this`bfx, buf, this`tally
      ensures Valid() && (old(Bad()) ==> Bad())
      ensures !Bad() ==> Grew(old(Snap()), Snap(), CompareCode(c, l), 0, [])
      ensures tally == old(tally).(want := old(tally).want + |CompareCode(c, l)|)
    {
      hide Valid, Bad, LoadImm, Encode;
      match c
      case None =>
      case Some(v) =>
        Immediate(1, ToU(v));
        EmitLoadImm(1, ToU(v));
        EmitI(CmpRR(0, 1));
        EmitJump(JCond(EQ), l);
    }

    /** The first default in source order, if any: the parser links cases in reverse and
        the last one the loop meets stays. */
    method FirstDefault(cs: seq<Option<int>>) returns (d: int)
      ensures d == S.Default(cs) && -1 <= d < |cs|
    {
      d := -1;
      assert cs[..|cs|] == cs;
      for i := |cs| downto 0
        invariant -1 <= d < |cs| && S.Default(cs) == if S.Default(cs[..i]) >= 0 then S.Default(cs[..i]) else d
      {
        assert cs[..i + 1][..i] == cs[..i];
        if cs[i].None? { d := i; }
      }
    }

    /** A switch body: `continue` still belongs to the loop outside. */
    method GenArms(st: Stmt, cl: seq<int>, ghost first: int, b: int)
      requires Valid() && NamedS(nf, |offs|, st) && |cl| == |S.Cases(st)| && (forall k :: 0 <= k < |cl| ==> 0 <= cl[k])
      requires |brk| + 1 + Depth(st) <= LOOPDEPTH && |cont| + Depth(st) <= LOOPDEPTH && 0 <= b < nlab
      requires !Bad() ==> Fresh(open, cl, first)
      modifies this`pos, this`oom, this`failed, this`code, this`bfx, this`cfx, this`nlab, this`labOff, this`labs,
               this`open, this`brk, this`cont, buf, this`tally
      ensures Valid() && (old(Bad()) ==> Bad()) && nlab >= old(nlab) && brk == old(brk) && cont == old(cont)
              && Around() == old(Around())
      ensures !Bad() ==> GotStmt(old(Snap()), Snap(), nf, old(Around()).(brk := b), st, first, cl)
      ensures !Bad() ==> open == old(open) - Labels(cl)
      ensures tally.want <= old(tally).want + SSize(offs, tick, st)
      ensures tally.drawn <= old(tally).drawn + SLabels(st)
      ensures tally.ill ==> old(tally).ill || !(WfS(nf, |offs|, st, true, cont != []))
      decreases st, 3
    {
      hide *;
      DepthBound(st);
      ghost var bs := brk;
      EnterSwitch(b);
      BodyStmt(st, cl);
      GenStmt(st, cl, first);
      LeaveSwitch(bs, b);
    }

    method EnterSwitch(b: int)
      requires Valid() && |brk| < LOOPDEPTH && 0 <= b < nlab
      modifies this`brk
      ensures Valid() && brk == old(brk) + [b] && brk != [] && Around() == old(Around()).(brk := b)
    {
      hide Tied, Blamed;
      brk := brk + [b];
    }

    method LeaveSwitch(ghost bs: Stack, ghost b: int)
      requires Valid() && brk == bs + [b]
      modifies this`brk
      ensures Valid() && brk == bs && Around() == Cx(offs, tick, Top(bs), Top(cont))
    {
      hide Tied, Blamed;
      brk := brk[..|brk| - 1];
    }

    lemma SwitchInput(st: Stmt, cl: seq<int>)
      requires st.Switch? && StmtInput(st, cl)
      ensures NamedS(nf, |offs|, st.body) && Named(nf, |offs|, st.c) && cl == []
      ensures |brk| + 1 + Depth(st.body) <= LOOPDEPTH && |cont| + Depth(st.body) <= LOOPDEPTH
    {
    }

    method GenSwitch(st: Stmt, cl: seq<int>, ghost first: int)
      requires st.Switch? && Valid() && StmtInput(st, cl) && (!Bad() ==> Fresh(open, cl, first))
      modifies this`pos, this`oom, this`failed, this`code, this`bfx, this`cfx, this`nlab, this`labOff, this`labs,
               this`open, this`brk, this`cont, buf, this`tally
      ensures Valid() && (old(Bad()) ==> Bad()) && nlab >= old(nlab) && brk == old(brk) && cont == old(cont)
              && Around() == old(Around())
      ensures !Bad() ==>
              GotStmt(old(Snap()), Snap(), nf, old(Around()), st, first, cl) && open == old(open) - Labels(cl)
      ensures tally.want <= old(tally).want + SSize(offs, tick, st)
      ensures tally.drawn <= old(tally).drawn + SLabels(st)
      ensures tally.ill ==> old(tally).ill || !(WfS(nf, |offs|, st, brk != [], cont != []))
      decreases st, 1
    {
      hide *;
      AroundParts();
      ghost var o := Snap();
      SwitchInput(st, cl);
      SwitchSize(nf, offs, tick, st, brk != [], cont != []);
      var cs := S.Cases(st.body);
      var l := NewLabel();
      ghost var o1 := Snap();
      if !Bad() { NewIndexOf(o, o1, l); }
      GenExpr(st.c);
      ghost var a := Snap();
      var arms; ghost var b;
      arms, b := GenSelect(cs, l);
      ghost var c := Snap();
      GenArms(st.body, arms, a.nlab + |cs| - 1, l);
      ghost var e := Snap();
      PlaceLabel(l);
      if !Bad() {
        SwitchGot(o, o1, a, b, c, e, Snap(), nf, Around(), st, first, arms);
        NoLabels(open, first);
      }
    }

    /** The comparisons, and the branch taken when none matches. */
    method GenSelect(cs: seq<Option<int>>, l: int) returns (arms: seq<int>, ghost b: Trace)
      requires Valid() && 0 <= l < nlab
      modifies this`pos, this`oom, this`failed, this`code, this`bfx, this`cfx, this`nlab, this`labOff, this`labs,
               this`open, buf, this`tally
      ensures Valid() && (old(Bad()) ==> Bad()) && nlab >= old(nlab) && |arms| == |cs|
              && (forall k :: 0 <= k < |arms| ==> 0 <= arms[k])
      ensures !Bad() ==> Grew(old(Snap()), b, DispatchCode(cs, old(Snap()).nlab + |cs| - 1), |cs|, [])
      ensures !Bad() ==> var f := old(Snap()).nlab + |cs| - 1;
                Fresh(open, arms, f) && (forall k :: 0 <= k < |arms| ==> arms[k] == f - k)
                && Grew(b, Snap(), [J(JB, if S.Default(cs) >= 0 then f - S.Default(cs) else l)], 0, [])
      ensures !Bad() ==> open == old(open) + Labels(arms) && old(open) !! Labels(arms)
      ensures tally.want <= old(tally).want + DSize(cs) + 1 && tally.drawn <= old(tally).drawn + |cs|
              && (tally.ill ==> old(tally).ill)
    {
      hide *;
      ghost var f := Snap().nlab + |cs| - 1;
      arms := GenDispatch(cs);
      b := Snap();
      var d := FirstDefault(cs);
      if !Bad() { ArmLabels(open, arms, f); }
      EmitJump(JB, if d >= 0 then arms[d] else l);
    }

    method GenCase(st: Stmt, cl: seq<int>, ghost first: int)
      requires st.Case? && Valid() && StmtInput(st, cl) && (!Bad() ==> Fresh(open, cl, first))
      modifies this`pos, this`oom, this`failed, this`code, this`bfx, this`cfx, this`nlab, this`labOff, this`labs,
               this`open, this`brk, this`cont, buf, this`tally
      ensures Valid() && (old(Bad()) ==> Bad()) && nlab >= old(nlab) && brk == old(brk) && cont == old(cont)
              && Around() == old(Around())
      ensures !Bad() ==>
              GotStmt(old(Snap()), Snap(), nf, old(Around()), st, first, cl) && open == old(open) - Labels(cl)
      ensures tally.want <= old(tally).want + SSize(offs, tick, st)
      ensures tally.drawn <= old(tally).drawn + SLabels(st)
      ensures tally.ill ==> old(tally).ill || !(WfS(nf, |offs|, st, brk != [], cont != []))
      decreases st, 1
    {
      hide *;
      AroundParts();
      ghost var o := Snap();
      CaseInput(st, cl);
      CaseSize(nf, offs, tick, st, brk != [], cont != []);
      if !Bad() { FreshSplit(open, cl, first, 1); FirstOpen(open, cl, first); }
      PlaceLabel(cl[0]);
      ghost var a := Snap();
      GenStmt(st.s, cl[1..], first - 1);
      if !Bad() { CaseGot(o, a, Snap(), nf, Around(), st, first, cl); }
    }

    lemma PlainInput(st: Stmt, cl: seq<int>)
      requires (st.ExprS? || st.Return? || st.Break? || st.Continue?) && StmtInput(st, cl)
      ensures cl == [] && (st.ExprS? || st.Return? ==> Named(nf, |offs|, st.e))
      ensures Around().offs == offs && Around().brk == (if brk == [] then -1 else brk[|brk| - 1])
      ensures Around().cont == (if cont == [] then -1 else cont[|cont| - 1])
    {
    }

    lemma StackRanges()
      requires Valid()
      ensures 0 <= RET < nlab && (brk != [] ==> 0 <= brk[|brk| - 1] < nlab)
      ensures cont != [] ==> 0 <= cont[|cont| - 1] < nlab
    {
    }

    method GenPlain(st: Stmt, cl: seq<int>, ghost first: int)
      requires st.ExprS? || st.Return? || st.Break? || st.Continue?
      requires Valid() && StmtInput(st, cl) && (!Bad() ==> Fresh(open, cl, first))
      modifies this`pos, this`oom, this`failed, this`code, this`bfx, this`cfx, this`nlab, this`labOff, this`labs,
               this`open, this`brk, this`cont, buf, this`tally
      ensures Valid() && (old(Bad()) ==> Bad()) && nlab >= old(nlab) && brk == old(brk) && cont == old(cont)
              && Around() == old(Around())
      ensures !Bad() ==>
              GotStmt(old(Snap()), Snap(), nf, old(Around()), st, first, cl) && open == old(open) - Labels(cl)
      ensures tally.want <= old(tally).want + SSize(offs, tick, st)
      ensures tally.drawn <= old(tally).drawn + SLabels(st)
      ensures tally.ill ==> old(tally).ill || !(WfS(nf, |offs|, st, brk != [], cont != []))
      decreases st, 1
    {
      hide *;
      ghost var o := Snap();
      PlainInput(st, cl);
      PlainSize(nf, offs, tick, st, brk != [], cont != []);
      StackRanges();
      NoLabels(open, first);
      ghost var a := o;
      match st {
        case ExprS(e) => GenExpr(e);
        case Return(e) =>
          GenExpr(e);
          a := Snap();
          EmitJump(JB, RET);
        case Break => if brk != [] { EmitJump(JB, brk[|brk| - 1]); } else { Fail(); }
        case Continue => if cont != [] { EmitJump(JB, cont[|cont| - 1]); } else { Fail(); }
      }
      if !Bad() { JumpGot(o, a, Snap(), nf, Around(), st, first); }
    }

    ghost predicate ListInput(ss: Stmts, cl: seq<int>) reads this`offs, this`brk, this`cont {
      && NamedL(nf, |offs|, ss) && |cl| == |S.CasesList(ss)| && (forall k :: 0 <= k < |cl| ==> 0 <= cl[k])
      && |brk| + DepthL(ss) <= LOOPDEPTH && |cont| + DepthL(ss) <= LOOPDEPTH
    }

    lemma BlockInput(st: Stmt, cl: seq<int>)
      requires st.Block? && StmtInput(st, cl)
      ensures ListInput(st.ss, cl[0..])
    {
    }

    /** The first statement of a list takes its share of the labels. */
    lemma ListSplit(ss: Stmts, cl: seq<int>, i: nat) returns (n: nat)
      requires ss.SCons? && i <= |cl| && ListInput(ss, cl[i..])
      ensures n == |S.Cases(ss.hd)| && i + n <= |cl| && StmtInput(ss.hd, cl[i..i + n]) && ListInput(ss.tl, cl[i + n..])
    {
      n := |S.Cases(ss.hd)|;
      assert forall k :: 0 <= k < |cl| - i ==> cl[i..][k] == cl[i + k];
    }

    lemma ListEnd(ss: Stmts, cl: seq<int>, i: nat)
      requires ss.SNil? && i <= |cl| && ListInput(ss, cl[i..])
      ensures i == |cl| && cl[..i] == cl
    {
    }

    method GenBlock(st: Stmt, cl: seq<int>, ghost first: int)
      requires st.Block? && Valid() && StmtInput(st, cl) && (!Bad() ==> Fresh(open, cl, first))
      modifies this`pos, this`oom, this`failed, this`code, this`bfx, this`cfx, this`nlab, this`labOff, this`labs,
               this`open, this`brk, this`cont, buf, this`tally
      ensures Valid() && (old(Bad()) ==> Bad()) && nlab >= old(nlab) && brk == old(brk) && cont == old(cont)
              && Around() == old(Around())
      ensures !Bad() ==>
              GotStmt(old(Snap()), Snap(), nf, old(Around()), st, first, cl) && open == old(open) - Labels(cl)
      ensures tally.want <= old(tally).want + SSize(offs, tick, st)
      ensures tally.drawn <= old(tally).drawn + SLabels(st)
      ensures tally.ill ==> old(tally).ill || !(WfS(nf, |offs|, st, brk != [], cont != []))
      decreases st, 1
    {
      hide *;
      ghost var o, cx := Snap(), Around();
      var rest, i := st.ss, 0;
      BlockInput(st, cl);
      BlockSize(nf, offs, tick, st, brk != [], cont != []);
      BlockStart(o, nf, cx, st.ss, first);
      NoLabels(open, first);
      while rest.SCons?
        invariant Valid() && (old(Bad()) ==> Bad()) && nlab >= old(nlab) && brk == old(brk) && cont == old(cont)
                  && Around() == cx && offs == old(offs)
        invariant (rest == st.ss || (st.ss decreases to rest)) && 0 <= i <= |cl| && ListInput(rest, cl[i..])
        invariant tally.want + LSize(offs, tick, rest) <= old(tally).want + SSize(offs, tick, st)
        invariant tally.drawn + LLabels(rest) <= old(tally).drawn + SLabels(st)
        invariant tally.ill ==> old(tally).ill || !WfS(nf, |offs|, st, brk != [], cont != [])
        invariant WfS(nf, |offs|, st, brk != [], cont != []) ==> WfL(nf, |offs|, rest, brk != [], cont != [])
        invariant !Bad() ==> BlockGoing(o, Snap(), nf, cx, st.ss, first, rest, first - i, cl[..i])
        invariant !Bad() ==> open == old(open) - Labels(cl[..i])
        decreases rest
      {
        ghost var a := Snap();
        ghost var n' := ListSplit(rest, cl, i);
        var n := |S.Cases(rest.hd)|;
        ListSize(nf, offs, tick, rest, brk != [], cont != []);
        if !Bad() { FreshSlice(old(open), cl, first, i, n); }
        GenStmt(rest.hd, cl[i..i + n], first - i);
        if !Bad() { BlockStep(o, a, Snap(), nf, cx, st.ss, first, rest, first - i, cl[..i], cl[i..i + n]); }
        rest, i := rest.tl, i + n;
      }
      if !Bad() {
        ListEnd(rest, cl, i);
        BlockGot(o, Snap(), nf, cx, st, first, first - i, cl);
      }
    }

    method GenStmt(st: Stmt, cl: seq<int>, ghost first: int)
      requires Valid() && StmtInput(st, cl) && (!Bad() ==> Fresh(open, cl, first))
      modifies this`pos, this`oom, this`failed, this`code, this`bfx, this`cfx, this`nlab, this`labOff, this`labs,
               this`open, this`brk, this`cont, buf, this`tally
      ensures Valid() && (old(Bad()) ==> Bad()) && nlab >= old(nlab) && brk == old(brk) && cont == old(cont)
              && Around() == old(Around())
      ensures !Bad() ==>
              GotStmt(old(Snap()), Snap(), nf, old(Around()), st, first, cl) && open == old(open) - Labels(cl)
      ensures tally.want <= old(tally).want + SSize(offs, tick, st)
      ensures tally.drawn <= old(tally).drawn + SLabels(st)
      ensures tally.ill ==> old(tally).ill || !(WfS(nf, |offs|, st, brk != [], cont != []))
      decreases st, 2
    {
      hide Valid, Bad, GotExpr, GotStmt;
      if failed { StillFailed(); return; }
      match st
      case If(_, _, _) => GenIf(st, cl, first);
      case While(_, _) => GenWhile(st, cl, first);
      case For(_, _, _, _) => GenFor(st, cl, first);
      case Switch(_, _) => GenSwitch(st, cl, first);
      case Case(_, _) => GenCase(st, cl, first);
      case Block(_) => GenBlock(st, cl, first);
      case _ => GenPlain(st, cl, first);
    }

    // -------------------------------------------------------------- functions

    method GenPrologue(frame: nat)
      requires Valid()
      modifies this`pos, this`oom, this`code, buf, this`tally
      ensures Valid() && (old(Bad()) ==> Bad())
      ensures !Bad() ==> Grew(old(Snap()), Snap(), Prologue(frame), 0, [])
      ensures tally == old(tally).(want := old(tally).want + |Prologue(frame)|)
    {
      hide Valid, Bad, LoadImm, Encode;
      EmitI(StpFrame);
      EmitI(AddImm(29, 31, 0));
      if frame > 0 {
        if frame <= 0xFFF {
          EmitI(SubImm(31, 31, frame));
        } else {
          Immediate(9, ToU(frame));
          EmitLoadImm(9, ToU(frame));
          EmitI(SubRRR(31, 31, 9));
        }
      }
    }

    method GenEpilogue()
      requires Valid()
      modifies this`pos, this`oom, this`code, buf, this`tally
      ensures Valid() && (old(Bad()) ==> Bad())
      ensures !Bad() ==> Grew(old(Snap()), Snap(), Epilogue(), 0, [])
      ensures tally == old(tally).(want := old(tally).want + 3)
    {
      hide Valid, Bad, Encode;
      EmitI(AddImm(31, 29, 0));
      EmitI(LdpFrame);
      EmitI(Ret);
    }

    method GenSpill(fn: Func, k: nat)
      requires Valid() && NamedF(nf, fn) && |offs| == |fn.locals| && k < |fn.params|
      modifies this`pos, this`oom, this`code, buf, this`tally
      ensures Valid() && (old(Bad()) ==> Bad())
      ensures !Bad() ==> Grew(old(Snap()), Snap(), SpillOne(fn, offs, k), 0, [])
      ensures tally == old(tally).(want := old(tally).want + |SpillOne(fn, offs, k)|)
    {
      hide Valid, Bad, LoadImm, Encode;
      var o := offs[fn.params[k]];
      if o <= 0xFFF {
        EmitI(SubImm(9, 29, o));
      } else {
        Immediate(9, ToU(o));
        EmitLoadImm(9, ToU(o));
        EmitI(SubRRR(9, 29, 9));
      }
      EmitI(if Size(fn.locals[fn.params[k]]) == 1 then Strb(k, 9) else Str(k, 9));
    }

    /** Store the incoming argument registers into the parameters' slots. */
    method GenSpills(fn: Func)
      requires Valid() && NamedF(nf, fn) && |offs| == |fn.locals|
      modifies this`pos, this`oom, this`code, buf, this`tally
      ensures Valid() && (old(Bad()) ==> Bad())
      ensures !Bad() ==> Grew(old(Snap()), Snap(), SpillCode(fn, offs, 0), 0, [])
      ensures tally == old(tally).(want := old(tally).want + |SpillCode(fn, offs, 0)|)
    {
      hide *;
      ghost var o, done := Snap(), [];
      GrewNone(o);
      for k := 0 to |fn.params|
        invariant Valid() && (old(Bad()) ==> Bad())
        invariant SpillCode(fn, offs, 0) == done + SpillCode(fn, offs, k)
        invariant tally == old(tally).(want := old(tally).want + |done|)
        invariant !Bad() ==> Grew(o, Snap(), done, 0, [])
      {
        ghost var a := Snap();
        GenSpill(fn, k);
        SpillNext(nf, fn, offs, k);
        if !Bad() { GrewOn(o, a, Snap(), done, SpillOne(fn, offs, k)); }
        done := done + SpillOne(fn, offs, k);
      }
      SpillLast(fn, offs);
      assert done + [] == done;
    }

    /** Patch every recorded branch with the distance to its label. */
    method ResolveBranches()
      requires Shape() && (!Bad() ==> Tied() && open == {})
      modifies buf
      ensures Shape()
      ensures !Bad() ==> buf[..start] == old(buf[..start])
      ensures !Bad() ==> forall i :: start <= i < |code| ==> buf[i] == Settle(code, start, labs, i, MAXBFX)
    {
      hide Jumps, Entries, Settle, Skeleton, Grouped, AllEncodable, Encode;
      if !Bad() {
        forall i | start <= i < |code| ensures Settle(code, start, labs, i, 0) == Skeleton(code[i]) {
          SettleNone(code, start, labs, i);
        }
      }
      for k := 0 to |bfx|
        invariant Shape() && (!Bad() ==> buf[..start] == old(buf[..start]))
        invariant !Bad() ==> forall i :: start <= i < |code| ==> buf[i] == Settle(code, start, labs, i, k)
      {
        var f := bfx[k];
        ghost var was := buf[..pos];
        var delta := labOff[f.lab] - f.site;
        buf[f.site] := match f.j
          case JB => 0x14000000 + delta % 0x400_0000
          case JCbz => 0xB4000000 + (delta % 0x8_0000) * 32
          case JCbnz => 0xB5000000 + (delta % 0x8_0000) * 32
          case JCond(c) => 0x54000000 + (delta % 0x8_0000) * 32 + CondCode(c);
        if !Bad() {
          JumpAt(code, start, k);
          BranchWord(labs, f.j, f.lab, f.site, delta);
          forall i | start <= i < |code| ensures buf[i] == Settle(code, start, labs, i, k + 1) {
            SettleStep(code, start, labs, k, i);
            assert i != f.site ==> buf[i] == was[i];
          }
        }
      }
      if !Bad() {
        forall i | start <= i < |code|
          ensures Settle(code, start, labs, i, |bfx|) == Settle(code, start, labs, i, MAXBFX)
        {
          SettleAll(code, start, labs, i);
        }
      }
    }

    /** Between functions: everything emitted so far is settled. */
    ghost predicate Between() reads this, buf {
      && buf.Length == cap + 1 && pos <= cap <= MAXWORDS && |labOff| == MAXLAB && pos <= tally.want && Blamed()
      && (forall i :: 0 <= i < |cfx| ==> cfx[i].f < nf)
      && (!Bad() ==>
            && start == |code| == pos && settled == buf[..pos]
            && Grouped(code) && AllEncodable(code) && cfx == Clip(Entries(code), MAXCFX))
    }

    /** From the prologue to the return, before branches are patched. */
    method GenBodyOf(fn: Func, frame: nat, ghost p: Prog)
      requires Valid() && NamedF(nf, fn) && p.tick == tick && offs == Offsets(fn.locals) && frame == Frame(fn.locals)
      requires |offs| == |fn.locals| && brk == [] && cont == [] && (!Bad() ==> open == {RET} && Snap().nlab == 1)
      modifies this`pos, this`oom, this`failed, this`code, this`bfx, this`cfx, this`nlab, this`labOff, this`labs,
               this`open, this`brk, this`cont, buf, this`tally
      ensures Valid() && (old(Bad()) ==> Bad())
      ensures !Bad() ==>
              Snap().code == old(Snap()).code + FCode(p, fn) && FPlaced(p, fn, |old(Snap()).code|, Snap().labs)
      ensures !Bad() ==> Snap().start == old(Snap()).start && Snap().settled == old(Snap()).settled && open == {}
      ensures !Bad() ==> WfS(nf, |fn.locals|, fn.body, false, false) && 1 + SLabels(fn.body) <= MAXLAB
      ensures tally.want <= old(tally).want + |FCode(p, fn)|
      ensures tally.drawn <= old(tally).drawn + SLabels(fn.body)
      ensures tally.ill ==> old(tally).ill || !WfS(nf, |fn.locals|, fn.body, false, false)
    {
      hide *;
      BodyInput(fn, p);
      FuncSize(p, fn);
      NoLabels(open, -1);
      ghost var o := Snap();
      GenPrologue(frame);
      ghost var a := Snap();
      GenSpills(fn);
      ghost var b := Snap();
      GenStmt(fn.body, [], -1);
      ghost var c := Snap();
      EmitI(Movz(0, 0));
      ghost var d := Snap();
      PlaceLabel(RET);
      ghost var e := Snap();
      GenEpilogue();
      LabelsFit();
      if !Bad() { FuncGot(o, a, b, c, d, e, Snap(), nf, p, fn); }
    }

    lemma LabelsFit()
      requires Valid()
      ensures Snap().nlab <= MAXLAB
    {
    }

    lemma BodyInput(fn: Func, p: Prog)
      requires NamedF(nf, fn) && p.tick == tick && offs == Offsets(fn.locals) && |offs| == |fn.locals| && brk == []
               && cont == []
      ensures StmtInput(fn.body, []) && Around() == BodyCx(p, fn) && 0 <= RET && Encodable(Movz(0, 0))
    {
    }

    /** Generate one function and patch its branches. */
    method GenFunc(fn: Func, ghost p: Prog) returns (ghost m: map<int, int>)
      requires Between() && NamedF(nf, fn) && p.tick == tick && !failed
      modifies this, buf
      ensures Between() && (old(Bad()) ==> Bad())
      ensures !Bad() ==> FuncMade(old(Snap()), Snap(), nf, p, fn, m)
      ensures tally.want <= old(tally).want + |FCode(p, fn)|
      ensures failed ==>
              !WfS(nf, |fn.locals|, fn.body, false, false) || 1 + SLabels(fn.body) > MAXLAB || tally.want > cap
    {
      hide *;
      ghost var o := Snap();
      var frame := StartFunc(fn);
      ghost var a := Snap();
      GenBodyOf(fn, frame, p);
      ghost var b := Snap();
      m := Finish();
      WhyFailed();
      if !Bad() { MadeFunc(o, a, b, Snap(), nf, p, fn, m); }
    }

    lemma WhyFailed()
      requires Between()
      ensures failed ==> tally.ill || tally.drawn > MAXLAB || oom
      ensures oom ==> tally.want > cap
      ensures tally.ill ==> failed
    {
    }

    /** Lay out the frame and reset the per-function tables. */
    method StartFunc(fn: Func) returns (frame: nat)
      requires Between() && !failed
      modifies this`offs, this`nlab, this`bfx, this`brk, this`cont, this`labs, this`open, this`tally
      ensures Valid() && offs == Offsets(fn.locals) && |offs| == |fn.locals| && frame == Frame(fn.locals) && brk == []
              && cont == []
      ensures tally == old(tally).(drawn := 1) && !tally.ill
      ensures !Bad() ==> open == {RET} && Snap().nlab == 1 && Started(old(Snap()), Snap())
    {
      hide Tied, Entries, Jumps, Offsets, Frame, Valid, Shape, Started, Stands;
      ghost var o := Snap();
      offs, frame := AssignOffsets(fn.locals);
      ResetTables(o);
    }

    method ResetTables(ghost o: Trace)
      requires Between() && !failed && o.code == code && o.start == start && o.settled == settled
      modifies this`nlab, this`bfx, this`brk, this`cont, this`labs, this`open, this`tally
      ensures Valid() && brk == [] && cont == [] && tally == old(tally).(drawn := 1) && !tally.ill
      ensures !Bad() ==> open == {RET} && Snap().nlab == 1 && Started(o, Snap())
    {
      hide Tied, Entries, Jumps, Valid, Shape, Started, Stands, Snap;
      nlab, bfx, brk, cont := 1, [], [], [];      // label 0 is the epilogue's
      labs, open, tally := map[], {RET}, tally.(drawn := 1);
      NothingYet(o);
    }

    method Finish() returns (ghost m: map<int, int>)
      requires Valid() && (!Bad() ==> open == {})
      modifies buf, this`settled, this`start
      ensures Between()
      ensures (Bad() <==> old(Bad())) && m == old(Snap()).labs && (!Bad() ==> Finished(old(Snap()), Snap(), m))
    {
      hide Tied, Settle, Entries, Jumps, Grouped, AllEncodable;
      if !Bad() { TiedParts(); }
      ResolveBranches();
      m := labs;
      settled, start := buf[..pos], pos;
    }

    /** A function starts with nothing emitted and only its return label open. */
    lemma NothingYet(o: Trace)
      requires Between() && nlab == 1 && tally.drawn == 1 && bfx == [] && brk == [] && cont == [] && labs == map[]
               && open == {RET}
      requires o.code == code && o.start == start && o.settled == settled
      ensures Valid() && (!Bad() ==> Snap().nlab == 1 && Started(o, Snap()))
    {
    }

    lemma TiedParts()
      requires Valid() && !Bad() && open == {}
      ensures start <= |code| == pos && |settled| == start && buf[..start] == settled
      ensures Grouped(code) && AllEncodable(code) && cfx == Clip(Entries(code), MAXCFX)
      ensures forall l :: l in labs ==> start <= labs[l] <= |code|
      ensures forall i :: start <= i < |code| && code[i].J? ==> code[i].lab in labs
    {
      assert buf[..pos][..start] == buf[..start];
    }

    // -------------------------------------------------------------- programs

    /** Generate every function in order. */
    method GenAll(p: Prog) returns (entry: seq<int>, ghost tabs: seq<map<int, int>>)
      requires Between() && !Bad() && Snap().code == [] && tally.want == 0 && nf == |p.funcs| && tick == p.tick
      requires forall f :: 0 <= f < nf ==> NamedF(nf, p.funcs[f])
      modifies this, buf
      ensures Between() && |entry| == |tabs| <= nf
      ensures (oom ==> failed) && (failed ==> !Accepted(p, nf, cap))
      ensures !failed ==>
              |entry| == nf && AllLie(Snap().code, Snap().settled, nf, p, entry, tabs) && Snap().code == AllCode(p, nf)
    {
      hide Lies, NamedF, WfS, FCode,  AllLie, AllCode, FuncMade, Tied, Entries, Jumps, Grouped, AllEncodable;
      entry, tabs := [], [];
      NoneLie(Snap().code, Snap().settled, nf, p);
      for f := 0 to |p.funcs|
        invariant Between() && |entry| == |tabs| == f && !Bad() && tally.want <= |AllCode(p, f)|
        invariant AllLie(Snap().code, Snap().settled, nf, p, entry, tabs) && Snap().code == AllCode(p, f)
      {
        ghost var o := Snap();
        var at := pos;
        ghost var m := GenFunc(p.funcs[f], p);
        WhyFailed();
        AllCodeNext(p, f);
        AllCodeGrows(p, f + 1, nf);
        if failed { return; }
        if oom {
          failed := true;
          return;
        }
        LiesMore(o, Snap(), nf, p, entry, tabs, m);
        entry, tabs := entry + [at], tabs + [m];
      }
    }

    /** Generate the program, then patch in the entry addresses of its functions. */
    method Codegen(p: Prog, base: int, ghost mach: Machine)
        returns (ok: bool, entry: seq<int>, ghost tabs: seq<map<int, int>>)
      requires buf.Length == cap + 1 && cap <= MAXWORDS && |labOff| == MAXLAB && nf == |p.funcs| && tick == p.tick
               && !failed
      requires forall f :: 0 <= f < nf ==> NamedF(nf, p.funcs[f])
      modifies this, buf
      ensures pos <= cap < buf.Length && |entry| == |tabs| && (ok <==> Accepted(p, nf, cap))
      ensures ok ==> Written(Image(mach.(code := buf[..pos], base := base), entry, tabs), nf, p)
      ensures ok && FitsTables(p) ==> Laid(Image(mach.(code := buf[..pos], base := base), entry, tabs), nf, p)
    {
      hide FCode, Lies, Final, NamedF, AllLie, AllCode, FitsTables, Laid, Accepted, Tied, Entries, Jumps, Grouped,
        AllEncodable;
      pos, oom, cfx := 0, false, [];
      code, start, settled, tally := [], 0, [], Tally(0, 0, false);
      assert Between() by { EmptyCode(); }
      entry, tabs := GenAll(p);
      if failed { return false, entry, tabs; }
      AcceptedNow(code, settled, nf, p, entry, tabs, cap);
      PatchCalls(base, entry);
      ok := true;
      assert WrittenAs(Image(mach.(code := buf[..pos], base := base), entry, tabs), nf, p, code, settled);
      if FitsTables(p) {
        FewEntries(p, code);
        KnownByTable(code, cfx, nf);
        AllHeld(Image(mach.(code := buf[..pos], base := base), entry, tabs), code, settled, nf, p);
      }
    }

    method PatchCalls(base: int, entry: seq<int>)
      requires Between() && !Bad() && |entry| == nf
      modifies buf
      ensures buf.Length == cap + 1 && pos <= cap
      ensures forall i :: 0 <= i < |code| ==> buf[i] == Final(code, settled, base, entry, i, MAXCFX)
    {
      hide Final, Entries, Encode, Grouped, AllEncodable;
      FinalNone(code, settled, base, entry);
      for n := 0 to |cfx|
        invariant buf.Length == cap + 1 && pos <= cap
        invariant forall i :: 0 <= i < |code| ==> buf[i] == Final(code, settled, base, entry, i, n)
      {
        var s := cfx[n];
        CallSite(code, n);
        var ws := ImmWords(9, ToU(base + 4 * entry[s.f]));
        buf[s.at], buf[s.at + 1], buf[s.at + 2], buf[s.at + 3] := ws[0], ws[1], ws[2], ws[3];
        forall i | 0 <= i < |code| ensures buf[i] == Final(code, settled, base, entry, i, n + 1) {
          FinalStep(code, settled, base, entry, n, i);
        }
      }
      forall i | 0 <= i < |code|
        ensures Final(code, settled, base, entry, i, |cfx|) == Final(code, settled, base, entry, i, MAXCFX)
      {
        FinalAll(code, settled, base, entry, i);
      }
    }
  }

  function SpillOne(fn: Func, offs: seq<nat>, k: nat): seq<Item>
    requires k < |fn.params| && fn.params[k] < |offs| == |fn.locals|
  {
    var o := offs[fn.params[k]];
    (if o <= 0xFFF then [I(SubImm(9, 29, o))] else LoadImm(9, ToU(o)) + [I(SubRRR(9, 29, 9))])
    + [I(if Size(fn.locals[fn.params[k]]) == 1 then Strb(k, 9) else Str(k, 9))]
  }

  lemma SpillNext(nf: nat, fn: Func, offs: seq<nat>, k: nat)
    requires NamedF(nf, fn) && k < |fn.params| && |offs| == |fn.locals|
    ensures fn.params[k] < |offs| && SpillCode(fn, offs, k) == SpillOne(fn, offs, k) + SpillCode(fn, offs, k + 1)
  {
    hide LoadImm;
  }

  lemma SpillLast(fn: Func, offs: seq<nat>)
    ensures SpillCode(fn, offs, |fn.params|) == []
  {
  }

  lemma BranchLinkGot(b: Trace, b1: Trace, t: Trace, f: Callee, adr: seq<Item>)
    requires Grew(b, b1, adr, 0, []) && Grew(b1, t, [I(Blr(9))], 0, [])
    requires match f case User(i) => adr == EntryItems(i) case Builtin(a) => adr == LoadImm(9, ToU(a))
    ensures Grew(b, t, CallSeq(f), 0, [])
  {
    hide LoadImm;
    assert CallSeq(f) == adr + [I(Blr(9))];
  }

  lemma DerefGot(o: Trace, t: Trace, nf: nat, offs: seq<nat>, e: Expr)
    requires e.Deref? && GotExpr(o, t, nf, offs, e.p)
    ensures GotAddr(o, t, nf, offs, e)
  {
  }

  function EntryItems(f: nat): seq<Item> { [Entry(f, 0), Entry(f, 1), Entry(f, 2), Entry(f, 3)] }

  lemma Immediate(r: int, v: u64)
    ensures |LoadImm(r, v)| == 4
  {
  }

  lemma FourEntries(was: seq<Item>, f: nat, start: nat)
    requires start <= |was|
    ensures var c := was + EntryItems(f);
            Entries(c) == Entries(was) + [Site(|was|, f)] && Jumps(c, start) == Jumps(was, start)
  {
    var c1 := was + [Entry(f, 0)];
    var c2 := c1 + [Entry(f, 1)];
    var c3 := c2 + [Entry(f, 2)];
    EntriesSnoc(was, Entry(f, 0));
    EntriesSnoc(c1, Entry(f, 1));
    EntriesSnoc(c2, Entry(f, 2));
    EntriesSnoc(c3, Entry(f, 3));
    JumpsSnoc(was, Entry(f, 0), start);
    JumpsSnoc(c1, Entry(f, 1), start);
    JumpsSnoc(c2, Entry(f, 2), start);
    JumpsSnoc(c3, Entry(f, 3), start);
    assert was + EntryItems(f) == c3 + [Entry(f, 3)];
  }
}
