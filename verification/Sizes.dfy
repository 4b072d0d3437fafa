/** How many words and labels each construct takes, whatever its place. */
module Sizes {
  import opened Options
  import opened Ast
  import opened Emit
  import opened Programs
  import S = Semantics

  ghost function ESize(offs: seq<nat>, e: Expr): nat { |Code(offs, e, 0)| }
  ghost function ASize(offs: seq<nat>, e: Expr): nat { |AddrCode(offs, e, 0)| }
  ghost function ArgsSize(offs: seq<nat>, es: Exprs): nat { |ArgsCode(offs, es, 0)| }
  ghost function OptSize(offs: seq<nat>, e: Option<Expr>): nat { match e case None => 0 case Some(x) => ESize(offs, x) }

  lemma {:induction false} CodeSize(offs: seq<nat>, e: Expr, l: int)
    ensures |Code(offs, e, l)| == ESize(offs, e) && |AddrCode(offs, e, l)| == ASize(offs, e)
    decreases e, 2
  {
    AddrCodeSize(offs, e, l);
    ValueCodeSize(offs, e, l);
  }

  lemma AddrCodeSize(offs: seq<nat>, e: Expr, l: int)
    ensures |AddrCode(offs, e, l)| == ASize(offs, e)
    decreases e, 0
  {
    hide LoadImm, Code;
    match e
    case Var(_, _) => assert AddrCode(offs, e, l) == AddrCode(offs, e, 0);
    case Deref(p, _) => CodeSize(offs, p, l);
    case Member(b, _, _) => AddrCodeSize(offs, b, l);
    case _ =>
  }

  lemma ValueCodeSize(offs: seq<nat>, e: Expr, l: int)
    ensures |Code(offs, e, l)| == ESize(offs, e)
    decreases e, 1
  {
    hide LoadImm, LoadSeq, StoreSeq, OpSeq, PopSeq, CallSeq, ELabels, AddrCode, ASize;
    match e
    case Num(_) | Text(_) =>
    case Var(_, _) => AddrCodeSize(offs, e, l); AddrCodeSize(offs, e, 0);
    case Member(b, _, _) => AddrCodeSize(offs, e, l); AddrCodeSize(offs, e, 0);
    case AddrOf(x) => AddrCodeSize(offs, x, l); AddrCodeSize(offs, x, 0);
    case Deref(p, _) => CodeSize(offs, p, l);
    case Neg(x) => CodeSize(offs, x, l);
    case Not(x) => CodeSize(offs, x, l);
    case Assign(x, r) =>
      AddrCodeSize(offs, x, l);
      AddrCodeSize(offs, x, 0);
      CodeSize(offs, r, l + ELabels(x));
      CodeSize(offs, r, 0 + ELabels(x));
    case Bin(_, x, r) =>
      CodeSize(offs, r, l);
      CodeSize(offs, x, l + ELabels(r));
      CodeSize(offs, x, 0 + ELabels(r));
    case And(_, _) => LogicSize(offs, e, l);
    case Or(_, _) => LogicSize(offs, e, l);
    case Call(_, args) => ArgsCodeSize(offs, args, l);
  }

  lemma LogicSize(offs: seq<nat>, e: Expr, l: int)
    requires e.And? || e.Or?
    ensures |Code(offs, e, l)| == ESize(offs, e.l) + ESize(offs, e.r2) + (if e.And? then 5 else 6)
    ensures |Code(offs, e, 0)| == ESize(offs, e.l) + ESize(offs, e.r2) + (if e.And? then 5 else 6)
    decreases e, 0
  {
    hide LoadImm, LoadSeq, StoreSeq, OpSeq, PopSeq, CallSeq, AddrCode, ELabels, ASize;
    CodeSize(offs, e.l, l + 2);
    CodeSize(offs, e.l, 0 + 2);
    CodeSize(offs, e.r2, l + 2 + ELabels(e.l));
    CodeSize(offs, e.r2, 0 + 2 + ELabels(e.l));
  }

  lemma {:induction false} ArgsCodeSize(offs: seq<nat>, es: Exprs, l: int)
    ensures |ArgsCode(offs, es, l)| == ArgsSize(offs, es)
    ensures es.ECons? ==> ArgsSize(offs, es) == ESize(offs, es.hd) + 1 + ArgsSize(offs, es.tl)
    decreases es
  {
    hide Code, ELabels;
    match es
    case ENil =>
    case ECons(e, t) =>
      CodeSize(offs, e, l);
      ArgsCodeSize(offs, t, l + ELabels(e));
      ArgsCodeSize(offs, t, 0 + ELabels(e));
  }

  /** The size and well-formedness of an expression in terms of its parts. */
  lemma BinSize(nf: nat, offs: seq<nat>, e: Expr)
    requires e.Bin?
    ensures ESize(offs, e) == ESize(offs, e.r2) + 1 + ESize(offs, e.l) + 1 + |OpSeq(e.op)|
            && ELabels(e) == ELabels(e.r2) + ELabels(e.l)
    ensures WfE(nf, |offs|, e) ==> WfE(nf, |offs|, e.r2) && WfE(nf, |offs|, e.l)
  {
    hide OpSeq;
    CodeSize(offs, e.l, 0 + ELabels(e.r2));
  }

  lemma AssignSize(nf: nat, offs: seq<nat>, e: Expr)
    requires e.Assign?
    ensures ESize(offs, e) == ASize(offs, e.lhs) + 1 + ESize(offs, e.rhs) + 1 + |StoreSeq(TyOf(e.lhs))|
            && ELabels(e) == ELabels(e.lhs) + ELabels(e.rhs)
    ensures WfE(nf, |offs|, e) ==> WfE(nf, |offs|, e.lhs) && Lvalue(e.lhs) && WfE(nf, |offs|, e.rhs)
  {
    hide StoreSeq;
    CodeSize(offs, e.rhs, 0 + ELabels(e.lhs));
  }

  lemma AndOrSize(nf: nat, offs: seq<nat>, e: Expr)
    requires e.And? || e.Or?
    ensures ESize(offs, e) == ESize(offs, e.l) + ESize(offs, e.r2) + (if e.And? then 5 else 6)
            && ELabels(e) == 2 + ELabels(e.l) + ELabels(e.r2)
    ensures WfE(nf, |offs|, e) ==> WfE(nf, |offs|, e.l) && WfE(nf, |offs|, e.r2)
  {
    LogicSize(offs, e, 0);
  }

  /** Constructs whose code is that of one operand and a tail. */
  lemma OneSize(nf: nat, offs: seq<nat>, e: Expr)
    requires e.Var? || e.Member? || e.Deref? || e.Neg? || e.Not?
    ensures e.Var? || e.Member? ==>
            ESize(offs, e) == ASize(offs, e) + |LoadSeq(e.ty)| && (WfE(nf, |offs|, e) ==> Lvalue(e))
    ensures e.Deref? ==>
            ESize(offs, e) == ESize(offs, e.p) + |LoadSeq(e.ty)| && ELabels(e) == ELabels(e.p)
            && (WfE(nf, |offs|, e) ==> WfE(nf, |offs|, e.p))
    ensures e.Neg? || e.Not? ==>
            ESize(offs, e) == ESize(offs, e.e) + (if e.Neg? then 1 else 2) && ELabels(e) == ELabels(e.e)
    ensures e.Neg? || e.Not? ==> (WfE(nf, |offs|, e) ==> WfE(nf, |offs|, e.e))
  {
    hide LoadSeq;
  }

  lemma MemberSize(nf: nat, offs: seq<nat>, e: Expr)
    requires e.Member?
    ensures ASize(offs, e) == ASize(offs, e.b) + (if e.off != 0 then 1 else 0) && ELabels(e) == ELabels(e.b)
    ensures WfE(nf, |offs|, e) && Lvalue(e) ==> WfE(nf, |offs|, e.b) && Lvalue(e.b)
  {
  }

  lemma CallSize(nf: nat, offs: seq<nat>, e: Expr)
    requires e.Call?
    ensures ESize(offs, e) == ArgsSize(offs, e.args) + Count(e.args) + 5 && ELabels(e) == ArgLabels(e.args)
    ensures WfE(nf, |offs|, e) ==> WfArgs(nf, |offs|, e.args) && Count(e.args) <= 8 && (e.f.Builtin? ==> e.f.addr != 0)
  {
    PopsSize(Count(e.args));
  }

  lemma {:induction false} PopsSize(n: nat)
    ensures |PopSeq(n)| == n
  {
    if n > 0 { PopsSize(n - 1); }
  }

  lemma ArgSize(nf: nat, offs: seq<nat>, es: Exprs)
    requires es.ECons?
    ensures ArgsSize(offs, es) == ESize(offs, es.hd) + 1 + ArgsSize(offs, es.tl)
            && ArgLabels(es) == ELabels(es.hd) + ArgLabels(es.tl)
    ensures WfArgs(nf, |offs|, es) ==> WfE(nf, |offs|, es.hd) && WfArgs(nf, |offs|, es.tl)
  {
    ArgsCodeSize(offs, es, 0);
  }

  // ---------------------------------------------------------------- statements

  /** Sizes depend on the frame and the guard only. */
  ghost function SSize(offs: seq<nat>, tick: Option<int>, st: Stmt): nat { |SCode(Cx(offs, tick, -1, -1), st, 0, 0)| }
  ghost function LSize(offs: seq<nat>, tick: Option<int>, ss: Stmts): nat { |LCode(Cx(offs, tick, -1, -1), ss, 0, 0)| }
  ghost function DSize(cs: seq<Option<int>>): nat { |DispatchCode(cs, 0)| }
  ghost function TSize(tick: Option<int>): nat { if tick.Some? then 6 else 0 }

  lemma {:induction false} DispatchSize(cs: seq<Option<int>>, first: int)
    ensures |DispatchCode(cs, first)| == DSize(cs)
    decreases |cs|
  {
    if cs != [] { DispatchSize(cs[..|cs| - 1], first); }
  }

  lemma OptCodeSize(offs: seq<nat>, e: Option<Expr>, l: int)
    ensures |OptCode(offs, e, l)| == OptSize(offs, e)
  {
    hide Code;
    if e.Some? { CodeSize(offs, e.value, l); }
  }

  lemma {:induction false} SCodeSize(cx: Cx, st: Stmt, l: int, first: int)
    ensures |SCode(cx, st, l, first)| == SSize(cx.offs, cx.tick, st)
    decreases st, 1
  {
    hide Code, ELabels, SLabels, S.Cases, DispatchCode, TickCode, OptCode, LCode, ForCode;
    match st
    case ExprS(e) => CodeSize(cx.offs, e, l);
    case Return(e) => CodeSize(cx.offs, e, l);
    case Break =>
    case Continue =>
    case Block(ss) => LCodeSize(cx, ss, l, first);
    case Case(_, b) =>
      SCodeSize(cx, b, l, first - 1);
      SCodeSize(Cx(cx.offs, cx.tick, -1, -1), b, 0, 0 - 1);
    case If(_, _, _) => IfCodeSize(cx, st, l, first);
    case While(_, _) => WhileCodeSize(cx, st, l, first);
    case For(_, _, _, _) => ForCodeSize(cx, st, l, first);
    case Switch(_, _) => SwitchCodeSize(cx, st, l, first);
  }

  lemma IfSum(cx: Cx, st: Stmt, l: int, first: int)
    requires st.If?
    ensures |SCode(cx, st, l, first)|
            == ESize(cx.offs, st.c) + 1 + SSize(cx.offs, cx.tick, st.t) + 1 + SSize(cx.offs, cx.tick, st.f)
    decreases st, 0, 0
  {
    hide Code, ELabels, SLabels, S.Cases;
    var lt := l + 2 + ELabels(st.c);
    CodeSize(cx.offs, st.c, l + 2);
    SCodeSize(cx, st.t, lt, first);
    SCodeSize(cx, st.f, lt + SLabels(st.t), first - |S.Cases(st.t)|);
  }

  lemma IfCodeSize(cx: Cx, st: Stmt, l: int, first: int)
    requires st.If?
    ensures |SCode(cx, st, l, first)| == SSize(cx.offs, cx.tick, st)
    decreases st, 0, 1
  {
    IfSum(cx, st, l, first);
    IfSum(Cx(cx.offs, cx.tick, -1, -1), st, 0, 0);
  }

  lemma TickSize(tick: Option<int>, exit: int)
    ensures |TickCode(tick, exit)| == TSize(tick)
  {
  }

  lemma WhileSum(cx: Cx, st: Stmt, l: int, first: int)
    requires st.While?
    ensures |SCode(cx, st, l, first)|
            == ESize(cx.offs, st.c) + 1 + SSize(cx.offs, cx.tick, st.body) + TSize(cx.tick) + 1
    decreases st, 0, 0
  {
    hide Code, ELabels, TickCode;
    CodeSize(cx.offs, st.c, l + 2);
    SCodeSize(cx.(brk := l + 1, cont := l), st.body, l + 2 + ELabels(st.c), first);
    TickSize(cx.tick, l + 1);
  }

  lemma WhileCodeSize(cx: Cx, st: Stmt, l: int, first: int)
    requires st.While?
    ensures |SCode(cx, st, l, first)| == SSize(cx.offs, cx.tick, st)
    decreases st, 0, 1
  {
    WhileSum(cx, st, l, first);
    WhileSum(Cx(cx.offs, cx.tick, -1, -1), st, 0, 0);
  }

  lemma ForSum(cx: Cx, st: Stmt, l: int, first: int)
    requires st.For?
    ensures |SCode(cx, st, l, first)|
            == OptSize(cx.offs, st.init) + OptSize(cx.offs, st.cond) + (if st.cond.Some? then 1 else 0)
              + SSize(cx.offs, cx.tick, st.body) + OptSize(cx.offs, st.inc) + TSize(cx.tick) + 1
    decreases st, 0, 0
  {
    hide OptCode, OptLabels, SLabels, TickCode;
    var lc := ForHead(l, st.init);
    var lb := lc + OptLabels(st.cond);
    OptCodeSize(cx.offs, st.init, l + 3);
    OptCodeSize(cx.offs, st.cond, lc);
    SCodeSize(cx.(brk := l + 2, cont := l + 1), st.body, lb, first);
    OptCodeSize(cx.offs, st.inc, lb + SLabels(st.body));
    TickSize(cx.tick, l + 2);
  }

  lemma ForCodeSize(cx: Cx, st: Stmt, l: int, first: int)
    requires st.For?
    ensures |SCode(cx, st, l, first)| == SSize(cx.offs, cx.tick, st)
    decreases st, 0, 1
  {
    ForSum(cx, st, l, first);
    ForSum(Cx(cx.offs, cx.tick, -1, -1), st, 0, 0);
  }

  lemma SwitchSum(cx: Cx, st: Stmt, l: int, first: int)
    requires st.Switch?
    ensures |SCode(cx, st, l, first)|
            == ESize(cx.offs, st.c) + DSize(S.Cases(st.body)) + 1 + SSize(cx.offs, cx.tick, st.body)
    decreases st, 0, 0
  {
    hide Code, ELabels, S.Cases, DispatchCode, S.Default;
    var cs, lc := S.Cases(st.body), l + 1 + ELabels(st.c);
    var f := lc + |cs| - 1;
    CodeSize(cx.offs, st.c, l + 1);
    DispatchSize(cs, f);
    SCodeSize(cx.(brk := l), st.body, lc + |cs|, f);
  }

  lemma SwitchCodeSize(cx: Cx, st: Stmt, l: int, first: int)
    requires st.Switch?
    ensures |SCode(cx, st, l, first)| == SSize(cx.offs, cx.tick, st)
    decreases st, 0, 1
  {
    SwitchSum(cx, st, l, first);
    SwitchSum(Cx(cx.offs, cx.tick, -1, -1), st, 0, 0);
  }

  lemma {:induction false} LCodeSize(cx: Cx, ss: Stmts, l: int, first: int)
    ensures |LCode(cx, ss, l, first)| == LSize(cx.offs, cx.tick, ss)
    ensures ss.SCons? ==> LSize(cx.offs, cx.tick, ss) == SSize(cx.offs, cx.tick, ss.hd) + LSize(cx.offs, cx.tick, ss.tl)
    decreases ss, 0
  {
    hide SCode, SLabels, S.Cases;
    match ss
    case SNil =>
    case SCons(h, t) =>
      var c0 := Cx(cx.offs, cx.tick, -1, -1);
      SCodeSize(cx, h, l, first);
      LCodeSize(cx, t, l + SLabels(h), first - |S.Cases(h)|);
      LCodeSize(c0, t, 0 + SLabels(h), 0 - |S.Cases(h)|);
  }

  // ---------------------------------------------------------------- statements in terms of their parts

  lemma IfSize(nf: nat, offs: seq<nat>, tick: Option<int>, st: Stmt, b: bool, c: bool)
    requires st.If?
    ensures SSize(offs, tick, st) == ESize(offs, st.c) + 1 + SSize(offs, tick, st.t) + 1 + SSize(offs, tick, st.f)
    ensures SLabels(st) == 2 + ELabels(st.c) + SLabels(st.t) + SLabels(st.f)
    ensures WfS(nf, |offs|, st, b, c) ==>
            WfE(nf, |offs|, st.c) && WfS(nf, |offs|, st.t, b, c) && WfS(nf, |offs|, st.f, b, c)
  {
    IfSum(Cx(offs, tick, -1, -1), st, 0, 0);
  }

  lemma WhileSize(nf: nat, offs: seq<nat>, tick: Option<int>, st: Stmt, b: bool, c: bool)
    requires st.While?
    ensures SSize(offs, tick, st) == ESize(offs, st.c) + 1 + SSize(offs, tick, st.body) + TSize(tick) + 1
    ensures SLabels(st) == 2 + ELabels(st.c) + SLabels(st.body)
    ensures WfS(nf, |offs|, st, b, c) ==> WfE(nf, |offs|, st.c) && WfS(nf, |offs|, st.body, true, true)
  {
    WhileSum(Cx(offs, tick, -1, -1), st, 0, 0);
  }

  lemma ForSize(nf: nat, offs: seq<nat>, tick: Option<int>, st: Stmt, b: bool, c: bool)
    requires st.For?
    ensures SSize(offs, tick, st) == OptSize(offs, st.init) + OptSize(offs, st.cond) + (if st.cond.Some? then 1 else 0)
              + SSize(offs, tick, st.body) + OptSize(offs, st.inc) + TSize(tick) + 1
    ensures SLabels(st) == 3 + OptLabels(st.init) + OptLabels(st.cond) + SLabels(st.body) + OptLabels(st.inc)
    ensures WfS(nf, |offs|, st, b, c) ==>
            WfOpt(nf, |offs|, st.init) && WfOpt(nf, |offs|, st.cond) && WfOpt(nf, |offs|, st.inc)
            && WfS(nf, |offs|, st.body, true, true)
  {
    ForSum(Cx(offs, tick, -1, -1), st, 0, 0);
  }

  lemma SwitchSize(nf: nat, offs: seq<nat>, tick: Option<int>, st: Stmt, b: bool, c: bool)
    requires st.Switch?
    ensures SSize(offs, tick, st) == ESize(offs, st.c) + DSize(S.Cases(st.body)) + 1 + SSize(offs, tick, st.body)
    ensures SLabels(st) == 1 + ELabels(st.c) + |S.Cases(st.body)| + SLabels(st.body)
    ensures WfS(nf, |offs|, st, b, c) ==> WfE(nf, |offs|, st.c) && WfS(nf, |offs|, st.body, true, c)
  {
    SwitchSum(Cx(offs, tick, -1, -1), st, 0, 0);
  }

  lemma CaseSize(nf: nat, offs: seq<nat>, tick: Option<int>, st: Stmt, b: bool, c: bool)
    requires st.Case?
    ensures SSize(offs, tick, st) == SSize(offs, tick, st.s) && SLabels(st) == SLabels(st.s)
    ensures WfS(nf, |offs|, st, b, c) ==> WfS(nf, |offs|, st.s, b, c)
  {
    SCodeSize(Cx(offs, tick, -1, -1), st.s, 0, 0 - 1);
  }

  lemma PlainSize(nf: nat, offs: seq<nat>, tick: Option<int>, st: Stmt, b: bool, c: bool)
    requires st.ExprS? || st.Return? || st.Break? || st.Continue?
    ensures st.ExprS? || st.Return? ==>
            SSize(offs, tick, st) == ESize(offs, st.e) + (if st.Return? then 1 else 0) && SLabels(st) == ELabels(st.e)
    ensures st.Break? || st.Continue? ==> SSize(offs, tick, st) == 1 && SLabels(st) == 0
    ensures WfS(nf, |offs|, st, b, c) ==> (if st.Break? then b else if st.Continue? then c else WfE(nf, |offs|, st.e))
  {
  }

  lemma BlockSize(nf: nat, offs: seq<nat>, tick: Option<int>, st: Stmt, b: bool, c: bool)
    requires st.Block?
    ensures SSize(offs, tick, st) == LSize(offs, tick, st.ss) && SLabels(st) == LLabels(st.ss)
    ensures WfS(nf, |offs|, st, b, c) ==> WfL(nf, |offs|, st.ss, b, c)
  {
  }

  lemma ListSize(nf: nat, offs: seq<nat>, tick: Option<int>, ss: Stmts, b: bool, c: bool)
    requires ss.SCons?
    ensures LSize(offs, tick, ss) == SSize(offs, tick, ss.hd) + LSize(offs, tick, ss.tl)
            && LLabels(ss) == SLabels(ss.hd) + LLabels(ss.tl)
    ensures WfL(nf, |offs|, ss, b, c) ==> WfS(nf, |offs|, ss.hd, b, c) && WfL(nf, |offs|, ss.tl, b, c)
  {
    LCodeSize(Cx(offs, tick, -1, -1), ss, 0, 0);
  }
}
