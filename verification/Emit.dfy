/** What the generator emits, with branch targets still symbolic: the code of each
    construct as a function of the construct and of the next free label number. */
module Emit {
  import opened Options
  import opened Word
  import opened Arm
  import opened Ast
  import Semantics

  datatype Jump = JB | JCbz | JCbnz | JCond(c: Cond)

  /** An emitted word before patching: an instruction, a branch to a label, or the k-th
      word of loading the entry address of a user function. */
  datatype Item = I(i: Instr) | J(j: Jump, lab: int) | Entry(f: nat, k: int)

  function Imm(r: int, v: u64, k: int): Instr {
    if k == 0 then Movz(r, v % 0x1_0000)
    else if k == 1 then Movk(r, 1, (v / 0x1_0000) % 0x1_0000)
    else if k == 2 then Movk(r, 2, (v / 0x1_0000_0000) % 0x1_0000)
    else Movk(r, 3, (v / 0x1_0000_0000_0000) % 0x1_0000)
  }

  function LoadImm(r: int, v: u64): seq<Item> { [I(Imm(r, v, 0)), I(Imm(r, v, 1)), I(Imm(r, v, 2)), I(Imm(r, v, 3))] }

  /** x0 := [x0] at a type; arrays decay to their address. */
  function LoadSeq(ty: Ty): seq<Item> {
    if ty.TArray? then [] else if Size(ty) == 1 then [I(Ldrb(0, 0))] else [I(Ldr(0, 0))]
  }

  /** [x1] := x0 at a type. */
  function StoreSeq(ty: Ty): seq<Item> { if Size(ty) == 1 then [I(Strb(0, 1))] else [I(Str(0, 1))] }

  function OpSeq(op: Op): seq<Item> {
    match op
    case Add => [I(AddRRR(0, 0, 1))]
    case Sub => [I(SubRRR(0, 0, 1))]
    case Mul => [I(Arm.Mul(0, 0, 1))]
    case Div => [I(Sdiv(0, 0, 1))]
    case Mod => [I(Sdiv(2, 0, 1)), I(Msub(0, 2, 1, 0))]
    case Eq => [I(CmpRR(0, 1)), I(Cset(0, EQ))]
    case Ne => [I(CmpRR(0, 1)), I(Cset(0, NE))]
    case Lt => [I(CmpRR(0, 1)), I(Cset(0, LT))]
    case Le => [I(CmpRR(0, 1)), I(Cset(0, LE))]
  }

  /** Pop the arguments into x(n-1), ..., x0. */
  function PopSeq(n: nat): seq<Item> { if n == 0 then [] else [I(Pop(n - 1))] + PopSeq(n - 1) }

  function CallSeq(f: Callee): seq<Item> {
    (match f
     case User(i) => [Entry(i, 0), Entry(i, 1), Entry(i, 2), Entry(i, 3)]
     case Builtin(a) => LoadImm(9, ToU(a))) + [I(Blr(9))]
  }

  /** Labels an expression allocates. */
  function ELabels(e: Expr): nat {
    match e
    case Num(_) | Text(_) | Var(_, _) => 0
    case Assign(l, r) => ELabels(l) + ELabels(r)
    case Deref(p, _) => ELabels(p)
    case Member(b, _, _) => ELabels(b)
    case AddrOf(x) => ELabels(x)
    case Neg(x) => ELabels(x)
    case Not(x) => ELabels(x)
    case And(l, r) => 2 + ELabels(l) + ELabels(r)
    case Or(l, r) => 2 + ELabels(l) + ELabels(r)
    case Bin(_, l, r) => ELabels(r) + ELabels(l)
    case Call(_, args) => ArgLabels(args)
  }

  function ArgLabels(es: Exprs): nat { match es case ENil => 0 case ECons(e, t) => ELabels(e) + ArgLabels(t) }

  function AddrCode(offs: seq<nat>, e: Expr, l: int): seq<Item>
    decreases e, 0
  {
    match e
    case Var(Global(a), _) => LoadImm(0, ToU(a))
    case Var(Local(i), _) =>
      if i >= |offs| then []
      else if offs[i] <= 0xFFF then [I(SubImm(0, 29, offs[i]))]
      else LoadImm(9, ToU(offs[i])) + [I(SubRRR(0, 29, 9))]
    case Text(a) => LoadImm(0, ToU(a))
    case Deref(p, _) => Code(offs, p, l)
    case Member(b, off, _) => AddrCode(offs, b, l) + (if off != 0 then [I(AddImm(0, 0, off % 0x1000))] else [])
    case _ => []
  }

  function Code(offs: seq<nat>, e: Expr, l: int): seq<Item>
    decreases e, 1
  {
    match e
    case Num(v) => LoadImm(0, ToU(v))
    case Text(a) => LoadImm(0, ToU(a))
    case Var(_, ty) => AddrCode(offs, e, l) + LoadSeq(ty)
    case Member(_, _, ty) => AddrCode(offs, e, l) + LoadSeq(ty)
    case Deref(p, ty) => Code(offs, p, l) + LoadSeq(ty)
    case AddrOf(x) => AddrCode(offs, x, l)
    case Assign(x, r) =>
      AddrCode(offs, x, l) + [I(Push)] + Code(offs, r, l + ELabels(x)) + [I(Pop(1))] + StoreSeq(TyOf(x))
    case Neg(x) => Code(offs, x, l) + [I(SubRRR(0, 31, 0))]
    case Not(x) => Code(offs, x, l) + [I(Cmp0(0)), I(Cset(0, EQ))]
    case And(x, r) =>
      Code(offs, x, l + 2) + [J(JCbz, l)] + Code(offs, r, l + 2 + ELabels(x))
      + [J(JCbz, l), I(Movz(0, 1)), J(JB, l + 1), I(Movz(0, 0))]
    case Or(x, r) =>
      Code(offs, x, l + 2) + [I(Cmp0(0)), J(JCbnz, l)] + Code(offs, r, l + 2 + ELabels(x))
      + [J(JCbnz, l), I(Movz(0, 0)), J(JB, l + 1), I(Movz(0, 1))]
    case Bin(op, x, r) => Code(offs, r, l) + [I(Push)] + Code(offs, x, l + ELabels(r)) + [I(Pop(1))] + OpSeq(op)
    case Call(f, args) => ArgsCode(offs, args, l) + PopSeq(Count(args)) + CallSeq(f)
  }

  function ArgsCode(offs: seq<nat>, es: Exprs, l: int): seq<Item>
    decreases es, 0
  {
    match es
    case ENil => []
    case ECons(e, t) => Code(offs, e, l) + [I(Push)] + ArgsCode(offs, t, l + ELabels(e))
  }

  /** Where the labels of an expression lie when its code starts at word `pos`. */
  ghost predicate Placed(offs: seq<nat>, e: Expr, l: int, pos: int, labs: map<int, int>)
    decreases e
  {
    match e
    case Num(_) | Text(_) | Var(_, _) => true
    case Deref(p, _) => Placed(offs, p, l, pos, labs)
    case Member(b, _, _) => Placed(offs, b, l, pos, labs)
    case AddrOf(x) => Placed(offs, x, l, pos, labs)
    case Neg(x) => Placed(offs, x, l, pos, labs)
    case Not(x) => Placed(offs, x, l, pos, labs)
    case Assign(x, r) =>
      && Placed(offs, x, l, pos, labs)
      && Placed(offs, r, l + ELabels(x), pos + |AddrCode(offs, x, l)| + 1, labs)
    case And(x, r) =>
      var p1 := pos + |Code(offs, x, l + 2)| + 1;
      var p2 := p1 + |Code(offs, r, l + 2 + ELabels(x))|;
      && Placed(offs, x, l + 2, pos, labs)
      && Placed(offs, r, l + 2 + ELabels(x), p1, labs)
      && l in labs && labs[l] == p2 + 3 && l + 1 in labs && labs[l + 1] == p2 + 4
    case Or(x, r) =>
      var p1 := pos + |Code(offs, x, l + 2)| + 2;
      var p2 := p1 + |Code(offs, r, l + 2 + ELabels(x))|;
      && Placed(offs, x, l + 2, pos, labs)
      && Placed(offs, r, l + 2 + ELabels(x), p1, labs)
      && l in labs && labs[l] == p2 + 3 && l + 1 in labs && labs[l + 1] == p2 + 4
    case Bin(_, x, r) =>
      && Placed(offs, r, l, pos, labs)
      && Placed(offs, x, l + ELabels(r), pos + |Code(offs, r, l)| + 1, labs)
    case Call(_, args) => ArgsPlaced(offs, args, l, pos, labs)
  }

  ghost predicate ArgsPlaced(offs: seq<nat>, es: Exprs, l: int, pos: int, labs: map<int, int>)
    decreases es
  {
    match es
    case ENil => true
    case ECons(e, t) =>
      && Placed(offs, e, l, pos, labs)
      && ArgsPlaced(offs, t, l + ELabels(e), pos + |Code(offs, e, l)| + 1, labs)
  }

  // ---------------------------------------------------------------- statements

  /** Call the guard and leave the loop when it returns 0. */
  function TickCode(tick: Option<int>, exit: int): seq<Item> {
    match tick case None => [] case Some(a) => LoadImm(9, ToU(a)) + [I(Blr(9)), J(JCbz, exit)]
  }

  /** Compare x0 with each case in reverse source order; `first` is case 0's label. */
  function DispatchCode(cs: seq<Option<int>>, first: int): seq<Item> {
    if cs == [] then [] else
      var n := |cs| - 1;
      (match cs[n]
       case None => []
       case Some(v) => LoadImm(1, ToU(v)) + [I(CmpRR(0, 1)), J(JCond(EQ), first - n)])
      + DispatchCode(cs[..n], first)
  }

  function OptCode(offs: seq<nat>, e: Option<Expr>, l: int): seq<Item> {
    match e case None => [] case Some(x) => Code(offs, x, l)
  }

  function OptLabels(e: Option<Expr>): nat { match e case None => 0 case Some(x) => ELabels(x) }

  function SLabels(st: Stmt): nat {
    match st
    case ExprS(e) => ELabels(e)
    case Return(e) => ELabels(e)
    case If(c, t, f) => 2 + ELabels(c) + SLabels(t) + SLabels(f)
    case While(c, b) => 2 + ELabels(c) + SLabels(b)
    case For(i, c, n, b) => 3 + OptLabels(i) + OptLabels(c) + SLabels(b) + OptLabels(n)
    case Switch(c, b) => 1 + ELabels(c) + |Semantics.Cases(b)| + SLabels(b)
    case Case(_, b) => SLabels(b)
    case Break | Continue => 0
    case Block(ss) => LLabels(ss)
  }

  function LLabels(ss: Stmts): nat { match ss case SNil => 0 case SCons(h, t) => SLabels(h) + LLabels(t) }

  /** The surroundings of a statement: frame offsets, guard, and the labels `break` and
      `continue` go to (-1 outside a loop). */
  datatype Cx = Cx(offs: seq<nat>, tick: Option<int>, brk: int, cont: int)

  const RET: int := 0    // the epilogue's label

  function ForHead(l: int, i: Option<Expr>): int { l + 3 + OptLabels(i) }

  /** From the test of a for loop to its end; `l` is the loop's first label. */
  function ForCode(cx: Cx, l: int, st: Stmt, first: int): seq<Item>
    requires st.For?
    decreases st, 0
  {
    var lc := ForHead(l, st.init);
    var lb := lc + OptLabels(st.cond);
    OptCode(cx.offs, st.cond, lc) + (if st.cond.Some? then [J(JCbz, l + 2)] else [])
    + SCode(cx.(brk := l + 2, cont := l + 1), st.body, lb, first)
    + OptCode(cx.offs, st.inc, lb + SLabels(st.body))
    + TickCode(cx.tick, l + 2) + [J(JB, l)]
  }

  /** Code of a statement; `first` is the label of its first case label. */
  function SCode(cx: Cx, st: Stmt, l: int, first: int): seq<Item>
    decreases st, 1
  {
    match st
    case ExprS(e) => Code(cx.offs, e, l)
    case Return(e) => Code(cx.offs, e, l) + [J(JB, RET)]
    case If(c, t, f) =>
      var lt := l + 2 + ELabels(c);
      Code(cx.offs, c, l + 2) + [J(JCbz, l)] + SCode(cx, t, lt, first) + [J(JB, l + 1)]
      + SCode(cx, f, lt + SLabels(t), first - |Semantics.Cases(t)|)
    case While(c, b) =>
      Code(cx.offs, c, l + 2) + [J(JCbz, l + 1)]
      + SCode(cx.(brk := l + 1, cont := l), b, l + 2 + ELabels(c), first)
      + TickCode(cx.tick, l + 1) + [J(JB, l)]
    case For(i, _, _, _) => OptCode(cx.offs, i, l + 3) + ForCode(cx, l, st, first)
    case Switch(c, b) =>
      var cs := Semantics.Cases(b);
      var lc := l + 1 + ELabels(c);
      var f := lc + |cs| - 1;
      Code(cx.offs, c, l + 1) + DispatchCode(cs, f)
      + [J(JB, if Semantics.Default(cs) >= 0 then f - Semantics.Default(cs) else l)]
      + SCode(cx.(brk := l), b, lc + |cs|, f)
    case Case(_, b) => SCode(cx, b, l, first - 1)
    case Break => [J(JB, cx.brk)]
    case Continue => [J(JB, cx.cont)]
    case Block(ss) => LCode(cx, ss, l, first)
  }

  function LCode(cx: Cx, ss: Stmts, l: int, first: int): seq<Item>
    decreases ss, 0
  {
    match ss
    case SNil => []
    case SCons(h, t) => SCode(cx, h, l, first) + LCode(cx, t, l + SLabels(h), first - |Semantics.Cases(h)|)
  }

  ghost predicate LabelAt(labs: map<int, int>, l: int, pos: int) { l in labs && labs[l] == pos }

  ghost predicate OptPlaced(offs: seq<nat>, e: Option<Expr>, l: int, pos: int, labs: map<int, int>) {
    match e case None => true case Some(x) => Placed(offs, x, l, pos, labs)
  }

  /** Where the labels of a statement lie when its code starts at word `pos`. */
  ghost predicate SPlaced(cx: Cx, st: Stmt, l: int, first: int, pos: int, labs: map<int, int>)
    decreases st, 1
  {
    match st
    case ExprS(e) => Placed(cx.offs, e, l, pos, labs)
    case Return(e) => Placed(cx.offs, e, l, pos, labs)
    case If(c, t, f) =>
      var lt := l + 2 + ELabels(c);
      var pt := pos + |Code(cx.offs, c, l + 2)| + 1;
      var pf := pt + |SCode(cx, t, lt, first)| + 1;
      && Placed(cx.offs, c, l + 2, pos, labs)
      && SPlaced(cx, t, lt, first, pt, labs)
      && SPlaced(cx, f, lt + SLabels(t), first - |Semantics.Cases(t)|, pf, labs)
      && LabelAt(labs, l, pf) && LabelAt(labs, l + 1, pos + |SCode(cx, st, l, first)|)
    case While(c, b) =>
      && Placed(cx.offs, c, l + 2, pos, labs)
      && SPlaced(cx.(brk := l + 1, cont := l), b, l + 2 + ELabels(c), first, pos + |Code(cx.offs, c, l + 2)| + 1, labs)
      && LabelAt(labs, l, pos) && LabelAt(labs, l + 1, pos + |SCode(cx, st, l, first)|)
    case For(i, _, _, _) =>
      && OptPlaced(cx.offs, i, l + 3, pos, labs)
      && ForPlaced(cx, l, st, first, pos + |OptCode(cx.offs, i, l + 3)|, labs)
    case Switch(c, b) =>
      var cs := Semantics.Cases(b);
      var lc := l + 1 + ELabels(c);
      var f := lc + |cs| - 1;
      && Placed(cx.offs, c, l + 1, pos, labs)
      && SPlaced(cx.(brk := l), b, lc + |cs|, f, pos + |Code(cx.offs, c, l + 1)| + |DispatchCode(cs, f)| + 1, labs)
      && LabelAt(labs, l, pos + |SCode(cx, st, l, first)|)
    case Case(_, b) => LabelAt(labs, first, pos) && SPlaced(cx, b, l, first - 1, pos, labs)
    case Break | Continue => true
    case Block(ss) => LPlaced(cx, ss, l, first, pos, labs)
  }

  ghost predicate ForPlaced(cx: Cx, l: int, st: Stmt, first: int, pos: int, labs: map<int, int>)
    requires st.For?
    decreases st, 0
  {
    var lc := ForHead(l, st.init);
    var lb := lc + OptLabels(st.cond);
    var pb := pos + |OptCode(cx.offs, st.cond, lc)| + (if st.cond.Some? then 1 else 0);
    var cx1 := cx.(brk := l + 2, cont := l + 1);
    var pi := pb + |SCode(cx1, st.body, lb, first)|;
    && OptPlaced(cx.offs, st.cond, lc, pos, labs)
    && SPlaced(cx1, st.body, lb, first, pb, labs)
    && OptPlaced(cx.offs, st.inc, lb + SLabels(st.body), pi, labs)
    && LabelAt(labs, l, pos) && LabelAt(labs, l + 1, pi) && LabelAt(labs, l + 2, pos + |ForCode(cx, l, st, first)|)
  }

  ghost predicate LPlaced(cx: Cx, ss: Stmts, l: int, first: int, pos: int, labs: map<int, int>)
    decreases ss, 0
  {
    match ss
    case SNil => true
    case SCons(h, t) =>
      && SPlaced(cx, h, l, first, pos, labs)
      && LPlaced(cx, t, l + SLabels(h), first - |Semantics.Cases(h)|, pos + |SCode(cx, h, l, first)|, labs)
  }

  // ---------------------------------------------------------------- functions

  function SpillCode(fn: Func, offs: seq<nat>, k: nat): seq<Item>
    decreases |fn.params| - k
  {
    if k >= |fn.params| || fn.params[k] >= |offs| || fn.params[k] >= |fn.locals| then []
    else
      var o := offs[fn.params[k]];
      (if o <= 0xFFF then [I(SubImm(9, 29, o))] else LoadImm(9, ToU(o)) + [I(SubRRR(9, 29, 9))])
      + [I(if Size(fn.locals[fn.params[k]]) == 1 then Strb(k, 9) else Str(k, 9))]
      + SpillCode(fn, offs, k + 1)
  }

  function Prologue(frame: nat): seq<Item> {
    [I(StpFrame), I(AddImm(29, 31, 0))]
    + (if frame == 0 then []
       else if frame <= 0xFFF then [I(SubImm(31, 31, frame))]
       else LoadImm(9, ToU(frame)) + [I(SubRRR(31, 31, 9))])
  }

  function Epilogue(): seq<Item> { [I(AddImm(31, 29, 0)), I(LdpFrame), I(Ret)] }

  function BodyCx(p: Prog, fn: Func): Cx { Cx(Offsets(fn.locals), p.tick, -1, -1) }

  function Entrance(fn: Func): seq<Item> { Prologue(Frame(fn.locals)) + SpillCode(fn, Offsets(fn.locals), 0) }

  function FCode(p: Prog, fn: Func): seq<Item> {
    Entrance(fn) + SCode(BodyCx(p, fn), fn.body, 1, -1) + [I(Movz(0, 0))] + Epilogue()
  }

  ghost predicate FPlaced(p: Prog, fn: Func, pos: int, labs: map<int, int>) {
    var pb := pos + |Entrance(fn)|;
    && SPlaced(BodyCx(p, fn), fn.body, 1, -1, pb, labs)
    && LabelAt(labs, RET, pb + |SCode(BodyCx(p, fn), fn.body, 1, -1)| + 1)
  }
}
