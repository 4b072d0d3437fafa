/** Well-formed programs and what it means for one to be loaded. */
module Programs {
  import opened Options
  import opened Word
  import opened Mem
  import opened Arm
  import opened Cpu
  import opened Ast
  import opened Emit
  import opened Loaded
  import opened Sim
  import S = Semantics

  predicate Lvalue(e: Expr) {
    match e
    case Var(_, _) | Deref(_, _) | Text(_) => true
    case Member(b, _, _) => Lvalue(b)
    case _ => false
  }

  /** What parsing and name resolution guarantee (an unresolved name has address 0), with
      member offsets the immediate form can hold. */
  predicate WfE(nf: nat, nl: nat, e: Expr) {
    match e
    case Num(_) | Text(_) => true
    case Var(Local(i), _) => i < nl
    case Var(Global(_), _) => true
    case Assign(x, r) => Lvalue(x) && WfE(nf, nl, x) && WfE(nf, nl, r)
    case Deref(p, _) => WfE(nf, nl, p)
    case Member(b, off, _) => Lvalue(b) && off <= 0xFFF && WfE(nf, nl, b)
    case AddrOf(x) => Lvalue(x) && WfE(nf, nl, x)
    case Neg(x) => WfE(nf, nl, x)
    case Not(x) => WfE(nf, nl, x)
    case And(x, r) => WfE(nf, nl, x) && WfE(nf, nl, r)
    case Or(x, r) => WfE(nf, nl, x) && WfE(nf, nl, r)
    case Bin(_, x, r) => WfE(nf, nl, x) && WfE(nf, nl, r)
    case Call(f, args) => (if f.User? then f.i < nf else f.addr != 0) && Count(args) <= 8 && WfArgs(nf, nl, args)
  }

  predicate WfArgs(nf: nat, nl: nat, es: Exprs) {
    match es case ENil => true case ECons(e, t) => WfE(nf, nl, e) && WfArgs(nf, nl, t)
  }

  predicate WfOpt(nf: nat, nl: nat, e: Option<Expr>) { e.Some? ==> WfE(nf, nl, e.value) }

  predicate WfS(nf: nat, nl: nat, st: Stmt, brk: bool, cont: bool) {
    match st
    case ExprS(e) => WfE(nf, nl, e)
    case Return(e) => WfE(nf, nl, e)
    case If(c, t, f) => WfE(nf, nl, c) && WfS(nf, nl, t, brk, cont) && WfS(nf, nl, f, brk, cont)
    case While(c, b) => WfE(nf, nl, c) && WfS(nf, nl, b, true, true)
    case For(i, c, n, b) => WfOpt(nf, nl, i) && WfOpt(nf, nl, c) && WfOpt(nf, nl, n) && WfS(nf, nl, b, true, true)
    case Switch(c, b) => WfE(nf, nl, c) && WfS(nf, nl, b, true, cont)
    case Case(_, b) => WfS(nf, nl, b, brk, cont)
    case Break => brk
    case Continue => cont
    case Block(ss) => WfL(nf, nl, ss, brk, cont)
  }

  predicate WfL(nf: nat, nl: nat, ss: Stmts, brk: bool, cont: bool) {
    match ss case SNil => true case SCons(h, t) => WfS(nf, nl, h, brk, cont) && WfL(nf, nl, t, brk, cont)
  }

  /** The frame must fit the immediate form of SUB. */
  predicate WfFunc(nf: nat, fn: Func) {
    && |fn.params| <= 8 && (forall k :: 0 <= k < |fn.params| ==> fn.params[k] < |fn.locals|)
    && Frame(fn.locals) <= 0xFFF
    && S.Cases(fn.body) == [] && WfS(nf, |fn.locals|, fn.body, false, false)
  }

  ghost predicate FuncLoaded(im: Image, p: Prog, f: nat)
    requires f < |p.funcs| && |im.entry| == |im.tabs| == |p.funcs|
  {
    && Holding(im, im.tabs[f], im.entry[f], FCode(p, p.funcs[f]))
    && FPlaced(p, p.funcs[f], im.entry[f], im.tabs[f])
    && WfFunc(|p.funcs|, p.funcs[f])
  }

  /** The code buffer holds the whole program, word-aligned in a 64-bit address space. */
  ghost predicate Good(im: Image, g: S.Env) {
    && im.m.world == g.w && BuiltinsOutside(im)
    && 0 <= im.m.base && im.m.base % 4 == 0 && im.m.base + 4 * |im.m.code| < M64
    && |im.entry| == |im.tabs| == |g.p.funcs|
    && forall f :: 0 <= f < |g.p.funcs| ==> FuncLoaded(im, g.p, f)
  }

  /** The code buffer, the current function's label table, the source surroundings. */
  datatype Ctx = Ctx(im: Image, labs: map<int, int>, g: S.Env)

  ghost predicate Ready(c: Ctx, items: seq<Item>, pos: int, sp: int, s: S.Store, st: State) {
    Good(c.im, c.g) && Holding(c.im, c.labs, pos, items) && Rel(c.g, s, sp, st) && st.pc == PcOf(c.im, pos)
  }
}
