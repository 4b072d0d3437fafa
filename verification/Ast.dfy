/** The C subset after parsing: types, expressions, statements, functions. */
module Ast {
  import opened Options

  datatype Ty = TInt | TChar | TPtr(base: Ty) | TArray(elem: Ty, len: nat) | TStruct(size: nat)

  function Size(t: Ty): nat {
    match t
    case TInt => 8
    case TChar => 1
    case TPtr(_) => 8
    case TArray(e, n) => Size(e) * n
    case TStruct(n) => n
  }

  /** A local is an index into its function's list of locals; a global is its address. */
  datatype Ref = Local(i: nat) | Global(addr: int)

  datatype Op = Add | Sub | Mul | Div | Mod | Eq | Ne | Lt | Le

  datatype Callee = User(i: nat) | Builtin(addr: int)

  datatype Expr =
    | Num(v: int)
    | Text(addr: int)                       // a string literal is the address of its bytes
    | Var(r: Ref, ty: Ty)
    | Assign(lhs: Expr, rhs: Expr)
    | Deref(p: Expr, ty: Ty)
    | Member(b: Expr, off: nat, ty: Ty)
    | AddrOf(e: Expr)
    | Neg(e: Expr)
    | Not(e: Expr)
    | And(l: Expr, r2: Expr)
    | Or(l: Expr, r2: Expr)
    | Bin(op: Op, l: Expr, r2: Expr)
    | Call(f: Callee, args: Exprs)

  datatype Exprs = ENil | ECons(hd: Expr, tl: Exprs)

  function Count(es: Exprs): nat { match es case ENil => 0 case ECons(_, t) => 1 + Count(t) }

  /** The type an assignment stores at. */
  function TyOf(e: Expr): Ty {
    match e
    case Var(_, t) => t
    case Deref(_, t) => t
    case Member(_, _, t) => t
    case Text(_) => TPtr(TChar)
    case _ => TInt
  }

  /** A missing `else` is an empty block, for which the generator emits nothing. */
  datatype Stmt =
    | ExprS(e: Expr)
    | Return(e: Expr)
    | If(c: Expr, t: Stmt, f: Stmt)
    | While(c: Expr, body: Stmt)
    | For(init: Option<Expr>, cond: Option<Expr>, inc: Option<Expr>, body: Stmt)
    | Switch(c: Expr, body: Stmt)
    | Case(lab: Option<int>, s: Stmt)       // None is `default`
    | Break
    | Continue
    | Block(ss: Stmts)

  datatype Stmts = SNil | SCons(hd: Stmt, tl: Stmts)

  datatype Func = Func(locals: seq<Ty>, params: seq<nat>, body: Stmt)

  /** `tick` is the address of the runaway-loop guard, when there is one. */
  datatype Prog = Prog(funcs: seq<Func>, tick: Option<int>)

  // ---------------------------------------------------------------- frame layout

  function AlignUp(n: nat, a: nat): nat
    requires a > 0
  {
    (n + a - 1) / a * a
  }

  /** Offsets below x29, in list order, starting from `off` bytes already given out. */
  function OffsetsFrom(tys: seq<Ty>, off: nat): seq<nat> {
    if tys == [] then [] else
      var o := AlignUp(off + Size(tys[0]), 8);
      [o] + OffsetsFrom(tys[1..], o)
  }

  function Offsets(tys: seq<Ty>): seq<nat> { OffsetsFrom(tys, 0) }

  function Frame(tys: seq<Ty>): nat {
    var os := Offsets(tys);
    AlignUp(if os == [] then 0 else os[|os| - 1], 16)
  }

  lemma AlignUpBounds(n: nat, a: nat)
    requires a == 8 || a == 16
    ensures n <= AlignUp(n, a) < n + a && AlignUp(n, a) % a == 0
  {
  }

  lemma {:induction false} OffsetsShape(tys: seq<Ty>, off: nat)
    requires off % 8 == 0
    ensures var os := OffsetsFrom(tys, off);
            && |os| == |tys|
            && (forall i :: 0 <= i < |os| ==> os[i] % 8 == 0 && off + Size(tys[i]) <= os[i])
            && (forall i, j :: 0 <= i < j < |os| ==> os[i] + Size(tys[j]) <= os[j])
  {
    if tys != [] {
      var o := AlignUp(off + Size(tys[0]), 8);
      AlignUpBounds(off + Size(tys[0]), 8);
      OffsetsShape(tys[1..], o);
      var os := OffsetsFrom(tys, off);
      assert forall i :: 0 < i < |os| ==> os[i] == OffsetsFrom(tys[1..], o)[i - 1] && tys[i] == tys[1..][i - 1];
    }
  }

  /** The frame layout: every slot is 8-aligned and inside the frame, and two slots never
      share a byte.  Slot i of a function whose frame pointer is fp is
      [fp - off(i), fp - off(i) + size(i)). */
  lemma SlotsDisjoint(tys: seq<Ty>, i: nat, j: nat)
    requires i < |tys| && j < |tys| && i != j
    ensures |Offsets(tys)| == |tys|
    ensures var os := Offsets(tys);
            && os[i] % 8 == 0 && Size(tys[i]) <= os[i] <= Frame(tys)
            && Frame(tys) % 16 == 0
            && (os[j] + Size(tys[i]) <= os[i] || os[i] + Size(tys[j]) <= os[j])
  {
    OffsetsShape(tys, 0);
    var last := Offsets(tys)[|tys| - 1];
    assert forall k :: 0 <= k < |tys| ==> Offsets(tys)[k] <= last;
    AlignUpBounds(last, 16);
  }
}
