/** The generator preserves meaning: whatever a defined, terminating source computation
    yields, running the emitted words yields too. */
module Correct {
  import opened Options
  import opened Word
  import opened Mem
  import opened Arm
  import opened Cpu
  import opened Ast
  import opened Emit
  import opened Loaded
  import opened Sim
  import opened Programs
  import opened Pieces
  import S = Semantics

  // ---------------------------------------------------------------- expressions

  ghost predicate ExprReady(c: Ctx, e: Expr, l: int, pos: int, sp: int, s: S.Store, st: State) {
    && Ready(c, Code(c.g.offs, e, l), pos, sp, s, st) && Placed(c.g.offs, e, l, pos, c.labs)
    && WfE(|c.g.p.funcs|, |c.g.offs|, e)
  }

  lemma ExprOk(c: Ctx, e: Expr, l: int, pos: int, sp: int, s: S.Store, fuel: nat, st: State, v: i64, s': S.Store)
      returns (st': State)
    requires ExprReady(c, e, l, pos, sp, s, st)
    requires S.Eval(c.g, e, sp, s, fuel) == S.Ok((v, s'))
    ensures Did(c.im, c.g, s, s', sp, st, st', pos + |Code(c.g.offs, e, l)|) && st'.x[0] == ToU(v)
    decreases fuel, e, 2
  {
    hide Did, Rel, Kept, Holding, Good, Reaches;
    match e
    case Num(n) =>
      WrapPattern(n);
      st' := ConstOk(c.im, c.labs, pos, 0, ToU(n), c.g, s, sp, st);
    case Text(a) =>
      WrapPattern(a);
      st' := ConstOk(c.im, c.labs, pos, 0, ToU(a), c.g, s, sp, st);
    case Var(_, _) => st' := ReadOk(c, e, l, pos, sp, s, fuel, st, v, s');
    case Member(_, _, _) => st' := ReadOk(c, e, l, pos, sp, s, fuel, st, v, s');
    case Deref(_, _) => st' := DerefOk(c, e, l, pos, sp, s, fuel, st, v, s');
    case AddrOf(x) =>
      var a := S.EvalAddr(c.g, x, sp, s, fuel).v.0;
      SignRoundTrip(0, a);
      st' := AddrOk(c, x, l, pos, sp, s, fuel, st, a, s');
    case Assign(_, _) => st' := AssignOk(c, e, l, pos, sp, s, fuel, st, v, s');
    case Neg(_) => st' := UnaryOk(c, e, l, pos, sp, s, fuel, st, v, s');
    case Not(_) => st' := UnaryOk(c, e, l, pos, sp, s, fuel, st, v, s');
    case And(_, _) => st' := LogicOk(c, e, l, pos, sp, s, fuel, st, v, s');
    case Or(_, _) => st' := LogicOk(c, e, l, pos, sp, s, fuel, st, v, s');
    case Bin(_, _, _) => st' := BinOk(c, e, l, pos, sp, s, fuel, st, v, s');
    case Call(_, _) => st' := CallOk(c, e, l, pos, sp, s, fuel, st, v, s');
  }

  lemma ReadOk(c: Ctx, e: Expr, l: int, pos: int, sp: int, s: S.Store, fuel: nat, st: State, v: i64, s': S.Store)
      returns (st': State)
    requires e.Var? || e.Member?
    requires ExprReady(c, e, l, pos, sp, s, st) && S.Eval(c.g, e, sp, s, fuel) == S.Ok((v, s'))
    ensures Did(c.im, c.g, s, s', sp, st, st', pos + |Code(c.g.offs, e, l)|) && st'.x[0] == ToU(v)
    decreases fuel, e, 1
  {
    hide Rel, Kept, Holding, Good, LoadSeq, S.LoadAt, Reaches;
    var a := AddrCode(c.g.offs, e, l);
    HoldingParts(c.im, c.labs, pos, a, LoadSeq(e.ty));
    var (adr, s1) := S.EvalAddr(c.g, e, sp, s, fuel).v;
    var st1 := AddrOk(c, e, l, pos, sp, s, fuel, st, adr, s1);
    st' := LoadOk(c.im, c.labs, pos + |a|, e.ty, c.g, s1, sp, st1, adr, v);
    DidTrans(c.im, c.g, s, s1, s', sp, st, st1, st', pos + |a|, pos + |a| + |LoadSeq(e.ty)|);
  }

  lemma DerefOk(c: Ctx, e: Expr, l: int, pos: int, sp: int, s: S.Store, fuel: nat, st: State, v: i64, s': S.Store)
      returns (st': State)
    requires e.Deref?
    requires ExprReady(c, e, l, pos, sp, s, st) && S.Eval(c.g, e, sp, s, fuel) == S.Ok((v, s'))
    ensures Did(c.im, c.g, s, s', sp, st, st', pos + |Code(c.g.offs, e, l)|) && st'.x[0] == ToU(v)
    decreases fuel, e, 1
  {
    hide Rel, Kept, Holding, Good, LoadSeq, S.LoadAt, Reaches;
    var a := Code(c.g.offs, e.p, l);
    HoldingParts(c.im, c.labs, pos, a, LoadSeq(e.ty));
    var (p, s1) := S.Eval(c.g, e.p, sp, s, fuel).v;
    var st1 := ExprOk(c, e.p, l, pos, sp, s, fuel, st, p, s1);
    st' := LoadOk(c.im, c.labs, pos + |a|, e.ty, c.g, s1, sp, st1, ToU(p), v);
    DidTrans(c.im, c.g, s, s1, s', sp, st, st1, st', pos + |a|, pos + |a| + |LoadSeq(e.ty)|);
  }

  lemma UnaryInv(g: S.Env, e: Expr, sp: int, s: S.Store, fuel: nat, v: i64, s': S.Store) returns (p: i64)
    requires (e.Neg? || e.Not?) && S.Eval(g, e, sp, s, fuel) == S.Ok((v, s'))
    ensures S.Eval(g, e.e, sp, s, fuel) == S.Ok((p, s')) && v == if e.Neg? then Wrap(0 - p) else S.Bool(p == 0)
  {
    hide S.EvalAddr, S.EvalArgs;
    p := S.Eval(g, e.e, sp, s, fuel).v.0;
  }

  lemma UnaryParts(c: Ctx, e: Expr, l: int, pos: int)
    requires (e.Neg? || e.Not?) && Placed(c.g.offs, e, l, pos, c.labs) && WfE(|c.g.p.funcs|, |c.g.offs|, e)
    ensures Code(c.g.offs, e, l)
            == Code(c.g.offs, e.e, l) + (if e.Neg? then [I(SubRRR(0, 31, 0))] else [I(Cmp0(0)), I(Cset(0, EQ))])
    ensures Placed(c.g.offs, e.e, l, pos, c.labs) && WfE(|c.g.p.funcs|, |c.g.offs|, e.e)
  {
    hide OpSeq, LoadImm, LoadSeq, CallSeq, PopSeq;
  }

  lemma UnaryOk(c: Ctx, e: Expr, l: int, pos: int, sp: int, s: S.Store, fuel: nat, st: State, v: i64, s': S.Store)
      returns (st': State)
    requires e.Neg? || e.Not?
    requires ExprReady(c, e, l, pos, sp, s, st) && S.Eval(c.g, e, sp, s, fuel) == S.Ok((v, s'))
    ensures Did(c.im, c.g, s, s', sp, st, st', pos + |Code(c.g.offs, e, l)|) && st'.x[0] == ToU(v)
    decreases fuel, e, 1
  {
    hide Rel, Kept, Holding, Good, Reaches, S.Eval, Code, Placed, WfE;
    var a := Code(c.g.offs, e.e, l);
    var tail := if e.Neg? then [I(SubRRR(0, 31, 0))] else [I(Cmp0(0)), I(Cset(0, EQ))];
    UnaryParts(c, e, l, pos);
    HoldingParts(c.im, c.labs, pos, a, tail);
    var p := UnaryInv(c.g, e, sp, s, fuel, v, s');
    var s1 := s';
    var st1 := ExprOk(c, e.e, l, pos, sp, s, fuel, st, p, s1);
    if e.Neg? {
      st' := NegOk(c.im, c.labs, pos + |a|, p, st1);
    } else {
      st' := NotOk(c.im, c.labs, pos + |a|, p, st1);
    }
    DidRegs(c.im, c.g, s1, sp, st1, st', pos + |a| + |tail|);
    DidTrans(c.im, c.g, s, s1, s', sp, st, st1, st', pos + |a|, pos + |a| + |tail|);
  }

  lemma BinInv(g: S.Env, e: Expr, sp: int, s: S.Store, fuel: nat, v: i64, s': S.Store)
      returns (y: i64, s1: S.Store, x: i64)
    requires e.Bin? && S.Eval(g, e, sp, s, fuel) == S.Ok((v, s'))
    ensures S.Eval(g, e.r2, sp, s, fuel) == S.Ok((y, s1)) && sp - 16 >= g.lo
    ensures S.Eval(g, e.l, sp - 16, s1, fuel) == S.Ok((x, s')) && v == S.Apply(e.op, x, y)
  {
    hide S.Apply, S.EvalAddr, S.EvalArgs;
    var r1 := S.Eval(g, e.r2, sp, s, fuel).v;
    y, s1 := r1.0, r1.1;
    x := S.Eval(g, e.l, sp - 16, s1, fuel).v.0;
  }

  lemma BinParts(c: Ctx, e: Expr, l: int, pos: int)
    requires e.Bin? && Placed(c.g.offs, e, l, pos, c.labs) && WfE(|c.g.p.funcs|, |c.g.offs|, e)
    ensures var a, b := Code(c.g.offs, e.r2, l), Code(c.g.offs, e.l, l + ELabels(e.r2));
            && Code(c.g.offs, e, l) == a + [I(Push)] + b + [I(Pop(1))] + OpSeq(e.op)
            && Placed(c.g.offs, e.r2, l, pos, c.labs) && WfE(|c.g.p.funcs|, |c.g.offs|, e.r2)
            && Placed(c.g.offs, e.l, l + ELabels(e.r2), pos + |a| + 1, c.labs) && WfE(|c.g.p.funcs|, |c.g.offs|, e.l)
  {
    hide OpSeq, LoadImm, LoadSeq, CallSeq, PopSeq;
  }

  lemma BinOk(c: Ctx, e: Expr, l: int, pos: int, sp: int, s: S.Store, fuel: nat, st: State, v: i64, s': S.Store)
      returns (st': State)
    requires e.Bin?
    requires ExprReady(c, e, l, pos, sp, s, st) && S.Eval(c.g, e, sp, s, fuel) == S.Ok((v, s'))
    ensures Did(c.im, c.g, s, s', sp, st, st', pos + |Code(c.g.offs, e, l)|) && st'.x[0] == ToU(v)
    decreases fuel, e, 1
  {
    hide Holding, Good, S.Apply, OpSeq, Saved, Rel, Kept, S.Eval, Code, Placed, WfE, Reaches;
    BinParts(c, e, l, pos);
    var y, s1, x := BinInv(c.g, e, sp, s, fuel, v, s');
    var s2 := s';
    var a, b, o := Code(c.g.offs, e.r2, l), Code(c.g.offs, e.l, l + ELabels(e.r2)), OpSeq(e.op);
    var q1, q2 := pos + |a|, pos + |a| + 1 + |b|;
    HoldingTwo(c, pos, a, b, o);
    var st1 := ExprOk(c, e.r2, l, pos, sp, s, fuel, st, y, s1);
    RelBounds(c.g, s1, sp, st1);
    var st2 := TempPush(c, q1, [I(Push)], 0, s1, sp, st1);
    var st3 := ExprOk(c, e.l, l + ELabels(e.r2), q1 + 1, sp - 16, s1, fuel, st2, x, s2);
    RelBounds(c.g, s2, sp - 16, st3);
    var st4 := TempPop(c, q2, [I(Pop(1))], 0, s1, s2, sp, st1, st2, st3, 1, ToU(y));
    st' := OpOk(c.im, c.labs, q2 + 1, e.op, x, y, st4);
    DidRegs(c.im, c.g, s2, sp, st4, st', q2 + 1 + |o|);
    DidTrans(c.im, c.g, s1, s2, s', sp, st1, st4, st', q2 + 1, q2 + 1 + |o|);
    DidTrans(c.im, c.g, s, s1, s', sp, st, st1, st', q1, q2 + 1 + |o|);
  }

  lemma AssignInv(g: S.Env, e: Expr, sp: int, s: S.Store, fuel: nat, v: i64, s': S.Store)
      returns (y: u64, s1: S.Store, s2: S.Store)
    requires e.Assign? && S.Eval(g, e, sp, s, fuel) == S.Ok((v, s'))
    ensures S.EvalAddr(g, e.lhs, sp, s, fuel) == S.Ok((y, s1)) && sp - 16 >= g.lo
    ensures S.Eval(g, e.rhs, sp - 16, s1, fuel) == S.Ok((v, s2)) && S.StoreAt(TyOf(e.lhs), y, v, s2) == S.Ok(s')
  {
    hide S.EvalAddr, S.EvalArgs, S.StoreAt;
    var r1 := S.EvalAddr(g, e.lhs, sp, s, fuel).v;
    y, s1 := r1.0, r1.1;
    s2 := S.Eval(g, e.rhs, sp - 16, s1, fuel).v.1;
  }

  lemma AssignParts(c: Ctx, e: Expr, l: int, pos: int)
    requires e.Assign? && Placed(c.g.offs, e, l, pos, c.labs) && WfE(|c.g.p.funcs|, |c.g.offs|, e)
    ensures var a, b := AddrCode(c.g.offs, e.lhs, l), Code(c.g.offs, e.rhs, l + ELabels(e.lhs));
            && Code(c.g.offs, e, l) == a + [I(Push)] + b + [I(Pop(1))] + StoreSeq(TyOf(e.lhs))
            && Placed(c.g.offs, e.lhs, l, pos, c.labs) && WfE(|c.g.p.funcs|, |c.g.offs|, e.lhs) && Lvalue(e.lhs)
            && Placed(c.g.offs, e.rhs, l + ELabels(e.lhs), pos + |a| + 1, c.labs)
               && WfE(|c.g.p.funcs|, |c.g.offs|, e.rhs)
  {
    hide StoreSeq, LoadImm, LoadSeq, CallSeq, PopSeq, OpSeq;
  }

  lemma AssignOk(c: Ctx, e: Expr, l: int, pos: int, sp: int, s: S.Store, fuel: nat, st: State, v: i64, s': S.Store)
      returns (st': State)
    requires e.Assign?
    requires ExprReady(c, e, l, pos, sp, s, st) && S.Eval(c.g, e, sp, s, fuel) == S.Ok((v, s'))
    ensures Did(c.im, c.g, s, s', sp, st, st', pos + |Code(c.g.offs, e, l)|) && st'.x[0] == ToU(v)
    decreases fuel, e, 1
  {
    hide Holding, Good, Saved, S.StoreAt, Rel, Kept, S.Eval, S.EvalAddr, Code, AddrCode, Placed, WfE, Reaches;
    AssignParts(c, e, l, pos);
    var y, s1, s2 := AssignInv(c.g, e, sp, s, fuel, v, s');
    var a, b := AddrCode(c.g.offs, e.lhs, l), Code(c.g.offs, e.rhs, l + ELabels(e.lhs));
    var o := StoreSeq(TyOf(e.lhs));
    var q1, q2 := pos + |a|, pos + |a| + 1 + |b|;
    HoldingTwo(c, pos, a, b, o);
    var st1 := AddrOk(c, e.lhs, l, pos, sp, s, fuel, st, y, s1);
    RelBounds(c.g, s1, sp, st1);
    var st2 := TempPush(c, q1, [I(Push)], 0, s1, sp, st1);
    var st3 := ExprOk(c, e.rhs, l + ELabels(e.lhs), q1 + 1, sp - 16, s1, fuel, st2, v, s2);
    RelBounds(c.g, s2, sp - 16, st3);
    var st4 := TempPop(c, q2, [I(Pop(1))], 0, s1, s2, sp, st1, st2, st3, 1, y);
    st' := StoreOk(c.im, c.labs, q2 + 1, TyOf(e.lhs), 0, 1, o, 0, c.g, s2, sp, st4, v, s');
    DidTrans(c.im, c.g, s1, s2, s', sp, st1, st4, st', q2 + 1, q2 + 2);
    DidTrans(c.im, c.g, s, s1, s', sp, st, st1, st', q1, q2 + 2);
  }

  // ---------------------------------------------------------------- addresses

  lemma AddrOk(c: Ctx, e: Expr, l: int, pos: int, sp: int, s: S.Store, fuel: nat, st: State, a: u64, s': S.Store)
      returns (st': State)
    requires Ready(c, AddrCode(c.g.offs, e, l), pos, sp, s, st) && Placed(c.g.offs, e, l, pos, c.labs)
    requires WfE(|c.g.p.funcs|, |c.g.offs|, e) && Lvalue(e)
    requires S.EvalAddr(c.g, e, sp, s, fuel) == S.Ok((a, s'))
    ensures Did(c.im, c.g, s, s', sp, st, st', pos + |AddrCode(c.g.offs, e, l)|) && st'.x[0] == a
    decreases fuel, e, 0
  {
    hide Holding, Good, Kept, Did, Reaches, S.Eval, Code;
    match e
    case Text(x) => st' := ConstOk(c.im, c.labs, pos, 0, ToU(x), c.g, s, sp, st);
    case Var(Global(x), _) => st' := ConstOk(c.im, c.labs, pos, 0, ToU(x), c.g, s, sp, st);
    case Var(Local(i), _) => st' := LocalOk(c, 0, c.g.offs[i], pos, AddrCode(c.g.offs, e, l), sp, s, st);
    case Deref(p, _) => st' := ExprOk(c, p, l, pos, sp, s, fuel, st, S.Eval(c.g, p, sp, s, fuel).v.0, s');
    case Member(b, off, _) =>
      var code := AddrCode(c.g.offs, b, l);
      var add := if off != 0 then [I(AddImm(0, 0, off % 0x1000))] else [];
      HoldingParts(c.im, c.labs, pos, code, add);
      var (x, s1) := S.EvalAddr(c.g, b, sp, s, fuel).v;
      var st1 := AddrOk(c, b, l, pos, sp, s, fuel, st, x, s1);
      assert Rel(c.g, s1, sp, st1) && st1.pc == PcOf(c.im, pos + |code|) by {
        DidParts(c.im, c.g, s, s1, sp, st, st1, pos + |code|);
      }
      st' := MemberOk(c, pos + |code|, off, sp, s1, st1);
      DidTrans(c.im, c.g, s, s1, s', sp, st, st1, st', pos + |code|, pos + |code| + |add|);
  }

  // ---------------------------------------------------------------- short circuits

  lemma LogicInv(g: S.Env, e: Expr, sp: int, s: S.Store, fuel: nat, v: i64, s': S.Store)
      returns (x: i64, s1: S.Store, y: i64)
    requires (e.And? || e.Or?) && S.Eval(g, e, sp, s, fuel) == S.Ok((v, s'))
    ensures S.Eval(g, e.l, sp, s, fuel) == S.Ok((x, s1))
    ensures if (x == 0) == e.And? then s' == s1 && v == S.Bool(x != 0)
            else S.Eval(g, e.r2, sp, s1, fuel) == S.Ok((y, s')) && v == S.Bool(y != 0)
  {
    hide S.EvalAddr, S.EvalArgs;
    var r1 := S.Eval(g, e.l, sp, s, fuel).v;
    x, s1 := r1.0, r1.1;
    if (x == 0) == e.And? { y := 0; } else { y := S.Eval(g, e.r2, sp, s1, fuel).v.0; }
  }

  lemma LogicParts(c: Ctx, e: Expr, l: int, pos: int)
    requires (e.And? || e.Or?) && Placed(c.g.offs, e, l, pos, c.labs) && WfE(|c.g.p.funcs|, |c.g.offs|, e)
    ensures var a, h, b := Code(c.g.offs, e.l, l + 2), FirstBranch(e, l), Code(c.g.offs, e.r2, l + 2 + ELabels(e.l));
            && Code(c.g.offs, e, l) == a + h + b + LogicTail(e, l)
            && Placed(c.g.offs, e.l, l + 2, pos, c.labs) && WfE(|c.g.p.funcs|, |c.g.offs|, e.l)
            && Placed(c.g.offs, e.r2, l + 2 + ELabels(e.l), pos + |a| + |h|, c.labs)
               && WfE(|c.g.p.funcs|, |c.g.offs|, e.r2)
            && LabelAt(c.labs, l, pos + |a| + |h| + |b| + 3) && LabelAt(c.labs, l + 1, pos + |a| + |h| + |b| + 4)
  {
    hide LoadImm, LoadSeq, CallSeq, PopSeq, OpSeq, StoreSeq;
  }

  lemma LogicOk(c: Ctx, e: Expr, l: int, pos: int, sp: int, s: S.Store, fuel: nat, st: State, v: i64, s': S.Store)
      returns (st': State)
    requires e.And? || e.Or?
    requires ExprReady(c, e, l, pos, sp, s, st) && S.Eval(c.g, e, sp, s, fuel) == S.Ok((v, s'))
    ensures Did(c.im, c.g, s, s', sp, st, st', pos + |Code(c.g.offs, e, l)|) && st'.x[0] == ToU(v)
    decreases fuel, e, 1
  {
    hide Holding, Good, Rel, Kept, S.Eval, Code, Placed, WfE, Reaches, FirstBranch;
    LogicParts(c, e, l, pos);
    var x, s1, y := LogicInv(c.g, e, sp, s, fuel, v, s');
    var a, h, b := Code(c.g.offs, e.l, l + 2), FirstBranch(e, l), Code(c.g.offs, e.r2, l + 2 + ELabels(e.l));
    var t := LogicTail(e, l);
    var q1, p1 := pos + |a|, pos + |a| + |h|;
    var p2 := p1 + |b|;
    HoldingParts(c.im, c.labs, pos, a + h + b, t);
    HoldingParts(c.im, c.labs, pos, a + h, b);
    HoldingParts(c.im, c.labs, pos, a, h);
    var st1 := ExprOk(c, e.l, l + 2, pos, sp, s, fuel, st, x, s1);
    var st2 := FirstBranchOk(c, e, l, q1, p2 + 3, x, s1, sp, st1);
    var over := (x == 0) == e.And?;
    var q2 := if over then p2 + 3 else p1;
    DidTrans(c.im, c.g, s, s1, s1, sp, st, st1, st2, q1, q2);
    if over {
      st' := TailOk(c, p2, t[0].j, l, t[1].i.imm, t[3].i.imm, s1, sp, st2);
      DidTrans(c.im, c.g, s, s1, s1, sp, st, st2, st', q2, p2 + 4);
    } else {
      var st3 := ExprOk(c, e.r2, l + 2 + ELabels(e.l), p1, sp, s1, fuel, st2, y, s');
      ZeroPattern(y);
      st' := TailOk(c, p2, t[0].j, l, t[1].i.imm, t[3].i.imm, s', sp, st3);
      DidTrans(c.im, c.g, s, s1, s', sp, st, st2, st3, p1, p2);
      DidTrans(c.im, c.g, s, s', s', sp, st, st3, st', p2, p2 + 4);
    }
  }

  // ---------------------------------------------------------------- arguments

  lemma ArgsParts(c: Ctx, e: Expr, t: Exprs, l: int, pos: int, sp: int, s: S.Store, fuel: nat, vs: seq<i64>,
      s': S.Store)
    returns (v: i64, s1: S.Store)
    requires S.EvalArgs(c.g, ECons(e, t), sp, s, fuel) == S.Ok((vs, s'))
    requires ArgsPlaced(c.g.offs, ECons(e, t), l, pos, c.labs) && WfArgs(|c.g.p.funcs|, |c.g.offs|, ECons(e, t))
    ensures S.Eval(c.g, e, sp, s, fuel) == S.Ok((v, s1)) && sp - 16 >= c.g.lo
    ensures |vs| > 0 && vs[0] == v && S.EvalArgs(c.g, t, sp - 16, s1, fuel) == S.Ok((vs[1..], s'))
    ensures var a := Code(c.g.offs, e, l);
            && ArgsCode(c.g.offs, ECons(e, t), l) == a + [I(Push)] + ArgsCode(c.g.offs, t, l + ELabels(e))
            && Placed(c.g.offs, e, l, pos, c.labs) && WfE(|c.g.p.funcs|, |c.g.offs|, e)
            && ArgsPlaced(c.g.offs, t, l + ELabels(e), pos + |a| + 1, c.labs) && WfArgs(|c.g.p.funcs|, |c.g.offs|, t)
  {
    hide S.Eval, Code, Placed, WfE;
    var r := S.Eval(c.g, e, sp, s, fuel).v;
    v, s1 := r.0, r.1;
    assert vs[1..] == S.EvalArgs(c.g, t, sp - 16, s1, fuel).v.0;
  }

  /** The arguments vs lie below sp, the first uppermost. */
  ghost predicate Piled(c: Ctx, s: S.Store, s': S.Store, sp: int, st: State, st': State, vs: seq<i64>) {
    && sp - 16 * |vs| >= c.g.lo && s'.alloc == s.alloc && Reaches(c.im.m, st, st') && Rel(c.g, s', sp - 16 * |vs|, st')
    && Kept(st.mem, st'.mem, s.alloc, c.g.lo, sp) && Stacked(st', sp, vs)
    && forall a :: sp - 16 * |vs| <= a < sp ==> a !in s.alloc && a in st'.mem
  }

  /** One argument on top of the others. */
  lemma PiledMore(c: Ctx, s: S.Store, s1: S.Store, s': S.Store, sp: int, st: State, st1: State, st2: State,
      st': State, pos: int, vs: seq<i64>)
    requires vs != [] && sp - 16 >= c.g.lo && Did(c.im, c.g, s, s1, sp, st, st1, pos) && Reaches(c.im.m, st1, st2)
    requires Kept(st1.mem, st2.mem, s1.alloc, c.g.lo, sp) && Saved(st2, sp - 16, ToU(vs[0]))
    requires (forall a :: sp - 16 <= a < sp ==> a !in s1.alloc && a in st2.mem)
             && Piled(c, s1, s', sp - 16, st2, st', vs[1..])
    ensures Piled(c, s, s', sp, st, st', vs)
  {
    hide Reaches, Rel, Stacked, Saved;
    ReachTrans(c.im.m, st, st1, st2);
    ReachTrans(c.im.m, st, st2, st');
    SlotKept(st2, st', sp - 16, ToU(vs[0]), s1.alloc, c.g.lo);
    StackMore(st', sp, vs);
    assert sp - 16 * |vs| == sp - 16 - 16 * |vs[1..]|;
  }

  lemma PiledNone(c: Ctx, l: int, s: S.Store, sp: int, fuel: nat, st: State)
    requires Rel(c.g, s, sp, st)
    ensures Piled(c, s, s, sp, st, st, []) && S.EvalArgs(c.g, ENil, sp, s, fuel) == S.Ok(([], s))
            && ArgsCode(c.g.offs, ENil, l) == []
  {
    ReachSelf(c.im.m, st);
  }

  /** Every argument is evaluated below the ones already pushed. */
  lemma ArgsOk(c: Ctx, es: Exprs, l: int, pos: int, sp: int, s: S.Store, fuel: nat, st: State, vs: seq<i64>,
      s': S.Store) returns (st': State)
    requires Ready(c, ArgsCode(c.g.offs, es, l), pos, sp, s, st) && ArgsPlaced(c.g.offs, es, l, pos, c.labs)
    requires WfArgs(|c.g.p.funcs|, |c.g.offs|, es) && S.EvalArgs(c.g, es, sp, s, fuel) == S.Ok((vs, s'))
    ensures |vs| == Count(es) && Piled(c, s, s', sp, st, st', vs)
    ensures st'.pc == PcOf(c.im, pos + |ArgsCode(c.g.offs, es, l)|)
    decreases fuel, es, 0
  {
    hide Reaches, Holding, Good, S.Eval, Code, Placed, WfE, Saved, Rel, Kept, Piled, S.EvalArgs, ArgsCode, ArgsPlaced,
      WfArgs;
    match es
    case ENil =>
      PiledNone(c, l, s, sp, fuel, st);
      st' := st;
    case ECons(e, t) =>
      var v, s1 := ArgsParts(c, e, t, l, pos, sp, s, fuel, vs, s');
      var a := Code(c.g.offs, e, l);
      var rest := ArgsCode(c.g.offs, t, l + ELabels(e));
      HoldingParts(c.im, c.labs, pos, a + [I(Push)], rest);
      HoldingParts(c.im, c.labs, pos, a, [I(Push)]);
      var st1 := ExprOk(c, e, l, pos, sp, s, fuel, st, v, s1);
      var st2 := TempPush(c, pos + |a|, [I(Push)], 0, s1, sp, st1);
      st' := ArgsOk(c, t, l + ELabels(e), pos + |a| + 1, sp - 16, s1, fuel, st2, vs[1..], s');
      PiledMore(c, s, s1, s', sp, st, st1, st2, st', pos + |a|, vs);
  }

  // ---------------------------------------------------------------- calls

  lemma CallParts(c: Ctx, e: Expr, l: int, pos: int, sp: int, s: S.Store, fuel: nat, st: State, v: i64, s': S.Store)
    returns (vs: seq<i64>, s1: S.Store)
    requires e.Call?
    requires ExprReady(c, e, l, pos, sp, s, st) && S.Eval(c.g, e, sp, s, fuel) == S.Ok((v, s'))
    ensures S.EvalArgs(c.g, e.args, sp, s, fuel) == S.Ok((vs, s1))
    ensures e.f.Builtin? ==> S.CallBuiltin(c.g.w, e.f.addr, vs, s1) == S.Ok((v, s'))
    ensures e.f.User? ==>
            fuel > 0 && e.f.i < |c.g.p.funcs| && S.CallUser(c.g, e.f.i, vs, sp, s1, fuel - 1) == S.Ok((v, s'))
    ensures Code(c.g.offs, e, l) == ArgsCode(c.g.offs, e.args, l) + PopSeq(Count(e.args)) + CallSeq(e.f)
    ensures ArgsPlaced(c.g.offs, e.args, l, pos, c.labs) && WfArgs(|c.g.p.funcs|, |c.g.offs|, e.args)
            && Count(e.args) <= 8
  {
    hide Ready, S.CallUser, S.CallBuiltin, S.EvalArgs, S.Apply, S.LoadAt, S.StoreAt, CallSeq;
    var r := S.EvalArgs(c.g, e.args, sp, s, fuel).v;
    vs, s1 := r.0, r.1;
  }

  lemma ArgsPopped(c: Ctx, es: Exprs, l: int, pos: int, sp: int, s: S.Store, fuel: nat, st: State, vs: seq<i64>,
      s': S.Store) returns (st': State)
    requires Ready(c, ArgsCode(c.g.offs, es, l), pos, sp, s, st) && ArgsPlaced(c.g.offs, es, l, pos, c.labs)
    requires Holding(c.im, c.labs, pos + |ArgsCode(c.g.offs, es, l)|, PopSeq(Count(es))) && Count(es) <= 8
    requires WfArgs(|c.g.p.funcs|, |c.g.offs|, es) && S.EvalArgs(c.g, es, sp, s, fuel) == S.Ok((vs, s'))
    ensures |vs| == Count(es)
    ensures Did(c.im, c.g, s, s', sp, st, st', pos + |ArgsCode(c.g.offs, es, l)| + |PopSeq(Count(es))|)
    ensures forall i :: 0 <= i < |vs| ==> st'.x[i] == ToU(vs[i])
    decreases fuel, es, 1
  {
    hide Reaches, Holding, Good, S.EvalArgs, ArgsCode, ArgsPlaced, WfArgs, Saved, PopSeq;
    assert sp < M64;
    var st1 := ArgsOk(c, es, l, pos, sp, s, fuel, st, vs, s');
    st' := PopsOk(c, pos + |ArgsCode(c.g.offs, es, l)|, |vs|, vs, s', sp, st1);
    ReachTrans(c.im.m, st, st1, st');
  }

  lemma CallOk(c: Ctx, e: Expr, l: int, pos: int, sp: int, s: S.Store, fuel: nat, st: State, v: i64, s': S.Store)
      returns (st': State)
    requires e.Call?
    requires ExprReady(c, e, l, pos, sp, s, st) && S.Eval(c.g, e, sp, s, fuel) == S.Ok((v, s'))
    ensures Did(c.im, c.g, s, s', sp, st, st', pos + |Code(c.g.offs, e, l)|) && st'.x[0] == ToU(v)
    decreases fuel, e, 1
  {
    hide Reaches, Holding, Good, Rel, Kept, S.Eval, S.EvalArgs, S.CallUser, S.CallBuiltin, Code, ArgsCode, Placed,
      ArgsPlaced, WfE, WfArgs, PopSeq, CallSeq;
    var vs, s1 := CallParts(c, e, l, pos, sp, s, fuel, st, v, s');
    var a, b, d := ArgsCode(c.g.offs, e.args, l), PopSeq(Count(e.args)), CallSeq(e.f);
    HoldingParts(c.im, c.labs, pos, a + b, d);
    HoldingParts(c.im, c.labs, pos, a, b);
    var q := pos + |a| + |b|;
    var st1 := ArgsPopped(c, e.args, l, pos, sp, s, fuel, st, vs, s1);
    match e.f
    case Builtin(adr) =>
      st' := CallBuiltinOk(c, adr, q, vs, sp, s1, st1, v, s');
      DidTrans(c.im, c.g, s, s1, s', sp, st, st1, st', q, q + |d|);
    case User(f) =>
      EntryInCode(c.im, c.g, f);
      var st2 := JumpToUser(c, f, q, vs, sp, s1, st1);
      var st3 := CallUserOk(c, f, vs, sp, s1, fuel - 1, st2, q + |d|, v, s');
      DidTrans(c.im, c.g, s, s1, s1, sp, st, st1, st2, q, c.im.entry[f]);
      DidTrans(c.im, c.g, s, s1, s', sp, st, st2, st3, c.im.entry[f], q + |d|);
      st' := st3;
  }

  // ---------------------------------------------------------------- statements

  /** The labels a statement's code may leave through are placed. */
  ghost predicate Inside(c: Ctx, cx: Cx) {
    && cx.offs == c.g.offs && cx.tick == c.g.p.tick && RET in c.labs
    && (cx.brk >= 0 ==> cx.brk in c.labs) && (cx.cont >= 0 ==> cx.cont in c.labs)
  }

  ghost predicate StmtReady(c: Ctx, cx: Cx, st: Stmt, l: int, first: int, pos: int) {
    && Good(c.im, c.g) && Inside(c, cx) && l >= 1
    && Holding(c.im, c.labs, pos, SCode(cx, st, l, first)) && SPlaced(cx, st, l, first, pos, c.labs)
    && WfS(|c.g.p.funcs|, |c.g.offs|, st, cx.brk >= 0, cx.cont >= 0)
  }

  /** At the start of a statement placed at pos, or at its k-th case label. */
  ghost predicate Enters(c: Ctx, n: nat, k: int, first: int, pos: int, m: State) {
    if k < 0 then m.pc == PcOf(c.im, pos) else k < n && first - k in c.labs && m.pc == PcOf(c.im, c.labs[first - k])
  }

  function Place(labs: map<int, int>, l: int): int { if l in labs then labs[l] else 0 }

  /** Where an outcome leaves the code of a statement that ends at `end`. */
  function Target(c: Ctx, cx: Cx, out: S.Out, end: int): int {
    match out
    case Normal => end
    case Broke => Place(c.labs, cx.brk)
    case Continued => Place(c.labs, cx.cont)
    case Returned(_) => Place(c.labs, RET)
  }

  ghost predicate Leaves(c: Ctx, cx: Cx, out: S.Out, s: S.Store, s': S.Store, sp: int, m: State, m': State, end: int) {
    && Did(c.im, c.g, s, s', sp, m, m', Target(c, cx, out, end))
    && (out.Returned? ==> m'.x[0] == ToU(out.v))
    && (out.Broke? ==> cx.brk >= 0) && (out.Continued? ==> cx.cont >= 0)
  }

  lemma LeavesAfter(c: Ctx, cx: Cx, out: S.Out, s: S.Store, s1: S.Store, s': S.Store, sp: int, m: State, m1: State,
      m': State, mid: int, end: int)
    requires Did(c.im, c.g, s, s1, sp, m, m1, mid) && Leaves(c, cx, out, s1, s', sp, m1, m', end)
    ensures Leaves(c, cx, out, s, s', sp, m, m', end)
  {
    hide Reaches, Rel, Kept;
    DidTrans(c.im, c.g, s, s1, s', sp, m, m1, m', mid, Target(c, cx, out, end));
  }

  /** The flat code of a statement does what the structured statement does: it leaves at
      its end, or at the break, continue or return label, as the outcome says. */
  lemma StmtOk(c: Ctx, cx: Cx, st: Stmt, k: int, l: int, first: int, pos: int, sp: int, s: S.Store, fuel: nat,
      m: State, out: S.Out, s': S.Store) returns (m': State)
    requires StmtReady(c, cx, st, l, first, pos) && Rel(c.g, s, sp, m) && Enters(c, |S.Cases(st)|, k, first, pos, m)
    requires S.Exec(c.g, st, k, sp, s, fuel) == S.Ok((out, s'))
    ensures Leaves(c, cx, out, s, s', sp, m, m', pos + |SCode(cx, st, l, first)|)
    decreases fuel, st, 2
  {
    hide Reaches, Holding, Good, Rel, Kept, Did;
    match st
    case ExprS(e) => m' := ExprOk(c, e, l, pos, sp, s, fuel, m, S.Eval(c.g, e, sp, s, fuel).v.0, s');
    case Return(e) => m' := ReturnOk(c, cx, st, k, l, first, pos, sp, s, fuel, m, out, s');
    case Break => m' := JumpDid(c, pos, [J(JB, cx.brk)], 0, s, sp, m);
    case Continue => m' := JumpDid(c, pos, [J(JB, cx.cont)], 0, s, sp, m);
    case Block(ss) => m' := ListOk(c, cx, ss, k, l, first, pos, sp, s, fuel, m, out, s');
    case Case(_, b) => m' := CaseOk(c, cx, st, k, l, first, pos, sp, s, fuel, m, out, s');
    case If(_, _, _) => m' := IfOk(c, cx, st, k, l, first, pos, sp, s, fuel, m, out, s');
    case While(_, _) => m' := WhileOk(c, cx, st, k, l, first, pos, sp, s, fuel, m, out, s');
    case For(_, _, _, _) => m' := ForOk(c, cx, st, k, l, first, pos, sp, s, fuel, m, out, s');
    case Switch(_, _) => m' := SwitchOk(c, cx, st, k, l, first, pos, sp, s, fuel, m, out, s');
  }

  lemma ReturnInv(c: Ctx, cx: Cx, st: Stmt, k: int, l: int, first: int, pos: int, sp: int, s: S.Store, fuel: nat,
      out: S.Out, s': S.Store)
    requires st.Return? && StmtReady(c, cx, st, l, first, pos) && S.Exec(c.g, st, k, sp, s, fuel) == S.Ok((out, s'))
    ensures k < 0 && S.Eval(c.g, st.e, sp, s, fuel).Ok? && S.Eval(c.g, st.e, sp, s, fuel).v.1 == s'
    ensures out == S.Returned(S.Eval(c.g, st.e, sp, s, fuel).v.0)
    ensures SCode(cx, st, l, first) == Code(c.g.offs, st.e, l) + [J(JB, RET)]
    ensures Placed(c.g.offs, st.e, l, pos, c.labs) && WfE(|c.g.p.funcs|, |c.g.offs|, st.e)
  {
    hide Good, Holding, S.Eval, Code, Placed, WfE;
  }

  lemma ReturnOk(c: Ctx, cx: Cx, st: Stmt, k: int, l: int, first: int, pos: int, sp: int, s: S.Store, fuel: nat,
      m: State, out: S.Out, s': S.Store) returns (m': State)
    requires st.Return?
    requires StmtReady(c, cx, st, l, first, pos) && Rel(c.g, s, sp, m) && Enters(c, |S.Cases(st)|, k, first, pos, m)
    requires S.Exec(c.g, st, k, sp, s, fuel) == S.Ok((out, s'))
    ensures Leaves(c, cx, out, s, s', sp, m, m', pos + |SCode(cx, st, l, first)|)
    decreases fuel, st, 1
  {
    hide Reaches, Holding, Good, Rel, Kept, Did, S.Exec, S.Eval, Code, SCode, SPlaced, Placed, WfS, WfE, S.Cases;
    ReturnInv(c, cx, st, k, l, first, pos, sp, s, fuel, out, s');
    var v := S.Eval(c.g, st.e, sp, s, fuel).v.0;
    var a := Code(c.g.offs, st.e, l);
    HoldingParts(c.im, c.labs, pos, a, [J(JB, RET)]);
    var m1 := ExprOk(c, st.e, l, pos, sp, s, fuel, m, v, s');
    DidParts(c.im, c.g, s, s', sp, m, m1, pos + |a|);
    m' := JumpDid(c, pos + |a|, [J(JB, RET)], 0, s', sp, m1);
    DidTrans(c.im, c.g, s, s', s', sp, m, m1, m', pos + |a|, c.labs[RET]);
  }

  lemma CaseOk(c: Ctx, cx: Cx, st: Stmt, k: int, l: int, first: int, pos: int, sp: int, s: S.Store, fuel: nat,
      m: State, out: S.Out, s': S.Store) returns (m': State)
    requires st.Case?
    requires StmtReady(c, cx, st, l, first, pos) && Rel(c.g, s, sp, m) && Enters(c, |S.Cases(st)|, k, first, pos, m)
    requires S.Exec(c.g, st, k, sp, s, fuel) == S.Ok((out, s'))
    ensures Leaves(c, cx, out, s, s', sp, m, m', pos + |SCode(cx, st, l, first)|)
    decreases fuel, st, 1
  {
    hide Reaches, Holding, Good, Rel, Kept, Did;
    assert c.labs[first] == pos;
    m' := StmtOk(c, cx, st.s, k - 1, l, first - 1, pos, sp, s, fuel, m, out, s');
  }

  lemma ListOk(c: Ctx, cx: Cx, ss: Stmts, k: int, l: int, first: int, pos: int, sp: int, s: S.Store, fuel: nat,
      m: State, out: S.Out, s': S.Store) returns (m': State)
    requires Good(c.im, c.g) && Inside(c, cx) && l >= 1
    requires Holding(c.im, c.labs, pos, LCode(cx, ss, l, first)) && LPlaced(cx, ss, l, first, pos, c.labs)
    requires WfL(|c.g.p.funcs|, |c.g.offs|, ss, cx.brk >= 0, cx.cont >= 0)
    requires Rel(c.g, s, sp, m) && Enters(c, |S.CasesList(ss)|, k, first, pos, m)
    requires S.ExecList(c.g, ss, k, sp, s, fuel) == S.Ok((out, s'))
    ensures Leaves(c, cx, out, s, s', sp, m, m', pos + |LCode(cx, ss, l, first)|)
    decreases fuel, ss, 1
  {
    hide Reaches, Holding, Good, Rel, Kept, S.Exec, SCode, SPlaced, WfS;
    match ss
    case SNil =>
      DidSelf(c.im, c.g, s, sp, m, pos);
      m' := m;
    case SCons(h, t) =>
      var n := |S.Cases(h)|;
      var a, b := SCode(cx, h, l, first), LCode(cx, t, l + SLabels(h), first - n);
      HoldingParts(c.im, c.labs, pos, a, b);
      var q := pos + |a|;
      if k >= n && k >= 0 {
        m' := ListOk(c, cx, t, k - n, l + SLabels(h), first - n, q, sp, s, fuel, m, out, s');
      } else {
        var (o1, s1) := S.Exec(c.g, h, k, sp, s, fuel).v;
        var m1 := StmtOk(c, cx, h, k, l, first, pos, sp, s, fuel, m, o1, s1);
        if o1.Normal? {
          m' := ListOk(c, cx, t, -1, l + SLabels(h), first - n, q, sp, s1, fuel, m1, out, s');
          LeavesAfter(c, cx, out, s, s1, s', sp, m, m1, m', q, q + |b|);
        } else {
          m' := m1;
        }
      }
  }

  lemma IfParts(c: Ctx, cx: Cx, st: Stmt, k: int, l: int, first: int, pos: int, sp: int, s: S.Store, fuel: nat,
      out: S.Out, s': S.Store)
    returns (v: i64, s1: S.Store)
    requires st.If? && StmtReady(c, cx, st, l, first, pos) && S.Exec(c.g, st, k, sp, s, fuel) == S.Ok((out, s'))
    ensures k < |S.Cases(st)| && |S.Cases(st)| == |S.Cases(st.t)| + |S.Cases(st.f)|
    ensures k < 0 ==>
            S.Eval(c.g, st.c, sp, s, fuel) == S.Ok((v, s1))
            && S.Exec(c.g, if v != 0 then st.t else st.f, -1, sp, s1, fuel) == S.Ok((out, s'))
    ensures 0 <= k < |S.Cases(st.t)| ==> S.Exec(c.g, st.t, k, sp, s, fuel) == S.Ok((out, s'))
    ensures k >= |S.Cases(st.t)| && k >= 0 ==> S.Exec(c.g, st.f, k - |S.Cases(st.t)|, sp, s, fuel) == S.Ok((out, s'))
    ensures var lt := l + 2 + ELabels(st.c); var lf := lt + SLabels(st.t); var ff := first - |S.Cases(st.t)|;
            var a, t, f := Code(cx.offs, st.c, l + 2), SCode(cx, st.t, lt, first), SCode(cx, st.f, lf, ff);
            && SCode(cx, st, l, first) == a + [J(JCbz, l)] + t + [J(JB, l + 1)] + f
            && Placed(cx.offs, st.c, l + 2, pos, c.labs) && SPlaced(cx, st.t, lt, first, pos + |a| + 1, c.labs)
            && SPlaced(cx, st.f, lf, ff, pos + |a| + |t| + 2, c.labs)
            && LabelAt(c.labs, l, pos + |a| + |t| + 2) && LabelAt(c.labs, l + 1, pos + |SCode(cx, st, l, first)|)
            && WfE(|c.g.p.funcs|, |c.g.offs|, st.c)
            && WfS(|c.g.p.funcs|, |c.g.offs|, st.t, cx.brk >= 0, cx.cont >= 0)
               && WfS(|c.g.p.funcs|, |c.g.offs|, st.f, cx.brk >= 0, cx.cont >= 0)
  {
    hide Good, Holding, Inside, S.Eval, S.WhileBody, S.ForBody, S.ForTest, S.Dispatch, Code, Placed, WfE;
    if k < 0 {
      var r := S.Eval(c.g, st.c, sp, s, fuel).v;
      v, s1 := r.0, r.1;
    } else {
      v, s1 := 0, s;
    }
  }

  lemma IfOk(c: Ctx, cx: Cx, st: Stmt, k: int, l: int, first: int, pos: int, sp: int, s: S.Store, fuel: nat, m: State,
      out: S.Out, s': S.Store) returns (m': State)
    requires st.If?
    requires StmtReady(c, cx, st, l, first, pos) && Rel(c.g, s, sp, m) && Enters(c, |S.Cases(st)|, k, first, pos, m)
    requires S.Exec(c.g, st, k, sp, s, fuel) == S.Ok((out, s'))
    ensures Leaves(c, cx, out, s, s', sp, m, m', pos + |SCode(cx, st, l, first)|)
    decreases fuel, st, 1
  {
    hide Reaches, Holding, Good, Rel, Kept, Did, S.Exec, S.Eval, SCode, SPlaced, Code, Placed, WfS, WfE, S.Cases;
    var v, s1 := IfParts(c, cx, st, k, l, first, pos, sp, s, fuel, out, s');
    var lt := l + 2 + ELabels(st.c);
    var n := |S.Cases(st.t)|;
    var lf, ff := lt + SLabels(st.t), first - n;
    var a, t, f := Code(cx.offs, st.c, l + 2), SCode(cx, st.t, lt, first), SCode(cx, st.f, lf, ff);
    var q := pos + |a|;
    var pf := q + |t| + 2;
    HoldingParts(c.im, c.labs, pos, a + [J(JCbz, l)] + t + [J(JB, l + 1)], f);
    HoldingParts(c.im, c.labs, pos, a + [J(JCbz, l)] + t, [J(JB, l + 1)]);
    HoldingParts(c.im, c.labs, pos, a + [J(JCbz, l)], t);
    HoldingParts(c.im, c.labs, pos, a, [J(JCbz, l)]);
    if k >= n && k >= 0 {
      m' := StmtOk(c, cx, st.f, k - n, lf, ff, pf, sp, s, fuel, m, out, s');
    } else if k >= 0 {
      m' := StmtOk(c, cx, st.t, k, lt, first, q + 1, sp, s, fuel, m, out, s');
      m' := SkipElse(c, cx, l, pf - 1, pf + |f|, out, s, s', sp, m, m');
    } else {
      var m1 := ExprOk(c, st.c, l + 2, pos, sp, s, fuel, m, v, s1);
      DidParts(c.im, c.g, s, s1, sp, m, m1, q);
      ZeroPattern(v);
      var m2 := JumpDid(c, q, [J(JCbz, l)], 0, s1, sp, m1);
      var q2 := if v == 0 then pf else q + 1;
      DidTrans(c.im, c.g, s, s1, s1, sp, m, m1, m2, q, q2);
      DidParts(c.im, c.g, s, s1, sp, m, m2, q2);
      var m3;
      if v != 0 {
        m3 := StmtOk(c, cx, st.t, -1, lt, first, q + 1, sp, s1, fuel, m2, out, s');
        m3 := SkipElse(c, cx, l, pf - 1, pf + |f|, out, s1, s', sp, m2, m3);
      } else {
        m3 := StmtOk(c, cx, st.f, -1, lf, ff, pf, sp, s1, fuel, m2, out, s');
      }
      m' := m3;
      LeavesAfter(c, cx, out, s, s1, s', sp, m, m2, m', q2, pf + |f|);
    }
  }

  /** After the then-branch: a normal outcome jumps over the else-branch. */
  lemma SkipElse(c: Ctx, cx: Cx, l: int, pos: int, end: int, out: S.Out, s: S.Store, s': S.Store, sp: int, m: State,
      m1: State) returns (m': State)
    requires Leaves(c, cx, out, s, s', sp, m, m1, pos)
    requires Holding(c.im, c.labs, pos, [J(JB, l + 1)]) && LabelAt(c.labs, l + 1, end)
    ensures Leaves(c, cx, out, s, s', sp, m, m', end)
  {
    hide Reaches, Holding, Rel, Kept;
    if out.Normal? {
      m' := JumpDid(c, pos, [J(JB, l + 1)], 0, s', sp, m1);
      DidTrans(c.im, c.g, s, s', s', sp, m, m1, m', pos, end);
    } else {
      m' := m1;
    }
  }

  // ---------------------------------------------------------------- loops

  lemma WhileParts(c: Ctx, cx: Cx, st: Stmt, l: int, first: int, pos: int)
    requires st.While? && StmtReady(c, cx, st, l, first, pos)
    ensures var cx1 := cx.(brk := l + 1, cont := l); var lb := l + 2 + ELabels(st.c);
            var a, b, t := Code(cx.offs, st.c, l + 2), SCode(cx1, st.body, lb, first), TickCode(cx.tick, l + 1);
            && SCode(cx, st, l, first) == a + [J(JCbz, l + 1)] + b + t + [J(JB, l)]
            && Holding(c.im, c.labs, pos, a) && Holding(c.im, c.labs, pos + |a|, [J(JCbz, l + 1)])
            && StmtReady(c, cx1, st.body, lb, first, pos + |a| + 1)
            && Holding(c.im, c.labs, pos + |a| + 1 + |b|, t)
               && Holding(c.im, c.labs, pos + |a| + 1 + |b| + |t|, [J(JB, l)])
            && LabelAt(c.labs, l, pos) && LabelAt(c.labs, l + 1, pos + |SCode(cx, st, l, first)|)
            && Placed(cx.offs, st.c, l + 2, pos, c.labs) && WfE(|c.g.p.funcs|, |c.g.offs|, st.c)
  {
    hide Good, Holding, Code, Placed, WfE, TickCode, ELabels, SLabels;
    var cx1, lb := cx.(brk := l + 1, cont := l), l + 2 + ELabels(st.c);
    var a, b, t := Code(cx.offs, st.c, l + 2), SCode(cx1, st.body, lb, first), TickCode(cx.tick, l + 1);
    HoldingParts(c.im, c.labs, pos, a + [J(JCbz, l + 1)] + b + t, [J(JB, l)]);
    HoldingParts(c.im, c.labs, pos, a + [J(JCbz, l + 1)] + b, t);
    HoldingParts(c.im, c.labs, pos, a + [J(JCbz, l + 1)], b);
    HoldingParts(c.im, c.labs, pos, a, [J(JCbz, l + 1)]);
  }

  lemma WhileTest(g: S.Env, st: Stmt, k: int, sp: int, s: S.Store, fuel: nat, out: S.Out, s': S.Store)
    requires st.While? && k < 0 && S.Exec(g, st, k, sp, s, fuel) == S.Ok((out, s'))
    ensures S.Eval(g, st.c, sp, s, fuel).Ok?
    ensures var (v, s1) := S.Eval(g, st.c, sp, s, fuel).v;
            if v == 0 then out == S.Normal && s' == s1 else S.WhileBody(g, st, -1, sp, s1, fuel) == S.Ok((out, s'))
  {
    hide S.Eval, S.WhileBody;
  }

  lemma WhileEntry(g: S.Env, st: Stmt, k: int, sp: int, s: S.Store, fuel: nat)
    requires st.While? && k >= 0 && S.Exec(g, st, k, sp, s, fuel).Ok?
    ensures S.Exec(g, st, k, sp, s, fuel) == S.WhileBody(g, st, k, sp, s, fuel)
  {
    hide S.Eval, S.WhileBody;
  }

  /** One iteration of a while loop, inverted. */
  lemma WhileRound(g: S.Env, st: Stmt, k: int, sp: int, s: S.Store, fuel: nat, out: S.Out, s': S.Store)
    returns (o1: S.Out, s1: S.Store, more: bool, s2: S.Store)
    requires st.While? && S.WhileBody(g, st, k, sp, s, fuel) == S.Ok((out, s'))
    ensures S.Exec(g, st.body, k, sp, s, fuel) == S.Ok((o1, s1))
    ensures o1.Broke? ==> out == S.Normal && s' == s1
    ensures o1.Returned? ==> out == o1 && s' == s1
    ensures o1.Continued? ==> more && s2 == s1
    ensures o1.Normal? ==> S.Tick(g, s1) == S.Ok((more, s2))
    ensures (o1.Continued? || o1.Normal?) && !more ==> out == S.Normal && s' == s2
    ensures (o1.Continued? || o1.Normal?) && more ==> fuel > 0 && S.Exec(g, st, -1, sp, s2, fuel - 1) == S.Ok((out, s'))
  {
    hide S.Exec, S.Tick;
    var r := S.Exec(g, st.body, k, sp, s, fuel).v;
    o1, s1 := r.0, r.1;
    if o1.Normal? {
      var t := S.Tick(g, s1).v;
      more, s2 := t.0, t.1;
    } else {
      more, s2 := true, s1;
    }
  }

  lemma WhileOk(c: Ctx, cx: Cx, st: Stmt, k: int, l: int, first: int, pos: int, sp: int, s: S.Store, fuel: nat,
      m: State, out: S.Out, s': S.Store) returns (m': State)
    requires st.While?
    requires StmtReady(c, cx, st, l, first, pos) && Rel(c.g, s, sp, m) && Enters(c, |S.Cases(st)|, k, first, pos, m)
    requires S.Exec(c.g, st, k, sp, s, fuel) == S.Ok((out, s'))
    ensures Leaves(c, cx, out, s, s', sp, m, m', pos + |SCode(cx, st, l, first)|)
    decreases fuel, st, 1
  {
    hide Reaches, Holding, Good, Rel, Kept, Did, S.Eval, S.Exec, S.WhileBody, SCode, SPlaced, Code, Placed, WfS, WfE,
      TickCode;
    WhileParts(c, cx, st, l, first, pos);
    if k < 0 { WhileTest(c.g, st, k, sp, s, fuel, out, s'); } else { WhileEntry(c.g, st, k, sp, s, fuel); }
    var a := Code(cx.offs, st.c, l + 2);
    var end := pos + |SCode(cx, st, l, first)|;
    if k >= 0 {
      m' := WhileBodyOk(c, cx, st, k, l, first, pos, sp, s, fuel, m, out, s');
    } else {
      var (v, s1) := S.Eval(c.g, st.c, sp, s, fuel).v;
      var m1 := ExprOk(c, st.c, l + 2, pos, sp, s, fuel, m, v, s1);
      DidParts(c.im, c.g, s, s1, sp, m, m1, pos + |a|);
      ZeroPattern(v);
      m' := JumpDid(c, pos + |a|, [J(JCbz, l + 1)], 0, s1, sp, m1);
      var q := if v == 0 then end else pos + |a| + 1;
      DidTrans(c.im, c.g, s, s1, s1, sp, m, m1, m', pos + |a|, q);
      if v != 0 {
        DidParts(c.im, c.g, s, s1, sp, m, m', q);
        var m2 := WhileBodyOk(c, cx, st, -1, l, first, pos, sp, s1, fuel, m', out, s');
        LeavesAfter(c, cx, out, s, s1, s', sp, m, m', m2, q, end);
        m' := m2;
      }
    }
  }

  lemma WhileBodyOk(c: Ctx, cx: Cx, st: Stmt, k: int, l: int, first: int, pos: int, sp: int, s: S.Store, fuel: nat,
      m: State, out: S.Out, s': S.Store) returns (m': State)
    requires st.While?
    requires StmtReady(c, cx, st, l, first, pos) && Rel(c.g, s, sp, m)
    requires Enters(c, |S.Cases(st.body)|, k, first, pos + |Code(cx.offs, st.c, l + 2)| + 1, m)
    requires S.WhileBody(c.g, st, k, sp, s, fuel) == S.Ok((out, s'))
    ensures Leaves(c, cx, out, s, s', sp, m, m', pos + |SCode(cx, st, l, first)|)
    decreases fuel, st, 0
  {
    hide Reaches, Holding, Good, Rel, Kept, Did, S.WhileBody, S.Exec, S.Tick, SCode, SPlaced, Code, Placed, WfS, WfE,
      TickCode;
    WhileParts(c, cx, st, l, first, pos);
    var o1, s1, more, s2 := WhileRound(c.g, st, k, sp, s, fuel, out, s');
    var cx1, lb := cx.(brk := l + 1, cont := l), l + 2 + ELabels(st.c);
    var pb := pos + |Code(cx.offs, st.c, l + 2)| + 1;
    var pt := pb + |SCode(cx1, st.body, lb, first)|;
    var end := pos + |SCode(cx, st, l, first)|;
    var m1 := StmtOk(c, cx1, st.body, k, lb, first, pb, sp, s, fuel, m, o1, s1);
    if o1.Broke? || o1.Returned? {
      m' := m1;
    } else {
      m' := WhileNext(c, cx1, l, pos, end, pt, sp, s, m, o1, s1, m1, more, s2);
      if more {
        DidParts(c.im, c.g, s, s2, sp, m, m', pos);
        var m2 := StmtOk(c, cx, st, -1, l, first, pos, sp, s2, fuel - 1, m', out, s');
        LeavesAfter(c, cx, out, s, s2, s', sp, m, m', m2, pos, end);
        m' := m2;
      }
    }
  }

  /** After a while body that ran to its end or continued: back to the test, unless the
      guard, consulted only at the end, says stop. */
  lemma WhileNext(c: Ctx, cx1: Cx, l: int, pos: int, end: int, pt: int, sp: int, s: S.Store, m: State, o1: S.Out,
      s1: S.Store, m1: State, more: bool, s2: S.Store) returns (m': State)
    requires Leaves(c, cx1, o1, s, s1, sp, m, m1, pt) && (o1.Normal? || o1.Continued?)
    requires cx1.cont == l && LabelAt(c.labs, l, pos) && LabelAt(c.labs, l + 1, end)
    requires if o1.Normal? then S.Tick(c.g, s1) == S.Ok((more, s2)) else more && s2 == s1
    requires Good(c.im, c.g) && Holding(c.im, c.labs, pt, TickCode(c.g.p.tick, l + 1))
    requires Holding(c.im, c.labs, pt + |TickCode(c.g.p.tick, l + 1)|, [J(JB, l)])
    ensures Did(c.im, c.g, s, s2, sp, m, m', if more then pos else end)
  {
    hide Reaches, Holding, Good, Rel, Kept, S.Tick, TickCode;
    if o1.Normal? {
      m' := BackEdgeOk(c, l + 1, l, pt, sp, s1, m1, more, s2);
      DidTrans(c.im, c.g, s, s1, s2, sp, m, m1, m', pt, if more then pos else end);
    } else {
      m' := m1;
    }
  }

  /** The guard and the backward branch that end a loop. */
  lemma BackEdgeOk(c: Ctx, exit: int, head: int, pos: int, sp: int, s: S.Store, m: State, more: bool, s': S.Store)
      returns (m': State)
    requires Good(c.im, c.g) && exit in c.labs && head in c.labs
    requires Holding(c.im, c.labs, pos, TickCode(c.g.p.tick, exit))
    requires Holding(c.im, c.labs, pos + |TickCode(c.g.p.tick, exit)|, [J(JB, head)])
    requires Rel(c.g, s, sp, m) && m.pc == PcOf(c.im, pos) && S.Tick(c.g, s) == S.Ok((more, s'))
    ensures Did(c.im, c.g, s, s', sp, m, m', if more then c.labs[head] else c.labs[exit])
  {
    hide Reaches, Holding, Good, Kept, Rel, S.Tick, TickCode;
    var q := pos + |TickCode(c.g.p.tick, exit)|;
    m' := TickOk(c, exit, pos, sp, s, m, more, s');
    if more {
      var m1 := JumpDid(c, q, [J(JB, head)], 0, s', sp, m');
      DidTrans(c.im, c.g, s, s', s', sp, m, m', m1, q, c.labs[head]);
      m' := m1;
    }
  }

  ghost predicate ForReady(c: Ctx, cx: Cx, st: Stmt, l: int, first: int, pos: int)
    requires st.For?
  {
    && Good(c.im, c.g) && Inside(c, cx) && l >= 1
    && Holding(c.im, c.labs, pos, ForCode(cx, l, st, first)) && ForPlaced(cx, l, st, first, pos, c.labs)
    && WfS(|c.g.p.funcs|, |c.g.offs|, st, cx.brk >= 0, cx.cont >= 0)
  }

  /** Where the pieces of a for loop, from its test on, lie. */
  lemma ForParts(c: Ctx, cx: Cx, st: Stmt, l: int, first: int, pos: int)
    requires st.For? && ForReady(c, cx, st, l, first, pos)
    ensures var cx1 := cx.(brk := l + 2, cont := l + 1);
            var lc := ForHead(l, st.init); var lb := lc + OptLabels(st.cond); var li := lb + SLabels(st.body);
            var a, h := OptCode(cx.offs, st.cond, lc), if st.cond.Some? then [J(JCbz, l + 2)] else [];
            var b, n, t := SCode(cx1, st.body, lb, first), OptCode(cx.offs, st.inc, li), TickCode(cx.tick, l + 2);
            var pb := pos + |a| + |h|;
            && |ForCode(cx, l, st, first)| == |a| + |h| + |b| + |n| + |t| + 1
            && Holding(c.im, c.labs, pos, a) && Holding(c.im, c.labs, pos + |a|, h)
            && StmtReady(c, cx1, st.body, lb, first, pb)
            && Holding(c.im, c.labs, pb + |b|, n) && Holding(c.im, c.labs, pb + |b| + |n|, t)
            && Holding(c.im, c.labs, pb + |b| + |n| + |t|, [J(JB, l)])
            && LabelAt(c.labs, l, pos) && LabelAt(c.labs, l + 1, pb + |b|)
               && LabelAt(c.labs, l + 2, pos + |ForCode(cx, l, st, first)|)
            && OptPlaced(cx.offs, st.cond, lc, pos, c.labs) && OptPlaced(cx.offs, st.inc, li, pb + |b|, c.labs)
            && WfOpt(|c.g.p.funcs|, |c.g.offs|, st.cond) && WfOpt(|c.g.p.funcs|, |c.g.offs|, st.inc)
  {
    hide Good, Holding, OptCode, OptPlaced, WfOpt, TickCode, SLabels, OptLabels, SCode, SPlaced;
    var cx1 := cx.(brk := l + 2, cont := l + 1);
    var lc := ForHead(l, st.init);
    var lb := lc + OptLabels(st.cond);
    var li := lb + SLabels(st.body);
    var a, h := OptCode(cx.offs, st.cond, lc), if st.cond.Some? then [J(JCbz, l + 2)] else [];
    var b, n, t := SCode(cx1, st.body, lb, first), OptCode(cx.offs, st.inc, li), TickCode(cx.tick, l + 2);
    HoldingParts(c.im, c.labs, pos, a + h + b + n + t, [J(JB, l)]);
    HoldingParts(c.im, c.labs, pos, a + h + b + n, t);
    HoldingParts(c.im, c.labs, pos, a + h + b, n);
    HoldingParts(c.im, c.labs, pos, a + h, b);
    HoldingParts(c.im, c.labs, pos, a, h);
  }

  lemma OptOk(c: Ctx, e: Option<Expr>, l: int, pos: int, sp: int, s: S.Store, fuel: nat, st: State, v: i64,
      s': S.Store) returns (st': State)
    requires Ready(c, OptCode(c.g.offs, e, l), pos, sp, s, st) && OptPlaced(c.g.offs, e, l, pos, c.labs)
    requires WfOpt(|c.g.p.funcs|, |c.g.offs|, e) && S.EvalOpt(c.g, e, sp, s, fuel) == S.Ok((v, s'))
    ensures Did(c.im, c.g, s, s', sp, st, st', pos + |OptCode(c.g.offs, e, l)|) && (e.Some? ==> st'.x[0] == ToU(v))
    decreases fuel, e, 3
  {
    hide Reaches, Holding, Good, Rel, Kept, S.Eval, Code, Placed, WfE;
    match e
    case None =>
      DidSelf(c.im, c.g, s, sp, st, pos);
      st' := st;
    case Some(x) => st' := ExprOk(c, x, l, pos, sp, s, fuel, st, v, s');
  }

  lemma ForOk(c: Ctx, cx: Cx, st: Stmt, k: int, l: int, first: int, pos: int, sp: int, s: S.Store, fuel: nat,
      m: State, out: S.Out, s': S.Store) returns (m': State)
    requires st.For?
    requires StmtReady(c, cx, st, l, first, pos) && Rel(c.g, s, sp, m) && Enters(c, |S.Cases(st)|, k, first, pos, m)
    requires S.Exec(c.g, st, k, sp, s, fuel) == S.Ok((out, s'))
    ensures Leaves(c, cx, out, s, s', sp, m, m', pos + |SCode(cx, st, l, first)|)
    decreases fuel, st, 1
  {
    hide Reaches, Holding, Good, Rel, Kept, Did, S.EvalOpt, S.ForBody, S.ForTest, S.Eval, OptCode, ForCode, OptPlaced,
      ForPlaced, WfOpt;
    var a, f := OptCode(cx.offs, st.init, l + 3), ForCode(cx, l, st, first);
    var q := pos + |a|;
    HoldingParts(c.im, c.labs, pos, a, f);
    assert ForReady(c, cx, st, l, first, q);
    if k >= 0 {
      m' := ForBodyOk(c, cx, st, k, l, first, q, sp, s, fuel, m, out, s');
    } else {
      var (v, s1) := S.EvalOpt(c.g, st.init, sp, s, fuel).v;
      var m1 := OptOk(c, st.init, l + 3, pos, sp, s, fuel, m, v, s1);
      DidParts(c.im, c.g, s, s1, sp, m, m1, q);
      m' := ForTestOk(c, cx, st, l, first, q, sp, s1, fuel, m1, out, s');
      LeavesAfter(c, cx, out, s, s1, s', sp, m, m1, m', q, q + |f|);
    }
  }

  lemma ForTestOk(c: Ctx, cx: Cx, st: Stmt, l: int, first: int, pos: int, sp: int, s: S.Store, fuel: nat, m: State,
      out: S.Out, s': S.Store) returns (m': State)
    requires st.For? && ForReady(c, cx, st, l, first, pos) && Rel(c.g, s, sp, m) && m.pc == PcOf(c.im, pos)
    requires S.ForTest(c.g, st, sp, s, fuel) == S.Ok((out, s'))
    ensures Leaves(c, cx, out, s, s', sp, m, m', pos + |ForCode(cx, l, st, first)|)
    decreases fuel, st, 0, 1
  {
    hide Reaches, Holding, Good, Rel, Kept, Did, S.EvalOpt, S.ForTest, S.ForBody, OptCode, ForCode, OptPlaced,
      ForPlaced, WfOpt, WfS, SCode, SPlaced, TickCode;
    ForParts(c, cx, st, l, first, pos);
    ForTestInv(c.g, st, sp, s, fuel, out, s');
    var lc := ForHead(l, st.init);
    var a := OptCode(cx.offs, st.cond, lc);
    var pb, end := pos + |a| + (if st.cond.Some? then 1 else 0), pos + |ForCode(cx, l, st, first)|;
    var (v, s1) := S.EvalOpt(c.g, st.cond, sp, s, fuel).v;
    var m1 := OptOk(c, st.cond, lc, pos, sp, s, fuel, m, v, s1);
    if st.cond.None? { MissingTest(c.g, sp, s, fuel); }
    m' := TestOk(c, st.cond.Some?, l + 2, pos + |a|, end, sp, s, m, v, s1, m1);
    if v != 0 {
      DidParts(c.im, c.g, s, s1, sp, m, m', pb);
      var m2 := ForBodyOk(c, cx, st, -1, l, first, pos, sp, s1, fuel, m', out, s');
      LeavesAfter(c, cx, out, s, s1, s', sp, m, m', m2, pb, end);
      m' := m2;
    }
  }

  /** Leave a loop when its test, if there is one, is 0. */
  lemma TestOk(c: Ctx, test: bool, exit: int, pos: int, end: int, sp: int, s: S.Store, m: State, v: i64, s1: S.Store,
      m1: State) returns (m': State)
    requires Did(c.im, c.g, s, s1, sp, m, m1, pos) && (if test then m1.x[0] == ToU(v) else v == 1)
    requires Holding(c.im, c.labs, pos, if test then [J(JCbz, exit)] else []) && LabelAt(c.labs, exit, end)
    ensures Did(c.im, c.g, s, s1, sp, m, m', if v == 0 then end else pos + if test then 1 else 0)
  {
    hide Reaches, Holding, Rel, Kept;
    if test {
      ZeroPattern(v);
      m' := JumpDid(c, pos, [J(JCbz, exit)], 0, s1, sp, m1);
      DidTrans(c.im, c.g, s, s1, s1, sp, m, m1, m', pos, if v == 0 then end else pos + 1);
    } else {
      m' := m1;
    }
  }

  lemma ForTestInv(g: S.Env, st: Stmt, sp: int, s: S.Store, fuel: nat, out: S.Out, s': S.Store)
    requires st.For? && S.ForTest(g, st, sp, s, fuel) == S.Ok((out, s'))
    ensures S.EvalOpt(g, st.cond, sp, s, fuel).Ok?
    ensures var (v, s1) := S.EvalOpt(g, st.cond, sp, s, fuel).v;
            if v == 0 then out == S.Normal && s' == s1 else S.ForBody(g, st, -1, sp, s1, fuel) == S.Ok((out, s'))
  {
    hide S.EvalOpt, S.ForBody;
  }

  /** One iteration of a for loop, inverted. */
  lemma ForRound(g: S.Env, st: Stmt, k: int, sp: int, s: S.Store, fuel: nat, out: S.Out, s': S.Store)
    returns (o1: S.Out, s1: S.Store, v: i64, s2: S.Store, more: bool, s3: S.Store)
    requires st.For? && S.ForBody(g, st, k, sp, s, fuel) == S.Ok((out, s'))
    ensures S.Exec(g, st.body, k, sp, s, fuel) == S.Ok((o1, s1))
    ensures o1.Broke? ==> out == S.Normal && s' == s1
    ensures o1.Returned? ==> out == o1 && s' == s1
    ensures o1.Continued? || o1.Normal? ==>
              && S.EvalOpt(g, st.inc, sp, s1, fuel) == S.Ok((v, s2)) && S.Tick(g, s2) == S.Ok((more, s3))
              && if more then fuel > 0 && S.ForTest(g, st, sp, s3, fuel - 1) == S.Ok((out, s'))
                 else out == S.Normal && s' == s3
  {
    hide S.Exec, S.Tick, S.EvalOpt, S.ForTest;
    var r := S.Exec(g, st.body, k, sp, s, fuel).v;
    o1, s1 := r.0, r.1;
    v, s2, more, s3 := 0, s1, true, s1;
    if o1.Continued? || o1.Normal? {
      var q := S.EvalOpt(g, st.inc, sp, s1, fuel).v;
      v, s2 := q.0, q.1;
      var t := S.Tick(g, s2).v;
      more, s3 := t.0, t.1;
    }
  }

  lemma MissingTest(g: S.Env, sp: int, s: S.Store, fuel: nat)
    ensures S.EvalOpt(g, None, sp, s, fuel) == S.Ok((1, s))
  {
  }

  lemma ForBodyOk(c: Ctx, cx: Cx, st: Stmt, k: int, l: int, first: int, pos: int, sp: int, s: S.Store, fuel: nat,
      m: State, out: S.Out, s': S.Store) returns (m': State)
    requires st.For? && ForReady(c, cx, st, l, first, pos) && Rel(c.g, s, sp, m)
    requires var lc := ForHead(l, st.init);
             Enters(c, |S.Cases(st.body)|, k, first,
               pos + |OptCode(cx.offs, st.cond, lc)| + (if st.cond.Some? then 1 else 0), m)
    requires S.ForBody(c.g, st, k, sp, s, fuel) == S.Ok((out, s'))
    ensures Leaves(c, cx, out, s, s', sp, m, m', pos + |ForCode(cx, l, st, first)|)
    decreases fuel, st, 0, 0
  {
    hide Reaches, Holding, Good, Rel, Kept, Did, S.EvalOpt, S.ForTest, S.ForBody, S.Exec, S.Tick, OptCode, ForCode,
      OptPlaced, ForPlaced, WfOpt, WfS, SCode, SPlaced, TickCode;
    ForParts(c, cx, st, l, first, pos);
    var o1, s1, v, s2, more, s3 := ForRound(c.g, st, k, sp, s, fuel, out, s');
    var cx1 := cx.(brk := l + 2, cont := l + 1);
    var lb := ForHead(l, st.init) + OptLabels(st.cond);
    var pb := pos + |OptCode(cx.offs, st.cond, ForHead(l, st.init))| + (if st.cond.Some? then 1 else 0);
    var pi := pb + |SCode(cx1, st.body, lb, first)|;
    var end := pos + |ForCode(cx, l, st, first)|;
    var m1 := StmtOk(c, cx1, st.body, k, lb, first, pb, sp, s, fuel, m, o1, s1);
    if o1.Broke? || o1.Returned? {
      m' := m1;
    } else {
      assert Did(c.im, c.g, s, s1, sp, m, m1, pi);
      m' := ForNext(c, cx, st, l, lb + SLabels(st.body), pos, end, pi, sp, s, fuel, m, s1, m1, v, s2, more, s3);
      if more {
        DidParts(c.im, c.g, s, s3, sp, m, m', pos);
        var m4 := ForTestOk(c, cx, st, l, first, pos, sp, s3, fuel - 1, m', out, s');
        LeavesAfter(c, cx, out, s, s3, s', sp, m, m', m4, pos, end);
        m' := m4;
      }
    }
  }

  /** The increment, the guard, and back to the test. */
  lemma ForNext(c: Ctx, cx: Cx, st: Stmt, l: int, li: int, pos: int, end: int, pi: int, sp: int, s: S.Store,
      fuel: nat, m: State, s1: S.Store, m1: State, v: i64, s2: S.Store, more: bool, s3: S.Store) returns (m': State)
    requires st.For? && Did(c.im, c.g, s, s1, sp, m, m1, pi) && Good(c.im, c.g) && cx.offs == c.g.offs
    requires LabelAt(c.labs, l, pos) && LabelAt(c.labs, l + 2, end)
    requires S.EvalOpt(c.g, st.inc, sp, s1, fuel) == S.Ok((v, s2)) && S.Tick(c.g, s2) == S.Ok((more, s3))
    requires OptPlaced(cx.offs, st.inc, li, pi, c.labs) && WfOpt(|c.g.p.funcs|, |c.g.offs|, st.inc)
    requires Holding(c.im, c.labs, pi, OptCode(cx.offs, st.inc, li))
    requires var pt := pi + |OptCode(cx.offs, st.inc, li)|; var t := TickCode(c.g.p.tick, l + 2);
             Holding(c.im, c.labs, pt, t) && Holding(c.im, c.labs, pt + |t|, [J(JB, l)])
    ensures Did(c.im, c.g, s, s3, sp, m, m', if more then pos else end)
    decreases fuel, st, -1
  {
    hide Reaches, Holding, Good, Rel, Kept, Did, S.EvalOpt, S.Tick, TickCode, OptCode, OptPlaced, WfOpt;
    DidParts(c.im, c.g, s, s1, sp, m, m1, pi);
    var pt := pi + |OptCode(cx.offs, st.inc, li)|;
    var m2 := OptOk(c, st.inc, li, pi, sp, s1, fuel, m1, v, s2);
    DidTrans(c.im, c.g, s, s1, s2, sp, m, m1, m2, pi, pt);
    m' := BackEdgeOk(c, l + 2, l, pt, sp, s2, m2, more, s3);
    DidTrans(c.im, c.g, s, s2, s3, sp, m, m2, m', pt, if more then pos else end);
  }

  // ---------------------------------------------------------------- switch

  lemma SwitchInv(g: S.Env, st: Stmt, k: int, sp: int, s: S.Store, fuel: nat, out: S.Out, s': S.Store)
    returns (v: i64, s1: S.Store, o1: S.Out)
    requires st.Switch? && S.Exec(g, st, k, sp, s, fuel) == S.Ok((out, s'))
    ensures k < 0 && S.Eval(g, st.c, sp, s, fuel) == S.Ok((v, s1))
    ensures var d := S.Dispatch(S.Cases(st.body), v);
            if d < 0 then out == S.Normal && s' == s1
            else S.Exec(g, st.body, d, sp, s1, fuel) == S.Ok((o1, s')) && out == if o1.Broke? then S.Normal else o1
  {
    hide S.Eval, S.Dispatch, S.Cases;
    assert S.Cases(st) == [] by { NoCases(st); }
    var r := S.Eval(g, st.c, sp, s, fuel).v;
    v, s1 := r.0, r.1;
    var d := S.Dispatch(S.Cases(st.body), v);
    o1 := if d < 0 then S.Normal else S.Exec(g, st.body, d, sp, s1, fuel).v.0;
  }

  lemma NoCases(st: Stmt)
    requires st.Switch?
    ensures S.Cases(st) == []
  {
  }

  lemma SwitchParts(c: Ctx, cx: Cx, st: Stmt, l: int, first: int, pos: int)
    requires st.Switch? && StmtReady(c, cx, st, l, first, pos)
    ensures var cs := S.Cases(st.body); var lc := l + 1 + ELabels(st.c); var f := lc + |cs| - 1;
            var a, d, b := Code(cx.offs, st.c, l + 1), DispatchCode(cs, f), SCode(cx.(brk := l), st.body, lc + |cs|, f);
            var q := pos + |a| + |d|;
            && |SCode(cx, st, l, first)| == |a| + |d| + 1 + |b|
            && Holding(c.im, c.labs, pos, a) && Holding(c.im, c.labs, pos + |a|, d)
            && Holding(c.im, c.labs, q, [J(JB, if S.Default(cs) >= 0 then f - S.Default(cs) else l)])
            && StmtReady(c, cx.(brk := l), st.body, lc + |cs|, f, q + 1)
            && LabelAt(c.labs, l, q + 1 + |b|)
            && Placed(cx.offs, st.c, l + 1, pos, c.labs) && WfE(|c.g.p.funcs|, |c.g.offs|, st.c)
  {
    hide Good, Holding, Code, Placed, WfE, ELabels, SLabels, DispatchCode, S.Default, S.Cases;
    var cs, lc := S.Cases(st.body), l + 1 + ELabels(st.c);
    var f := lc + |cs| - 1;
    var a, d, b := Code(cx.offs, st.c, l + 1), DispatchCode(cs, f), SCode(cx.(brk := l), st.body, lc + |cs|, f);
    var j := [J(JB, if S.Default(cs) >= 0 then f - S.Default(cs) else l)];
    HoldingParts(c.im, c.labs, pos, a + d + j, b);
    HoldingParts(c.im, c.labs, pos, a + d, j);
    HoldingParts(c.im, c.labs, pos, a, d);
  }

  /** From the switch value in x0 to the chosen label, or to the end. */
  lemma SelectOk(c: Ctx, cs: seq<Option<int>>, f: int, l: int, pos: int, sp: int, s: S.Store, m: State, v: i64)
      returns (m': State)
    requires Holding(c.im, c.labs, pos, DispatchCode(cs, f)) && AllPlaced(c.labs, f, |cs|) && l in c.labs
    requires Holding(c.im, c.labs, pos + |DispatchCode(cs, f)|,
             [J(JB, if S.Default(cs) >= 0 then f - S.Default(cs) else l)])
    requires Rel(c.g, s, sp, m) && m.pc == PcOf(c.im, pos) && m.x[0] == ToU(v)
    ensures var d := S.Dispatch(cs, v);
            d < |cs| && (d >= 0 ==> f - d in c.labs)
              && Did(c.im, c.g, s, s, sp, m, m', if d >= 0 then c.labs[f - d] else c.labs[l])
  {
    DefaultBound(cs);
    hide Reaches, Holding, Rel, Kept, DispatchCode, S.Match, S.Default;
    var q := pos + |DispatchCode(cs, f)|;
    m' := DispatchOk(c, cs, f, pos, sp, s, m, v);
    if S.Match(cs, v) < 0 {
      var to := if S.Default(cs) >= 0 then f - S.Default(cs) else l;
      var m1 := JumpDid(c, q, [J(JB, to)], 0, s, sp, m');
      DidTrans(c.im, c.g, s, s, s, sp, m, m', m1, q, c.labs[to]);
      m' := m1;
    }
  }

  lemma SwitchOk(c: Ctx, cx: Cx, st: Stmt, k: int, l: int, first: int, pos: int, sp: int, s: S.Store, fuel: nat,
      m: State, out: S.Out, s': S.Store) returns (m': State)
    requires st.Switch?
    requires StmtReady(c, cx, st, l, first, pos) && Rel(c.g, s, sp, m) && Enters(c, |S.Cases(st)|, k, first, pos, m)
    requires S.Exec(c.g, st, k, sp, s, fuel) == S.Ok((out, s'))
    ensures Leaves(c, cx, out, s, s', sp, m, m', pos + |SCode(cx, st, l, first)|)
    decreases fuel, st, 1
  {
    hide Reaches, Holding, Good, Rel, Kept, S.Exec, S.Eval, S.Cases, S.Dispatch, S.Default, SCode, SPlaced, Code,
      Placed, WfS, WfE, DispatchCode;
    SwitchParts(c, cx, st, l, first, pos);
    var v, s1, o1 := SwitchInv(c.g, st, k, sp, s, fuel, out, s');
    var cs, lc := S.Cases(st.body), l + 1 + ELabels(st.c);
    var f := lc + |cs| - 1;
    var a := Code(cx.offs, st.c, l + 1);
    var pb := pos + |a| + |DispatchCode(cs, f)| + 1;
    var end := pos + |SCode(cx, st, l, first)|;
    CasesPlaced(cx.(brk := l), st.body, lc + |cs|, f, pb, c.labs);
    var m1 := ExprOk(c, st.c, l + 1, pos, sp, s, fuel, m, v, s1);
    var m2 := SelectOk(c, cs, f, l, pos + |a|, sp, s1, m1, v);
    var d := S.Dispatch(cs, v);
    var q := if d >= 0 then c.labs[f - d] else end;
    DidTrans(c.im, c.g, s, s1, s1, sp, m, m1, m2, pos + |a|, q);
    m' := m2;
    if d >= 0 {
      m' := StmtOk(c, cx.(brk := l), st.body, d, lc + |cs|, f, pb, sp, s1, fuel, m2, o1, s');
      assert Leaves(c, cx, out, s1, s', sp, m2, m', end);
      LeavesAfter(c, cx, out, s, s1, s', sp, m, m2, m', q, end);
    }
  }

  // ---------------------------------------------------------------- functions

  lemma CallUserInv(g: S.Env, f: nat, vs: seq<i64>, sp: int, s: S.Store, fuel: nat, v: i64, s': S.Store)
    returns (s1: S.Store, out: S.Out, s2: S.Store)
    requires f < |g.p.funcs| && S.CallUser(g, f, vs, sp, s, fuel) == S.Ok((v, s'))
    ensures var fn := g.p.funcs[f]; var frame := Frame(fn.locals); var low := sp - 16 - frame;
            var g1 := g.(offs := Offsets(fn.locals), fp := sp - 16);
            && low >= g.lo
            && S.StoreParams(fn, g1.offs, g1.fp, vs, 0, S.OpenFrame(s, low, frame)) == S.Ok(s1)
            && S.Exec(g1, fn.body, -1, low, s1, fuel) == S.Ok((out, s2))
            && s' == S.CloseFrame(s2, low, frame) && (out.Normal? || out.Returned?)
            && v == if out.Returned? then out.v else 0
  {
    hide S.Exec, S.StoreParams, S.OpenFrame, S.CloseFrame, Frame, Offsets;
    var fn := g.p.funcs[f];
    var frame := Frame(fn.locals);
    var low := sp - 16 - frame;
    var g1 := g.(offs := Offsets(fn.locals), fp := sp - 16);
    s1 := S.StoreParams(fn, g1.offs, g1.fp, vs, 0, S.OpenFrame(s, low, frame)).v;
    var r := S.Exec(g1, fn.body, -1, low, s1, fuel).v;
    out, s2 := r.0, r.1;
  }

  lemma FrameShape(tys: seq<Ty>)
    ensures Frame(tys) % 16 == 0 && |Offsets(tys)| == |tys|
  {
    OffsetsShape(tys, 0);
    AlignUpBounds(if Offsets(tys) == [] then 0 else Offsets(tys)[|tys| - 1], 16);
  }

  /** Where the pieces of a function lie. */
  lemma FuncParts(c: Ctx, f: nat, g1: S.Env)
    requires Good(c.im, c.g) && f < |c.g.p.funcs|
    requires g1.p == c.g.p && g1.w == c.g.w && g1.offs == Offsets(c.g.p.funcs[f].locals)
    ensures f < |c.im.entry| && f < |c.im.tabs|
    ensures var fn := c.g.p.funcs[f]; var labs, pos := c.im.tabs[f], c.im.entry[f];
            var a, sp, cx := Prologue(Frame(fn.locals)), SpillCode(fn, g1.offs, 0), BodyCx(c.g.p, fn);
            var pb := pos + |a| + |sp|; var pe := pb + |SCode(cx, fn.body, 1, -1)|;
            && Holding(c.im, labs, pos, a) && Holding(c.im, labs, pos + |a|, sp)
            && Holding(c.im, labs, pe, [I(Movz(0, 0))]) && Holding(c.im, labs, pe + 1, Epilogue())
            && LabelAt(labs, RET, pe + 1) && Frame(fn.locals) <= 0xFFF && Frame(fn.locals) % 16 == 0 && |fn.params| <= 8
            && StmtReady(Ctx(c.im, labs, g1), cx, fn.body, 1, -1, pb)
  {
    hide Reaches, Holding, Prologue, SpillCode, SCode, SPlaced, WfS, Epilogue, Frame, Offsets;
    assert FuncLoaded(c.im, c.g.p, f);
    assert Good(c.im, g1);
    var fn := c.g.p.funcs[f];
    FrameShape(fn.locals);
    hide Good;
    var labs, pos := c.im.tabs[f], c.im.entry[f];
    var a, sp := Prologue(Frame(fn.locals)), SpillCode(fn, g1.offs, 0);
    var b := SCode(BodyCx(c.g.p, fn), fn.body, 1, -1);
    HoldingParts(c.im, labs, pos, a + sp + b + [I(Movz(0, 0))], Epilogue());
    HoldingParts(c.im, labs, pos, a + sp + b, [I(Movz(0, 0))]);
    HoldingParts(c.im, labs, pos, a + sp, b);
    HoldingParts(c.im, labs, pos, a, sp);
  }

  /** What the body leaves behind: the outcome's value in x0, at the epilogue. */
  lemma BodyEndOk(c: Ctx, cx: Cx, pos: int, out: S.Out, s: S.Store, s': S.Store, sp: int, m: State, m1: State)
      returns (m': State)
    requires Leaves(c, cx, out, s, s', sp, m, m1, pos) && (out.Normal? || out.Returned?)
    requires Holding(c.im, c.labs, pos, [I(Movz(0, 0))]) && LabelAt(c.labs, RET, pos + 1)
    ensures Did(c.im, c.g, s, s', sp, m, m', pos + 1) && m'.x[0] == ToU(if out.Returned? then out.v else 0)
  {
    hide Reaches, Rel, Kept, Holding;
    if out.Normal? {
      m' := MovzDid(c, pos, [I(Movz(0, 0))], 0, 0, s', sp, m1);
      DidTrans(c.im, c.g, s, s', s', sp, m, m1, m', pos, pos + 1);
    } else {
      m' := m1;
    }
  }

  /** The saved frame record survives the body. */
  lemma RecordKept(m: State, m': State, s: S.Store, lo: int, sp: int, frame: nat, fp: u64, ra: u64, m0: State, g: S.Env)
    requires Rel(g, s, sp, m0) && g.lo == lo && sp - 16 - frame >= lo
    requires Saved(m, sp - 16, fp) && Saved(m, sp - 8, ra)
    requires Kept(m.mem, m'.mem, S.OpenFrame(s, sp - 16 - frame, frame).alloc, lo, sp - 16 - frame)
    ensures Saved(m', sp - 16, fp) && Saved(m', sp - 8, ra)
  {
    LoadAgree(m.mem, m'.mem, sp - 16);
    LoadAgree(m.mem, m'.mem, sp - 8);
  }

  lemma KeptCall(m0: Memory, m1: Memory, m2: Memory, s: S.Store, lo: int, sp: int, frame: nat)
    requires Kept(m0, m1, s.alloc, lo, sp) && sp - 16 - frame >= lo
    requires Kept(m1, m2, S.OpenFrame(s, sp - 16 - frame, frame).alloc, lo, sp - 16 - frame)
    ensures Kept(m0, m2, s.alloc, lo, sp)
  {
  }

  /** A call: from the entry with the arguments in x0.. and the return address in x30, the
      function returns there with its value in x0 and SP and x29 as they were. */
  lemma CallUserOk(c: Ctx, f: nat, vs: seq<i64>, sp: int, s: S.Store, fuel: nat, st: State, r: int, v: i64,
      s': S.Store) returns (st': State)
    requires Good(c.im, c.g) && f < |c.g.p.funcs| == |c.im.entry| && st.pc == PcOf(c.im, c.im.entry[f])
             && st.x[30] == PcOf(c.im, r)
    requires Rel(c.g, s, sp, st) && |vs| <= 8 && (forall i :: 0 <= i < |vs| ==> st.x[i] == ToU(vs[i]))
    requires S.CallUser(c.g, f, vs, sp, s, fuel) == S.Ok((v, s'))
    ensures Did(c.im, c.g, s, s', sp, st, st', r) && st'.x[0] == ToU(v)
    decreases fuel
  {
    hide Reaches, Holding, Good, Rel, Kept, S.Exec, S.CallUser, S.StoreParams, S.CloseFrame, S.Cases, SCode, SPlaced,
      WfS, Prologue, SpillCode, Epilogue, Frame, Offsets, Saved;
    var s1, out, s2 := CallUserInv(c.g, f, vs, sp, s, fuel, v, s');
    RelBounds(c.g, s, sp, st);
    var fn := c.g.p.funcs[f];
    var frame := Frame(fn.locals);
    var low := sp - 16 - frame;
    var g1 := c.g.(offs := Offsets(fn.locals), fp := sp - 16);
    FuncParts(c, f, g1);
    var c1 := Ctx(c.im, c.im.tabs[f], g1);
    var s0 := S.OpenFrame(s, low, frame);
    var pos := c.im.entry[f];
    var cx := BodyCx(c.g.p, fn);
    var p1 := pos + |Prologue(frame)|;
    var pb := p1 + |SpillCode(fn, g1.offs, 0)|;
    var pe := pb + |SCode(cx, fn.body, 1, -1)|;
    var m1 := PrologueOk(c.im, c1.labs, pos, frame, c.g, g1, s, sp, st);
    var m2 := SpillOk(c1, fn, 0, vs, p1, low, s0, m1, s1);
    var m3 := StmtOk(c1, cx, fn.body, -1, 1, -1, pb, low, s1, fuel, m2, out, s2);
    var m4 := BodyEndOk(c1, cx, pe, out, s1, s2, low, m2, m3);
    DidTrans(c.im, g1, s0, s1, s2, low, m1, m2, m4, pb, pe + 1);
    RecordKept(m1, m4, s, c.g.lo, sp, frame, st.x[29], st.x[30], st, c.g);
    KeptCall(st.mem, m1.mem, m4.mem, s, c.g.lo, sp, frame);
    st' := EpilogueOk(c.im, c1.labs, pe + 1, frame, c.g, g1, s, s2, sp, st, m4, st.x[30]);
    ReachTrans(c.im.m, st, m1, m4);
    ReachTrans(c.im.m, st, m4, st');
  }
}
