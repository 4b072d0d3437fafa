/** Programs that do not end: when the source runs for ever, so does the machine.  Each unit
    of fuel a computation uses up is at least one machine step. */
module Forever {
  import opened Options
  import opened Word
  import opened Mem
  import opened Arm
  import opened Cpu
  import opened Ast
  import opened Emit
  import opened Loaded
  import opened Sim
  import opened Programs
  import opened Pieces
  import opened Correct
  import S = Semantics

  /** The machine takes n steps or more from st. */
  ghost predicate RunsOn(m: Machine, st: State, n: nat) {
    exists k: nat, t :: k >= n && Run.Steps(Stepper(m), st, t, k)
  }

  lemma RunsZero(m: Machine, st: State)
    ensures RunsOn(m, st, 0)
  {
    assert Run.Steps(Stepper(m), st, st, 0);
  }

  lemma RunsLater(m: Machine, st: State, st1: State, n: nat)
    requires Reaches(m, st, st1) && RunsOn(m, st1, n)
    ensures RunsOn(m, st, n)
  {
    hide Step;
    var i: nat :| Run.Steps(Stepper(m), st, st1, i);
    var k: nat, t :| k >= n && Run.Steps(Stepper(m), st1, t, k);
    Run.StepsAppend(Stepper(m), st, st1, t, i, k);
  }

  lemma RunsStep(m: Machine, st: State, st1: State, n: nat)
    requires Step(m, st) == Some(st1) && RunsOn(m, st1, n)
    ensures RunsOn(m, st, n + 1)
  {
    hide Step;
    var k: nat, t :| k >= n && Run.Steps(Stepper(m), st1, t, k);
    assert Run.Steps(Stepper(m), st, t, k + 1);
  }

  /** Getting somewhere else takes a step. */
  lemma RunsMoved(m: Machine, st: State, st1: State, n: nat)
    requires Reaches(m, st, st1) && st != st1 && RunsOn(m, st1, n)
    ensures RunsOn(m, st, n + 1)
  {
    hide Step;
    var i: nat :| Run.Steps(Stepper(m), st, st1, i);
    var k: nat, t :| k >= n && Run.Steps(Stepper(m), st1, t, k);
    Run.StepsAppend(Stepper(m), st, st1, t, i, k);
  }

  lemma DidLater(im: Image, g: S.Env, s: S.Store, s1: S.Store, sp: int, st: State, st1: State, pos: int, n: nat)
    requires Did(im, g, s, s1, sp, st, st1, pos) && RunsOn(im.m, st1, n)
    ensures RunsOn(im.m, st, n)
  {
    hide Rel, Kept, Reaches, RunsOn;
    RunsLater(im.m, st, st1, n);
  }

  // ---------------------------------------------------------------- expressions

  lemma ExprLasts(c: Ctx, e: Expr, l: int, pos: int, sp: int, s: S.Store, fuel: nat, st: State)
    requires ExprReady(c, e, l, pos, sp, s, st) && S.Eval(c.g, e, sp, s, fuel) == S.Timeout
    ensures RunsOn(c.im.m, st, fuel)
    decreases fuel, e, 2
  {
    hide Rel, Holding, Good, RunsOn, S.LoadAt, S.CallBuiltin;
    match e
    case Var(_, _) => ReadLasts(c, e, l, pos, sp, s, fuel, st);
    case Member(_, _, _) => ReadLasts(c, e, l, pos, sp, s, fuel, st);
    case Deref(_, _) => DerefLasts(c, e, l, pos, sp, s, fuel, st);
    case AddrOf(x) => AddrLasts(c, x, l, pos, sp, s, fuel, st);
    case Neg(_) => UnaryLasts(c, e, l, pos, sp, s, fuel, st);
    case Not(_) => UnaryLasts(c, e, l, pos, sp, s, fuel, st);
    case Assign(_, _) => AssignLasts(c, e, l, pos, sp, s, fuel, st);
    case And(_, _) => LogicLasts(c, e, l, pos, sp, s, fuel, st);
    case Or(_, _) => LogicLasts(c, e, l, pos, sp, s, fuel, st);
    case Bin(_, _, _) => BinLasts(c, e, l, pos, sp, s, fuel, st);
    case Call(_, _) => CallLasts(c, e, l, pos, sp, s, fuel, st);
    case _ =>
  }

  lemma ReadLasts(c: Ctx, e: Expr, l: int, pos: int, sp: int, s: S.Store, fuel: nat, st: State)
    requires (e.Var? || e.Member?) && ExprReady(c, e, l, pos, sp, s, st) && S.Eval(c.g, e, sp, s, fuel) == S.Timeout
    ensures RunsOn(c.im.m, st, fuel)
    decreases fuel, e, 1
  {
    hide Rel, Holding, Good, LoadSeq, RunsOn;
    HoldingParts(c.im, c.labs, pos, AddrCode(c.g.offs, e, l), LoadSeq(e.ty));
    AddrLasts(c, e, l, pos, sp, s, fuel, st);
  }

  lemma DerefLasts(c: Ctx, e: Expr, l: int, pos: int, sp: int, s: S.Store, fuel: nat, st: State)
    requires e.Deref? && ExprReady(c, e, l, pos, sp, s, st) && S.Eval(c.g, e, sp, s, fuel) == S.Timeout
    ensures RunsOn(c.im.m, st, fuel)
    decreases fuel, e, 1
  {
    hide Rel, Holding, Good, LoadSeq, RunsOn;
    HoldingParts(c.im, c.labs, pos, Code(c.g.offs, e.p, l), LoadSeq(e.ty));
    ExprLasts(c, e.p, l, pos, sp, s, fuel, st);
  }

  lemma UnaryTimes(g: S.Env, e: Expr, sp: int, s: S.Store, fuel: nat)
    requires (e.Neg? || e.Not?) && S.Eval(g, e, sp, s, fuel) == S.Timeout
    ensures S.Eval(g, e.e, sp, s, fuel) == S.Timeout
  {
    hide S.EvalAddr, S.EvalArgs;
  }

  lemma UnaryLasts(c: Ctx, e: Expr, l: int, pos: int, sp: int, s: S.Store, fuel: nat, st: State)
    requires (e.Neg? || e.Not?) && ExprReady(c, e, l, pos, sp, s, st) && S.Eval(c.g, e, sp, s, fuel) == S.Timeout
    ensures RunsOn(c.im.m, st, fuel)
    decreases fuel, e, 1
  {
    hide Rel, Holding, Good, RunsOn, S.Eval, Code, Placed, WfE;
    UnaryTimes(c.g, e, sp, s, fuel);
    UnaryParts(c, e, l, pos);
    HoldingParts(c.im, c.labs, pos, Code(c.g.offs, e.e, l),
      if e.Neg? then [I(SubRRR(0, 31, 0))] else [I(Cmp0(0)), I(Cset(0, EQ))]);
    ExprLasts(c, e.e, l, pos, sp, s, fuel, st);
  }

  lemma BinTimes(g: S.Env, e: Expr, sp: int, s: S.Store, fuel: nat) returns (y: i64, s1: S.Store)
    requires e.Bin? && S.Eval(g, e, sp, s, fuel) == S.Timeout
    ensures S.Eval(g, e.r2, sp, s, fuel) == S.Timeout
            || (S.Eval(g, e.r2, sp, s, fuel) == S.Ok((y, s1)) && sp - 16 >= g.lo
               && S.Eval(g, e.l, sp - 16, s1, fuel) == S.Timeout)
  {
    hide S.Apply, S.EvalAddr, S.EvalArgs;
    y, s1 := 0, s;
    if S.Eval(g, e.r2, sp, s, fuel).Ok? { y, s1 := S.Eval(g, e.r2, sp, s, fuel).v.0, S.Eval(g, e.r2, sp, s, fuel).v.1; }
  }

  lemma BinLasts(c: Ctx, e: Expr, l: int, pos: int, sp: int, s: S.Store, fuel: nat, st: State)
    requires e.Bin? && ExprReady(c, e, l, pos, sp, s, st) && S.Eval(c.g, e, sp, s, fuel) == S.Timeout
    ensures RunsOn(c.im.m, st, fuel)
    decreases fuel, e, 1
  {
    hide Holding, Good, OpSeq, Saved, Rel, Kept, S.Eval, Code, Placed, WfE, Reaches, RunsOn;
    BinParts(c, e, l, pos);
    var y, s1 := BinTimes(c.g, e, sp, s, fuel);
    var a, b := Code(c.g.offs, e.r2, l), Code(c.g.offs, e.l, l + ELabels(e.r2));
    HoldingTwo(c, pos, a, b, OpSeq(e.op));
    if S.Eval(c.g, e.r2, sp, s, fuel) == S.Timeout {
      ExprLasts(c, e.r2, l, pos, sp, s, fuel, st);
    } else {
      var st1 := ExprOk(c, e.r2, l, pos, sp, s, fuel, st, y, s1);
      var st2 := TempPush(c, pos + |a|, [I(Push)], 0, s1, sp, st1);
      ExprLasts(c, e.l, l + ELabels(e.r2), pos + |a| + 1, sp - 16, s1, fuel, st2);
      RunsLater(c.im.m, st1, st2, fuel);
      DidLater(c.im, c.g, s, s1, sp, st, st1, pos + |a|, fuel);
    }
  }

  lemma AssignTimes(g: S.Env, e: Expr, sp: int, s: S.Store, fuel: nat) returns (y: u64, s1: S.Store)
    requires e.Assign? && S.Eval(g, e, sp, s, fuel) == S.Timeout
    ensures S.EvalAddr(g, e.lhs, sp, s, fuel) == S.Timeout
            || (S.EvalAddr(g, e.lhs, sp, s, fuel) == S.Ok((y, s1)) && sp - 16 >= g.lo
               && S.Eval(g, e.rhs, sp - 16, s1, fuel) == S.Timeout)
  {
    hide S.EvalAddr, S.EvalArgs;
    y, s1 := 0, s;
    if S.EvalAddr(g, e.lhs, sp, s, fuel).Ok? {
      y, s1 := S.EvalAddr(g, e.lhs, sp, s, fuel).v.0, S.EvalAddr(g, e.lhs, sp, s, fuel).v.1;
    }
  }

  lemma AssignLasts(c: Ctx, e: Expr, l: int, pos: int, sp: int, s: S.Store, fuel: nat, st: State)
    requires e.Assign? && ExprReady(c, e, l, pos, sp, s, st) && S.Eval(c.g, e, sp, s, fuel) == S.Timeout
    ensures RunsOn(c.im.m, st, fuel)
    decreases fuel, e, 1
  {
    hide Holding, Good, StoreSeq, Saved, Rel, Kept, S.Eval, S.EvalAddr, Code, AddrCode, Placed, WfE, Reaches, RunsOn;
    AssignParts(c, e, l, pos);
    var y, s1 := AssignTimes(c.g, e, sp, s, fuel);
    var a, b := AddrCode(c.g.offs, e.lhs, l), Code(c.g.offs, e.rhs, l + ELabels(e.lhs));
    HoldingTwo(c, pos, a, b, StoreSeq(TyOf(e.lhs)));
    if S.EvalAddr(c.g, e.lhs, sp, s, fuel) == S.Timeout {
      AddrLasts(c, e.lhs, l, pos, sp, s, fuel, st);
    } else {
      var st1 := AddrOk(c, e.lhs, l, pos, sp, s, fuel, st, y, s1);
      var st2 := TempPush(c, pos + |a|, [I(Push)], 0, s1, sp, st1);
      ExprLasts(c, e.rhs, l + ELabels(e.lhs), pos + |a| + 1, sp - 16, s1, fuel, st2);
      RunsLater(c.im.m, st1, st2, fuel);
      DidLater(c.im, c.g, s, s1, sp, st, st1, pos + |a|, fuel);
    }
  }

  lemma AddrLasts(c: Ctx, e: Expr, l: int, pos: int, sp: int, s: S.Store, fuel: nat, st: State)
    requires Ready(c, AddrCode(c.g.offs, e, l), pos, sp, s, st) && Placed(c.g.offs, e, l, pos, c.labs)
    requires WfE(|c.g.p.funcs|, |c.g.offs|, e) && Lvalue(e) && S.EvalAddr(c.g, e, sp, s, fuel) == S.Timeout
    ensures RunsOn(c.im.m, st, fuel)
    decreases fuel, e, 0
  {
    hide Holding, Good, Rel, RunsOn;
    match e
    case Deref(p, _) => ExprLasts(c, p, l, pos, sp, s, fuel, st);
    case Member(b, off, _) =>
      HoldingParts(c.im, c.labs, pos, AddrCode(c.g.offs, b, l),
        if off != 0 then [I(AddImm(0, 0, off % 0x1000))] else []);
      AddrLasts(c, b, l, pos, sp, s, fuel, st);
    case _ =>
  }

  lemma LogicTimes(g: S.Env, e: Expr, sp: int, s: S.Store, fuel: nat) returns (x: i64, s1: S.Store)
    requires (e.And? || e.Or?) && S.Eval(g, e, sp, s, fuel) == S.Timeout
    ensures S.Eval(g, e.l, sp, s, fuel) == S.Timeout
            || (S.Eval(g, e.l, sp, s, fuel) == S.Ok((x, s1)) && (x == 0) != e.And?
               && S.Eval(g, e.r2, sp, s1, fuel) == S.Timeout)
  {
    hide S.EvalAddr, S.EvalArgs;
    x, s1 := 0, s;
    if S.Eval(g, e.l, sp, s, fuel).Ok? { x, s1 := S.Eval(g, e.l, sp, s, fuel).v.0, S.Eval(g, e.l, sp, s, fuel).v.1; }
  }

  lemma LogicLasts(c: Ctx, e: Expr, l: int, pos: int, sp: int, s: S.Store, fuel: nat, st: State)
    requires (e.And? || e.Or?) && ExprReady(c, e, l, pos, sp, s, st) && S.Eval(c.g, e, sp, s, fuel) == S.Timeout
    ensures RunsOn(c.im.m, st, fuel)
    decreases fuel, e, 1
  {
    hide Holding, Good, Rel, Kept, S.Eval, Code, Placed, WfE, Reaches, FirstBranch, LogicTail, RunsOn;
    LogicParts(c, e, l, pos);
    var x, s1 := LogicTimes(c.g, e, sp, s, fuel);
    var a, h, b := Code(c.g.offs, e.l, l + 2), FirstBranch(e, l), Code(c.g.offs, e.r2, l + 2 + ELabels(e.l));
    HoldingParts(c.im, c.labs, pos, a + h + b, LogicTail(e, l));
    HoldingParts(c.im, c.labs, pos, a + h, b);
    HoldingParts(c.im, c.labs, pos, a, h);
    if S.Eval(c.g, e.l, sp, s, fuel) == S.Timeout {
      ExprLasts(c, e.l, l + 2, pos, sp, s, fuel, st);
    } else {
      var q1, p1 := pos + |a|, pos + |a| + |h|;
      var st1 := ExprOk(c, e.l, l + 2, pos, sp, s, fuel, st, x, s1);
      var st2 := FirstBranchOk(c, e, l, q1, p1 + |b| + 3, x, s1, sp, st1);
      ExprLasts(c, e.r2, l + 2 + ELabels(e.l), p1, sp, s1, fuel, st2);
      DidLater(c.im, c.g, s1, s1, sp, st1, st2, p1, fuel);
      DidLater(c.im, c.g, s, s1, sp, st, st1, q1, fuel);
    }
  }

  // ---------------------------------------------------------------- calls

  lemma ArgsTimes(c: Ctx, e: Expr, t: Exprs, l: int, pos: int, sp: int, s: S.Store, fuel: nat)
      returns (v: i64, s1: S.Store)
    requires S.EvalArgs(c.g, ECons(e, t), sp, s, fuel) == S.Timeout
    requires ArgsPlaced(c.g.offs, ECons(e, t), l, pos, c.labs) && WfArgs(|c.g.p.funcs|, |c.g.offs|, ECons(e, t))
    ensures S.Eval(c.g, e, sp, s, fuel) == S.Timeout
            || (S.Eval(c.g, e, sp, s, fuel) == S.Ok((v, s1)) && sp - 16 >= c.g.lo
               && S.EvalArgs(c.g, t, sp - 16, s1, fuel) == S.Timeout)
    ensures var a := Code(c.g.offs, e, l);
            && ArgsCode(c.g.offs, ECons(e, t), l) == a + [I(Push)] + ArgsCode(c.g.offs, t, l + ELabels(e))
            && Placed(c.g.offs, e, l, pos, c.labs) && WfE(|c.g.p.funcs|, |c.g.offs|, e)
            && ArgsPlaced(c.g.offs, t, l + ELabels(e), pos + |a| + 1, c.labs) && WfArgs(|c.g.p.funcs|, |c.g.offs|, t)
  {
    hide S.Eval, Code, Placed, WfE;
    v, s1 := 0, s;
    if S.Eval(c.g, e, sp, s, fuel).Ok? { v, s1 := S.Eval(c.g, e, sp, s, fuel).v.0, S.Eval(c.g, e, sp, s, fuel).v.1; }
  }

  lemma ArgsLasts(c: Ctx, es: Exprs, l: int, pos: int, sp: int, s: S.Store, fuel: nat, st: State)
    requires Ready(c, ArgsCode(c.g.offs, es, l), pos, sp, s, st) && ArgsPlaced(c.g.offs, es, l, pos, c.labs)
    requires WfArgs(|c.g.p.funcs|, |c.g.offs|, es) && S.EvalArgs(c.g, es, sp, s, fuel) == S.Timeout
    ensures RunsOn(c.im.m, st, fuel)
    decreases fuel, es, 0
  {
    hide Reaches, Holding, Good, Rel, Kept, S.Eval, Code, Placed, WfE, Saved, RunsOn;
    match es
    case ENil =>
    case ECons(e, t) =>
      var v, s1 := ArgsTimes(c, e, t, l, pos, sp, s, fuel);
      var a := Code(c.g.offs, e, l);
      HoldingParts(c.im, c.labs, pos, a + [I(Push)], ArgsCode(c.g.offs, t, l + ELabels(e)));
      HoldingParts(c.im, c.labs, pos, a, [I(Push)]);
      if S.Eval(c.g, e, sp, s, fuel) == S.Timeout {
        ExprLasts(c, e, l, pos, sp, s, fuel, st);
      } else {
        var st1 := ExprOk(c, e, l, pos, sp, s, fuel, st, v, s1);
        var st2 := TempPush(c, pos + |a|, [I(Push)], 0, s1, sp, st1);
        ArgsLasts(c, t, l + ELabels(e), pos + |a| + 1, sp - 16, s1, fuel, st2);
        RunsLater(c.im.m, st1, st2, fuel);
        DidLater(c.im, c.g, s, s1, sp, st, st1, pos + |a|, fuel);
      }
  }

  lemma CallTimes(c: Ctx, e: Expr, l: int, pos: int, sp: int, s: S.Store, fuel: nat, st: State)
      returns (vs: seq<i64>, s1: S.Store)
    requires e.Call? && ExprReady(c, e, l, pos, sp, s, st) && S.Eval(c.g, e, sp, s, fuel) == S.Timeout
    ensures S.EvalArgs(c.g, e.args, sp, s, fuel) == S.Timeout
            || (S.EvalArgs(c.g, e.args, sp, s, fuel) == S.Ok((vs, s1)) && e.f.User? && e.f.i < |c.g.p.funcs|
                && (fuel > 0 ==> S.CallUser(c.g, e.f.i, vs, sp, s1, fuel - 1) == S.Timeout))
    ensures Code(c.g.offs, e, l) == ArgsCode(c.g.offs, e.args, l) + PopSeq(Count(e.args)) + CallSeq(e.f)
    ensures ArgsPlaced(c.g.offs, e.args, l, pos, c.labs) && WfArgs(|c.g.p.funcs|, |c.g.offs|, e.args)
            && Count(e.args) <= 8
  {
    hide Ready, S.CallUser, S.EvalArgs, S.Apply, S.LoadAt, S.StoreAt, CallSeq;
    vs, s1 := [], s;
    if S.EvalArgs(c.g, e.args, sp, s, fuel).Ok? {
      vs, s1 := S.EvalArgs(c.g, e.args, sp, s, fuel).v.0, S.EvalArgs(c.g, e.args, sp, s, fuel).v.1;
    }
  }

  lemma CallLasts(c: Ctx, e: Expr, l: int, pos: int, sp: int, s: S.Store, fuel: nat, st: State)
    requires e.Call? && ExprReady(c, e, l, pos, sp, s, st) && S.Eval(c.g, e, sp, s, fuel) == S.Timeout
    ensures RunsOn(c.im.m, st, fuel)
    decreases fuel, e, 1
  {
    hide Reaches, Holding, Good, Rel, Kept, S.Eval, S.EvalArgs, S.CallUser, Code, ArgsCode, Placed, ArgsPlaced, WfE,
      WfArgs, PopSeq, CallSeq, RunsOn;
    var vs, s1 := CallTimes(c, e, l, pos, sp, s, fuel, st);
    var a, b, d := ArgsCode(c.g.offs, e.args, l), PopSeq(Count(e.args)), CallSeq(e.f);
    HoldingParts(c.im, c.labs, pos, a + b, d);
    HoldingParts(c.im, c.labs, pos, a, b);
    if S.EvalArgs(c.g, e.args, sp, s, fuel) == S.Timeout {
      ArgsLasts(c, e.args, l, pos, sp, s, fuel, st);
    } else if fuel == 0 {
      RunsZero(c.im.m, st);
    } else {
      var q := pos + |a| + |b|;
      var st1 := ArgsPopped(c, e.args, l, pos, sp, s, fuel, st, vs, s1);
      DidParts(c.im, c.g, s, s1, sp, st, st1, q);
      var mid, st2 := JumpInto(c, e.f.i, q, vs, sp, s1, st1);
      CallUserLasts(c, e.f.i, vs, sp, s1, fuel - 1, st2);
      RunsStep(c.im.m, mid, st2, fuel - 1);
      RunsLater(c.im.m, st1, mid, fuel);
      DidLater(c.im, c.g, s, s1, sp, st, st1, q, fuel);
    }
  }

  /** The last step into a function, on its own. */
  lemma JumpInto(c: Ctx, f: nat, pos: int, vs: seq<i64>, sp: int, s: S.Store, st: State)
      returns (mid: State, st': State)
    requires Good(c.im, c.g) && f < |c.g.p.funcs| && Holding(c.im, c.labs, pos, CallSeq(User(f)))
    requires Rel(c.g, s, sp, st) && st.pc == PcOf(c.im, pos)
    requires |vs| <= 8 && (forall i :: 0 <= i < |vs| ==> st.x[i] == ToU(vs[i]))
    ensures Reaches(c.im.m, st, mid) && Step(c.im.m, mid) == Some(st') && |c.im.entry| == |c.g.p.funcs|
    ensures Rel(c.g, s, sp, st') && st'.pc == PcOf(c.im, c.im.entry[f]) && forall i :: 0 <= i < |vs| ==>
            st'.x[i] == ToU(vs[i])
  {
    hide Reaches, Holding, Good, Kept, Step, Decode, Encode;
    EntryInCode(c.im, c.g, f);
    var items := CallSeq(User(f));
    SiteInCode(c.im, c.labs, pos, items, 4);
    mid := LoadImmOk(c.im, c.labs, pos, items, 9, ToU(PcOf(c.im, c.im.entry[f])), st);
    Fetch(c.im, c.labs, pos, items, 4, mid);
    st' := Step(c.im.m, mid).value;
  }

  // ---------------------------------------------------------------- statements

  lemma StmtLasts(c: Ctx, cx: Cx, st: Stmt, k: int, l: int, first: int, pos: int, sp: int, s: S.Store, fuel: nat,
      m: State)
    requires StmtReady(c, cx, st, l, first, pos) && Rel(c.g, s, sp, m) && Enters(c, |S.Cases(st)|, k, first, pos, m)
    requires S.Exec(c.g, st, k, sp, s, fuel) == S.Timeout
    ensures RunsOn(c.im.m, m, fuel)
    decreases fuel, st, 2
  {
    hide Holding, Good, Rel, RunsOn;
    match st
    case ExprS(e) => ExprLasts(c, e, l, pos, sp, s, fuel, m);
    case Return(e) =>
      HoldingParts(c.im, c.labs, pos, Code(c.g.offs, e, l), [J(JB, RET)]);
      ExprLasts(c, e, l, pos, sp, s, fuel, m);
    case Block(ss) => ListLasts(c, cx, ss, k, l, first, pos, sp, s, fuel, m);
    case Case(_, b) =>
      assert c.labs[first] == pos;
      StmtLasts(c, cx, b, k - 1, l, first - 1, pos, sp, s, fuel, m);
    case If(_, _, _) => IfLasts(c, cx, st, k, l, first, pos, sp, s, fuel, m);
    case While(_, _) => WhileLasts(c, cx, st, k, l, first, pos, sp, s, fuel, m);
    case For(_, _, _, _) => ForLasts(c, cx, st, k, l, first, pos, sp, s, fuel, m);
    case Switch(_, _) => SwitchLasts(c, cx, st, k, l, first, pos, sp, s, fuel, m);
    case _ =>
  }

  lemma ListLasts(c: Ctx, cx: Cx, ss: Stmts, k: int, l: int, first: int, pos: int, sp: int, s: S.Store, fuel: nat,
      m: State)
    requires Good(c.im, c.g) && Inside(c, cx) && l >= 1
    requires Holding(c.im, c.labs, pos, LCode(cx, ss, l, first)) && LPlaced(cx, ss, l, first, pos, c.labs)
    requires WfL(|c.g.p.funcs|, |c.g.offs|, ss, cx.brk >= 0, cx.cont >= 0)
    requires Rel(c.g, s, sp, m) && Enters(c, |S.CasesList(ss)|, k, first, pos, m)
    requires S.ExecList(c.g, ss, k, sp, s, fuel) == S.Timeout
    ensures RunsOn(c.im.m, m, fuel)
    decreases fuel, ss, 1
  {
    hide Reaches, Holding, Good, Rel, Kept, S.Exec, SCode, SPlaced, WfS, RunsOn;
    match ss
    case SNil =>
    case SCons(h, t) =>
      var n := |S.Cases(h)|;
      var a, b := SCode(cx, h, l, first), LCode(cx, t, l + SLabels(h), first - n);
      HoldingParts(c.im, c.labs, pos, a, b);
      var q := pos + |a|;
      if k >= n && k >= 0 {
        ListLasts(c, cx, t, k - n, l + SLabels(h), first - n, q, sp, s, fuel, m);
      } else if S.Exec(c.g, h, k, sp, s, fuel) == S.Timeout {
        StmtLasts(c, cx, h, k, l, first, pos, sp, s, fuel, m);
      } else {
        var (o1, s1) := S.Exec(c.g, h, k, sp, s, fuel).v;
        var m1 := StmtOk(c, cx, h, k, l, first, pos, sp, s, fuel, m, o1, s1);
        ListLasts(c, cx, t, -1, l + SLabels(h), first - n, q, sp, s1, fuel, m1);
        DidLater(c.im, c.g, s, s1, sp, m, m1, q, fuel);
      }
  }

  lemma IfTimes(c: Ctx, cx: Cx, st: Stmt, k: int, l: int, first: int, pos: int, sp: int, s: S.Store, fuel: nat)
    returns (v: i64, s1: S.Store)
    requires st.If? && StmtReady(c, cx, st, l, first, pos) && S.Exec(c.g, st, k, sp, s, fuel) == S.Timeout
    ensures k < |S.Cases(st)| && |S.Cases(st)| == |S.Cases(st.t)| + |S.Cases(st.f)|
    ensures k < 0 ==> S.Eval(c.g, st.c, sp, s, fuel) == S.Timeout
                      || (S.Eval(c.g, st.c, sp, s, fuel) == S.Ok((v, s1))
                         && S.Exec(c.g, if v != 0 then st.t else st.f, -1, sp, s1, fuel) == S.Timeout)
    ensures 0 <= k < |S.Cases(st.t)| ==> S.Exec(c.g, st.t, k, sp, s, fuel) == S.Timeout
    ensures k >= |S.Cases(st.t)| && k >= 0 ==> S.Exec(c.g, st.f, k - |S.Cases(st.t)|, sp, s, fuel) == S.Timeout
    ensures var lt := l + 2 + ELabels(st.c); var lf := lt + SLabels(st.t); var ff := first - |S.Cases(st.t)|;
            var a, t, f := Code(cx.offs, st.c, l + 2), SCode(cx, st.t, lt, first), SCode(cx, st.f, lf, ff);
            && SCode(cx, st, l, first) == a + [J(JCbz, l)] + t + [J(JB, l + 1)] + f
            && Placed(cx.offs, st.c, l + 2, pos, c.labs) && SPlaced(cx, st.t, lt, first, pos + |a| + 1, c.labs)
            && SPlaced(cx, st.f, lf, ff, pos + |a| + |t| + 2, c.labs)
            && LabelAt(c.labs, l, pos + |a| + |t| + 2)
            && WfE(|c.g.p.funcs|, |c.g.offs|, st.c)
            && WfS(|c.g.p.funcs|, |c.g.offs|, st.t, cx.brk >= 0, cx.cont >= 0)
               && WfS(|c.g.p.funcs|, |c.g.offs|, st.f, cx.brk >= 0, cx.cont >= 0)
  {
    hide Good, Holding, Inside, S.Eval, S.WhileBody, S.ForBody, S.ForTest, S.Dispatch, Code, Placed, WfE;
    v, s1 := 0, s;
    if k < 0 && S.Eval(c.g, st.c, sp, s, fuel).Ok? {
      v, s1 := S.Eval(c.g, st.c, sp, s, fuel).v.0, S.Eval(c.g, st.c, sp, s, fuel).v.1;
    }
  }

  lemma IfLasts(c: Ctx, cx: Cx, st: Stmt, k: int, l: int, first: int, pos: int, sp: int, s: S.Store, fuel: nat,
      m: State)
    requires st.If?
    requires StmtReady(c, cx, st, l, first, pos) && Rel(c.g, s, sp, m) && Enters(c, |S.Cases(st)|, k, first, pos, m)
    requires S.Exec(c.g, st, k, sp, s, fuel) == S.Timeout
    ensures RunsOn(c.im.m, m, fuel)
    decreases fuel, st, 1
  {
    hide Reaches, Holding, Good, Rel, Kept, Did, S.Exec, S.Eval, SCode, SPlaced, Code, Placed, WfS, WfE, S.Cases,
      RunsOn;
    var v, s1 := IfTimes(c, cx, st, k, l, first, pos, sp, s, fuel);
    var lt := l + 2 + ELabels(st.c);
    var n := |S.Cases(st.t)|;
    var lf, ff := lt + SLabels(st.t), first - n;
    var a, t, f := Code(cx.offs, st.c, l + 2), SCode(cx, st.t, lt, first), SCode(cx, st.f, lf, ff);
    var q := pos + |a|;
    var pf := q + |t| + 2;
    HoldingParts(c.im, c.labs, pos, a + [J(JCbz, l)] + t + [J(JB, l + 1)], f);
    HoldingParts(c.im, c.labs, pos, a + [J(JCbz, l)] + t, [J(JB, l + 1)]);
    HoldingParts(c.im, c.labs, pos, a + [J(JCbz, l)], t);
    HoldingParts(c.im, c.labs, pos, a, [J(JCbz, l)]);
    if k >= n && k >= 0 {
      StmtLasts(c, cx, st.f, k - n, lf, ff, pf, sp, s, fuel, m);
    } else if k >= 0 {
      StmtLasts(c, cx, st.t, k, lt, first, q + 1, sp, s, fuel, m);
    } else if S.Eval(c.g, st.c, sp, s, fuel) == S.Timeout {
      ExprLasts(c, st.c, l + 2, pos, sp, s, fuel, m);
    } else {
      var m1 := ExprOk(c, st.c, l + 2, pos, sp, s, fuel, m, v, s1);
      DidParts(c.im, c.g, s, s1, sp, m, m1, q);
      ZeroPattern(v);
      var m2 := JumpDid(c, q, [J(JCbz, l)], 0, s1, sp, m1);
      var q2 := if v == 0 then pf else q + 1;
      DidParts(c.im, c.g, s1, s1, sp, m1, m2, q2);
      if v != 0 {
        StmtLasts(c, cx, st.t, -1, lt, first, q + 1, sp, s1, fuel, m2);
      } else {
        StmtLasts(c, cx, st.f, -1, lf, ff, pf, sp, s1, fuel, m2);
      }
      DidLater(c.im, c.g, s1, s1, sp, m1, m2, q2, fuel);
      DidLater(c.im, c.g, s, s1, sp, m, m1, q, fuel);
    }
  }

  // ---------------------------------------------------------------- loops

  lemma WhileTimes(g: S.Env, st: Stmt, k: int, sp: int, s: S.Store, fuel: nat) returns (v: i64, s1: S.Store)
    requires st.While? && S.Exec(g, st, k, sp, s, fuel) == S.Timeout
    ensures k >= 0 ==> S.WhileBody(g, st, k, sp, s, fuel) == S.Timeout
    ensures k < 0 ==> S.Eval(g, st.c, sp, s, fuel) == S.Timeout
                      || (S.Eval(g, st.c, sp, s, fuel) == S.Ok((v, s1)) && v != 0
                         && S.WhileBody(g, st, -1, sp, s1, fuel) == S.Timeout)
  {
    hide S.Eval, S.WhileBody;
    v, s1 := 0, s;
    if S.Eval(g, st.c, sp, s, fuel).Ok? { v, s1 := S.Eval(g, st.c, sp, s, fuel).v.0, S.Eval(g, st.c, sp, s, fuel).v.1; }
  }

  lemma WhileLasts(c: Ctx, cx: Cx, st: Stmt, k: int, l: int, first: int, pos: int, sp: int, s: S.Store, fuel: nat,
      m: State)
    requires st.While?
    requires StmtReady(c, cx, st, l, first, pos) && Rel(c.g, s, sp, m) && Enters(c, |S.Cases(st)|, k, first, pos, m)
    requires S.Exec(c.g, st, k, sp, s, fuel) == S.Timeout
    ensures RunsOn(c.im.m, m, fuel)
    decreases fuel, st, 1
  {
    hide Reaches, Holding, Good, Rel, Kept, Did, S.Eval, S.Exec, S.WhileBody, SCode, SPlaced, Code, Placed, WfS, WfE,
      TickCode, RunsOn;
    WhileParts(c, cx, st, l, first, pos);
    var v, s1 := WhileTimes(c.g, st, k, sp, s, fuel);
    var a := Code(cx.offs, st.c, l + 2);
    if k >= 0 {
      WhileBodyLasts(c, cx, st, k, l, first, pos, sp, s, fuel, m);
    } else if S.Eval(c.g, st.c, sp, s, fuel) == S.Timeout {
      ExprLasts(c, st.c, l + 2, pos, sp, s, fuel, m);
    } else {
      var m1 := ExprOk(c, st.c, l + 2, pos, sp, s, fuel, m, v, s1);
      DidParts(c.im, c.g, s, s1, sp, m, m1, pos + |a|);
      ZeroPattern(v);
      var m2 := JumpDid(c, pos + |a|, [J(JCbz, l + 1)], 0, s1, sp, m1);
      DidParts(c.im, c.g, s1, s1, sp, m1, m2, pos + |a| + 1);
      WhileBodyLasts(c, cx, st, -1, l, first, pos, sp, s1, fuel, m2);
      DidLater(c.im, c.g, s1, s1, sp, m1, m2, pos + |a| + 1, fuel);
      DidLater(c.im, c.g, s, s1, sp, m, m1, pos + |a|, fuel);
    }
  }

  lemma TicksEnd(g: S.Env)
    ensures forall s :: S.Tick(g, s) != S.Timeout
  {
  }

  /** One round that did not end the loop, or did not end. */
  lemma WhileRounds(g: S.Env, st: Stmt, k: int, sp: int, s: S.Store, fuel: nat)
    returns (o1: S.Out, s1: S.Store, s2: S.Store)
    requires st.While? && S.WhileBody(g, st, k, sp, s, fuel) == S.Timeout
    ensures S.Exec(g, st.body, k, sp, s, fuel) == S.Timeout
            || (&& S.Exec(g, st.body, k, sp, s, fuel) == S.Ok((o1, s1)) && (o1.Normal? || o1.Continued?)
                && (if o1.Normal? then S.Tick(g, s1) == S.Ok((true, s2)) else s2 == s1)
                && (fuel > 0 ==> S.Exec(g, st, -1, sp, s2, fuel - 1) == S.Timeout))
  {
    hide S.Exec, S.Tick;
    TicksEnd(g);
    o1, s1, s2 := S.Normal, s, s;
    if S.Exec(g, st.body, k, sp, s, fuel).Ok? {
      o1, s1 := S.Exec(g, st.body, k, sp, s, fuel).v.0, S.Exec(g, st.body, k, sp, s, fuel).v.1;
      s2 := if o1.Normal? && S.Tick(g, s1).Ok? then S.Tick(g, s1).v.1 else s1;
    }
  }

  lemma WhileBodyLasts(c: Ctx, cx: Cx, st: Stmt, k: int, l: int, first: int, pos: int, sp: int, s: S.Store, fuel: nat,
      m: State)
    requires st.While?
    requires StmtReady(c, cx, st, l, first, pos) && Rel(c.g, s, sp, m)
    requires Enters(c, |S.Cases(st.body)|, k, first, pos + |Code(cx.offs, st.c, l + 2)| + 1, m)
    requires S.WhileBody(c.g, st, k, sp, s, fuel) == S.Timeout
    ensures RunsOn(c.im.m, m, fuel)
    decreases fuel, st, 0
  {
    hide Reaches, Holding, Good, Rel, Kept, Did, S.WhileBody, S.Exec, S.Tick, SCode, SPlaced, Code, Placed, WfS, WfE,
      TickCode, RunsOn;
    WhileParts(c, cx, st, l, first, pos);
    var o1, s1, s2 := WhileRounds(c.g, st, k, sp, s, fuel);
    var cx1, lb := cx.(brk := l + 1, cont := l), l + 2 + ELabels(st.c);
    var pb := pos + |Code(cx.offs, st.c, l + 2)| + 1;
    var pt := pb + |SCode(cx1, st.body, lb, first)|;
    var end := pos + |SCode(cx, st, l, first)|;
    if S.Exec(c.g, st.body, k, sp, s, fuel) == S.Timeout {
      StmtLasts(c, cx1, st.body, k, lb, first, pb, sp, s, fuel, m);
    } else if fuel == 0 {
      RunsZero(c.im.m, m);
    } else {
      var m1 := StmtOk(c, cx1, st.body, k, lb, first, pb, sp, s, fuel, m, o1, s1);
      var m2 := WhileNext(c, cx1, l, pos, end, pt, sp, s, m, o1, s1, m1, true, s2);
      DidParts(c.im, c.g, s, s2, sp, m, m2, pos);
      StmtLasts(c, cx, st, -1, l, first, pos, sp, s2, fuel - 1, m2);
      BodyLater(c, cx1, st.body, k, lb, first, pb, m);
      DidMoved(c.im, c.g, s, s2, sp, m, m2, pos, fuel - 1);
    }
  }

  lemma DidMoved(im: Image, g: S.Env, s: S.Store, s1: S.Store, sp: int, st: State, st1: State, pos: int, n: nat)
    requires Did(im, g, s, s1, sp, st, st1, pos) && RunsOn(im.m, st1, n) && st.pc > PcOf(im, pos)
    ensures RunsOn(im.m, st, n + 1)
  {
    hide Rel, Kept, Reaches, RunsOn;
    RunsMoved(im.m, st, st1, n);
  }

  /** A loop body is entered at its start or after it. */
  lemma BodyLater(c: Ctx, cx: Cx, st: Stmt, k: int, l: int, first: int, pos: int, m: State)
    requires StmtReady(c, cx, st, l, first, pos) && Enters(c, |S.Cases(st)|, k, first, pos, m)
    ensures m.pc >= PcOf(c.im, pos)
  {
    hide Holding, Good, SPlaced, WfS, S.Cases, SCode;
    CasesPlaced(cx, st, l, first, pos, c.labs);
  }

  lemma OptTimes(g: S.Env, e: Option<Expr>, sp: int, s: S.Store, fuel: nat)
    requires S.EvalOpt(g, e, sp, s, fuel) == S.Timeout
    ensures e.Some? && S.Eval(g, e.value, sp, s, fuel) == S.Timeout
  {
    hide S.Eval;
  }

  lemma OptLasts(c: Ctx, e: Option<Expr>, l: int, pos: int, sp: int, s: S.Store, fuel: nat, st: State)
    requires Ready(c, OptCode(c.g.offs, e, l), pos, sp, s, st) && OptPlaced(c.g.offs, e, l, pos, c.labs)
    requires WfOpt(|c.g.p.funcs|, |c.g.offs|, e) && S.EvalOpt(c.g, e, sp, s, fuel) == S.Timeout
    ensures RunsOn(c.im.m, st, fuel)
    decreases fuel, e, 3
  {
    hide Holding, Good, Rel, S.Eval, Code, Placed, WfE, RunsOn;
    OptTimes(c.g, e, sp, s, fuel);
    ExprLasts(c, e.value, l, pos, sp, s, fuel, st);
  }

  lemma ForTimes(g: S.Env, st: Stmt, k: int, sp: int, s: S.Store, fuel: nat) returns (v: i64, s1: S.Store)
    requires st.For? && S.Exec(g, st, k, sp, s, fuel) == S.Timeout
    ensures k >= 0 ==> S.ForBody(g, st, k, sp, s, fuel) == S.Timeout
    ensures k < 0 ==> S.EvalOpt(g, st.init, sp, s, fuel) == S.Timeout
                      || (S.EvalOpt(g, st.init, sp, s, fuel) == S.Ok((v, s1))
                         && S.ForTest(g, st, sp, s1, fuel) == S.Timeout)
  {
    hide S.EvalOpt, S.ForBody, S.ForTest;
    v, s1 := 0, s;
    if S.EvalOpt(g, st.init, sp, s, fuel).Ok? {
      v, s1 := S.EvalOpt(g, st.init, sp, s, fuel).v.0, S.EvalOpt(g, st.init, sp, s, fuel).v.1;
    }
  }

  lemma ForLasts(c: Ctx, cx: Cx, st: Stmt, k: int, l: int, first: int, pos: int, sp: int, s: S.Store, fuel: nat,
      m: State)
    requires st.For?
    requires StmtReady(c, cx, st, l, first, pos) && Rel(c.g, s, sp, m) && Enters(c, |S.Cases(st)|, k, first, pos, m)
    requires S.Exec(c.g, st, k, sp, s, fuel) == S.Timeout
    ensures RunsOn(c.im.m, m, fuel)
    decreases fuel, st, 1
  {
    hide Reaches, Holding, Good, Rel, Kept, Did, S.Exec, S.EvalOpt, S.ForBody, S.ForTest, S.Eval, OptCode, ForCode,
      OptPlaced, ForPlaced, WfOpt, RunsOn;
    var a, f := OptCode(cx.offs, st.init, l + 3), ForCode(cx, l, st, first);
    var q := pos + |a|;
    HoldingParts(c.im, c.labs, pos, a, f);
    assert ForReady(c, cx, st, l, first, q);
    var v, s1 := ForTimes(c.g, st, k, sp, s, fuel);
    if k >= 0 {
      ForBodyLasts(c, cx, st, k, l, first, q, sp, s, fuel, m);
    } else if S.EvalOpt(c.g, st.init, sp, s, fuel) == S.Timeout {
      OptLasts(c, st.init, l + 3, pos, sp, s, fuel, m);
    } else {
      var m1 := OptOk(c, st.init, l + 3, pos, sp, s, fuel, m, v, s1);
      DidParts(c.im, c.g, s, s1, sp, m, m1, q);
      ForTestLasts(c, cx, st, l, first, q, sp, s1, fuel, m1);
      DidLater(c.im, c.g, s, s1, sp, m, m1, q, fuel);
    }
  }

  lemma ForTestTimes(g: S.Env, st: Stmt, sp: int, s: S.Store, fuel: nat) returns (v: i64, s1: S.Store)
    requires st.For? && S.ForTest(g, st, sp, s, fuel) == S.Timeout
    ensures S.EvalOpt(g, st.cond, sp, s, fuel) == S.Timeout
            || (S.EvalOpt(g, st.cond, sp, s, fuel) == S.Ok((v, s1)) && v != 0
               && S.ForBody(g, st, -1, sp, s1, fuel) == S.Timeout)
  {
    hide S.EvalOpt, S.ForBody;
    v, s1 := 0, s;
    if S.EvalOpt(g, st.cond, sp, s, fuel).Ok? {
      v, s1 := S.EvalOpt(g, st.cond, sp, s, fuel).v.0, S.EvalOpt(g, st.cond, sp, s, fuel).v.1;
    }
  }

  lemma ForTestLasts(c: Ctx, cx: Cx, st: Stmt, l: int, first: int, pos: int, sp: int, s: S.Store, fuel: nat, m: State)
    requires st.For? && ForReady(c, cx, st, l, first, pos) && Rel(c.g, s, sp, m) && m.pc == PcOf(c.im, pos)
    requires S.ForTest(c.g, st, sp, s, fuel) == S.Timeout
    ensures RunsOn(c.im.m, m, fuel)
    decreases fuel, st, 0, 1
  {
    hide Reaches, Holding, Good, Rel, Kept, Did, S.EvalOpt, S.ForTest, S.ForBody, OptCode, ForCode, OptPlaced,
      ForPlaced, WfOpt, WfS, SCode, SPlaced, TickCode, RunsOn;
    ForParts(c, cx, st, l, first, pos);
    var v, s1 := ForTestTimes(c.g, st, sp, s, fuel);
    var lc := ForHead(l, st.init);
    var a := OptCode(cx.offs, st.cond, lc);
    var pb, end := pos + |a| + (if st.cond.Some? then 1 else 0), pos + |ForCode(cx, l, st, first)|;
    if S.EvalOpt(c.g, st.cond, sp, s, fuel) == S.Timeout {
      OptLasts(c, st.cond, lc, pos, sp, s, fuel, m);
    } else {
      var m1 := OptOk(c, st.cond, lc, pos, sp, s, fuel, m, v, s1);
      if st.cond.None? { MissingTest(c.g, sp, s, fuel); }
      var m2 := TestOk(c, st.cond.Some?, l + 2, pos + |a|, end, sp, s, m, v, s1, m1);
      DidParts(c.im, c.g, s, s1, sp, m, m2, pb);
      ForBodyLasts(c, cx, st, -1, l, first, pos, sp, s1, fuel, m2);
      DidLater(c.im, c.g, s, s1, sp, m, m2, pb, fuel);
    }
  }

  lemma ForRounds(g: S.Env, st: Stmt, k: int, sp: int, s: S.Store, fuel: nat)
    returns (o1: S.Out, s1: S.Store, v: i64, s2: S.Store, s3: S.Store)
    requires st.For? && S.ForBody(g, st, k, sp, s, fuel) == S.Timeout
    ensures S.Exec(g, st.body, k, sp, s, fuel) == S.Timeout
            || (&& S.Exec(g, st.body, k, sp, s, fuel) == S.Ok((o1, s1)) && (o1.Normal? || o1.Continued?)
                && (|| S.EvalOpt(g, st.inc, sp, s1, fuel) == S.Timeout
                    || (&& S.EvalOpt(g, st.inc, sp, s1, fuel) == S.Ok((v, s2)) && S.Tick(g, s2) == S.Ok((true, s3))
                        && (fuel > 0 ==> S.ForTest(g, st, sp, s3, fuel - 1) == S.Timeout))))
  {
    hide S.Exec, S.EvalOpt, S.ForTest, S.Tick;
    TicksEnd(g);
    o1, s1, v, s2, s3 := S.Normal, s, 0, s, s;
    if S.Exec(g, st.body, k, sp, s, fuel).Ok? {
      o1, s1 := S.Exec(g, st.body, k, sp, s, fuel).v.0, S.Exec(g, st.body, k, sp, s, fuel).v.1;
      if S.EvalOpt(g, st.inc, sp, s1, fuel).Ok? {
        v, s2 := S.EvalOpt(g, st.inc, sp, s1, fuel).v.0, S.EvalOpt(g, st.inc, sp, s1, fuel).v.1;
        if S.Tick(g, s2).Ok? { s3 := S.Tick(g, s2).v.1; }
      }
    }
  }

  lemma ForBodyLasts(c: Ctx, cx: Cx, st: Stmt, k: int, l: int, first: int, pos: int, sp: int, s: S.Store, fuel: nat,
      m: State)
    requires st.For? && ForReady(c, cx, st, l, first, pos) && Rel(c.g, s, sp, m)
    requires var lc := ForHead(l, st.init);
             Enters(c, |S.Cases(st.body)|, k, first,
               pos + |OptCode(cx.offs, st.cond, lc)| + (if st.cond.Some? then 1 else 0), m)
    requires S.ForBody(c.g, st, k, sp, s, fuel) == S.Timeout
    ensures RunsOn(c.im.m, m, fuel)
    decreases fuel, st, 0, 0
  {
    hide Reaches, Holding, Good, Rel, Kept, Did, S.EvalOpt, S.ForTest, S.ForBody, S.Exec, S.Tick, OptCode, ForCode,
      OptPlaced, ForPlaced, WfOpt, WfS, SCode, SPlaced, TickCode, RunsOn;
    ForParts(c, cx, st, l, first, pos);
    var o1, s1, v, s2, s3 := ForRounds(c.g, st, k, sp, s, fuel);
    var cx1 := cx.(brk := l + 2, cont := l + 1);
    var lb := ForHead(l, st.init) + OptLabels(st.cond);
    var pb := pos + |OptCode(cx.offs, st.cond, ForHead(l, st.init))| + (if st.cond.Some? then 1 else 0);
    var pi := pb + |SCode(cx1, st.body, lb, first)|;
    var li := lb + SLabels(st.body);
    var pt := pi + |OptCode(cx.offs, st.inc, li)|;
    if S.Exec(c.g, st.body, k, sp, s, fuel) == S.Timeout {
      StmtLasts(c, cx1, st.body, k, lb, first, pb, sp, s, fuel, m);
    } else {
      var m1 := StmtOk(c, cx1, st.body, k, lb, first, pb, sp, s, fuel, m, o1, s1);
      assert Did(c.im, c.g, s, s1, sp, m, m1, pi);
      DidParts(c.im, c.g, s, s1, sp, m, m1, pi);
      if S.EvalOpt(c.g, st.inc, sp, s1, fuel) == S.Timeout {
        OptLasts(c, st.inc, li, pi, sp, s1, fuel, m1);
      } else if fuel == 0 {
        RunsZero(c.im.m, m1);
      } else {
        var m2 := OptOk(c, st.inc, li, pi, sp, s1, fuel, m1, v, s2);
        DidParts(c.im, c.g, s1, s2, sp, m1, m2, pt);
        var m3, m4 := BackLater(c, l + 2, l, pt, sp, s2, m2, s3);
        ForTestLasts(c, cx, st, l, first, pos, sp, s3, fuel - 1, m4);
        RunsStep(c.im.m, m3, m4, fuel - 1);
        RunsLater(c.im.m, m2, m3, fuel);
        DidLater(c.im, c.g, s1, s2, sp, m1, m2, pt, fuel);
      }
      DidLater(c.im, c.g, s, s1, sp, m, m1, pi, fuel);
    }
  }

  /** The guard, and the step back. */
  lemma BackLater(c: Ctx, exit: int, head: int, pos: int, sp: int, s: S.Store, m: State, s': S.Store)
      returns (m1: State, m': State)
    requires Good(c.im, c.g) && exit in c.labs && head in c.labs
    requires Holding(c.im, c.labs, pos, TickCode(c.g.p.tick, exit))
    requires Holding(c.im, c.labs, pos + |TickCode(c.g.p.tick, exit)|, [J(JB, head)])
    requires Rel(c.g, s, sp, m) && m.pc == PcOf(c.im, pos) && S.Tick(c.g, s) == S.Ok((true, s'))
    ensures Reaches(c.im.m, m, m1) && Step(c.im.m, m1) == Some(m') && Rel(c.g, s', sp, m')
            && m'.pc == PcOf(c.im, c.labs[head])
  {
    hide Reaches, Holding, Good, Kept, Rel, S.Tick, TickCode, Step;
    var q := pos + |TickCode(c.g.p.tick, exit)|;
    m1 := TickOk(c, exit, pos, sp, s, m, true, s');
    m' := BackStep(c, head, q, sp, s', m1);
  }

  /** The backward branch is a step, even to itself. */
  lemma BackStep(c: Ctx, head: int, pos: int, sp: int, s: S.Store, m: State) returns (m': State)
    requires Holding(c.im, c.labs, pos, [J(JB, head)]) && head in c.labs && Rel(c.g, s, sp, m)
             && m.pc == PcOf(c.im, pos)
    ensures Step(c.im.m, m) == Some(m') && Rel(c.g, s, sp, m') && m'.pc == PcOf(c.im, c.labs[head])
  {
    hide Step, Decode, Encode;
    Fetch(c.im, c.labs, pos, [J(JB, head)], 0, m);
    m' := Step(c.im.m, m).value;
  }

  // ---------------------------------------------------------------- switch

  lemma SwitchTimes(g: S.Env, st: Stmt, k: int, sp: int, s: S.Store, fuel: nat) returns (v: i64, s1: S.Store)
    requires st.Switch? && S.Exec(g, st, k, sp, s, fuel) == S.Timeout
    ensures k < 0
    ensures S.Eval(g, st.c, sp, s, fuel) == S.Timeout
            || (&& S.Eval(g, st.c, sp, s, fuel) == S.Ok((v, s1)) && S.Dispatch(S.Cases(st.body), v) >= 0
                && S.Exec(g, st.body, S.Dispatch(S.Cases(st.body), v), sp, s1, fuel) == S.Timeout)
  {
    hide S.Eval, S.Dispatch, S.Cases;
    assert S.Cases(st) == [] by { NoCases(st); }
    v, s1 := 0, s;
    if S.Eval(g, st.c, sp, s, fuel).Ok? { v, s1 := S.Eval(g, st.c, sp, s, fuel).v.0, S.Eval(g, st.c, sp, s, fuel).v.1; }
  }

  lemma SwitchLasts(c: Ctx, cx: Cx, st: Stmt, k: int, l: int, first: int, pos: int, sp: int, s: S.Store, fuel: nat,
      m: State)
    requires st.Switch?
    requires StmtReady(c, cx, st, l, first, pos) && Rel(c.g, s, sp, m) && Enters(c, |S.Cases(st)|, k, first, pos, m)
    requires S.Exec(c.g, st, k, sp, s, fuel) == S.Timeout
    ensures RunsOn(c.im.m, m, fuel)
    decreases fuel, st, 1
  {
    hide Reaches, Holding, Good, Rel, Kept, S.Exec, S.Eval, S.Cases, S.Dispatch, S.Default, SCode, SPlaced, Code,
      Placed, WfS, WfE, DispatchCode, RunsOn;
    SwitchParts(c, cx, st, l, first, pos);
    var v, s1 := SwitchTimes(c.g, st, k, sp, s, fuel);
    var cs, lc := S.Cases(st.body), l + 1 + ELabels(st.c);
    var f := lc + |cs| - 1;
    var a := Code(cx.offs, st.c, l + 1);
    var pb := pos + |a| + |DispatchCode(cs, f)| + 1;
    if S.Eval(c.g, st.c, sp, s, fuel) == S.Timeout {
      ExprLasts(c, st.c, l + 1, pos, sp, s, fuel, m);
    } else {
      CasesPlaced(cx.(brk := l), st.body, lc + |cs|, f, pb, c.labs);
      var m1 := ExprOk(c, st.c, l + 1, pos, sp, s, fuel, m, v, s1);
      var m2 := SelectOk(c, cs, f, l, pos + |a|, sp, s1, m1, v);
      var d := S.Dispatch(cs, v);
      StmtLasts(c, cx.(brk := l), st.body, d, lc + |cs|, f, pb, sp, s1, fuel, m2);
      DidLater(c.im, c.g, s1, s1, sp, m1, m2, c.labs[f - d], fuel);
      DidLater(c.im, c.g, s, s1, sp, m, m1, pos + |a|, fuel);
    }
  }

  // ---------------------------------------------------------------- functions

  lemma CallUserTimes(g: S.Env, f: nat, vs: seq<i64>, sp: int, s: S.Store, fuel: nat) returns (s1: S.Store)
    requires f < |g.p.funcs| && S.CallUser(g, f, vs, sp, s, fuel) == S.Timeout
    ensures var fn := g.p.funcs[f]; var frame := Frame(fn.locals); var low := sp - 16 - frame;
            var g1 := g.(offs := Offsets(fn.locals), fp := sp - 16);
            && low >= g.lo
            && S.StoreParams(fn, g1.offs, g1.fp, vs, 0, S.OpenFrame(s, low, frame)) == S.Ok(s1)
            && S.Exec(g1, fn.body, -1, low, s1, fuel) == S.Timeout
  {
    hide S.Exec, S.OpenFrame, S.CloseFrame, Frame, Offsets, S.StoreAt;
    var fn := g.p.funcs[f];
    var frame := Frame(fn.locals);
    ParamsEnd(fn, Offsets(fn.locals), sp - 16, vs, 0, S.OpenFrame(s, sp - 16 - frame, frame));
    var r := S.StoreParams(fn, Offsets(fn.locals), sp - 16, vs, 0, S.OpenFrame(s, sp - 16 - frame, frame));
    s1 := if r.Ok? then r.v else s;
  }

  lemma {:induction false} ParamsEnd(fn: Func, offs: seq<nat>, fp: int, vs: seq<i64>, k: nat, s: S.Store)
    ensures S.StoreParams(fn, offs, fp, vs, k, s) != S.Timeout
    decreases |fn.params| - k
  {
    if k < |fn.params| && k < |vs| && fn.params[k] < |fn.locals| && fn.params[k] < |offs| {
      var r := S.StoreAt(fn.locals[fn.params[k]], ToU(fp - offs[fn.params[k]]), vs[k], s);
      if r.Ok? { ParamsEnd(fn, offs, fp, vs, k + 1, r.v); }
    }
  }

  /** A call that does not end within its fuel keeps the machine busy for as many steps. */
  lemma CallUserLasts(c: Ctx, f: nat, vs: seq<i64>, sp: int, s: S.Store, fuel: nat, st: State)
    requires Good(c.im, c.g) && f < |c.g.p.funcs| == |c.im.entry| && st.pc == PcOf(c.im, c.im.entry[f])
    requires Rel(c.g, s, sp, st) && |vs| <= 8 && (forall i :: 0 <= i < |vs| ==> st.x[i] == ToU(vs[i]))
    requires S.CallUser(c.g, f, vs, sp, s, fuel) == S.Timeout
    ensures RunsOn(c.im.m, st, fuel)
    decreases fuel
  {
    hide Reaches, Holding, Good, Rel, Kept, S.Exec, S.CallUser, S.StoreParams, S.Cases, SCode, SPlaced, WfS, Prologue,
      SpillCode, Epilogue, Frame, Offsets, Saved, RunsOn;
    var s1 := CallUserTimes(c.g, f, vs, sp, s, fuel);
    RelBounds(c.g, s, sp, st);
    var fn := c.g.p.funcs[f];
    var frame := Frame(fn.locals);
    var low := sp - 16 - frame;
    var g1 := c.g.(offs := Offsets(fn.locals), fp := sp - 16);
    FuncParts(c, f, g1);
    var c1 := Ctx(c.im, c.im.tabs[f], g1);
    var s0 := S.OpenFrame(s, low, frame);
    var pos := c.im.entry[f];
    var cx := BodyCx(c.g.p, fn);
    var p1 := pos + |Prologue(frame)|;
    var pb := p1 + |SpillCode(fn, g1.offs, 0)|;
    var m1 := PrologueOk(c.im, c1.labs, pos, frame, c.g, g1, s, sp, st);
    var m2 := SpillOk(c1, fn, 0, vs, p1, low, s0, m1, s1);
    DidParts(c.im, g1, s0, s1, low, m1, m2, pb);
    StmtLasts(c1, cx, fn.body, -1, 1, -1, pb, low, s1, fuel, m2);
    DidLater(c.im, g1, s0, s1, low, m1, m2, pb, fuel);
    RunsLater(c.im.m, st, m1, fuel);
  }

  // ---------------------------------------------------------------- never stopping

  /** A machine that takes any number of steps never comes to a state it cannot leave: it
      neither faults nor returns to a caller outside the code. */
  lemma NeverStops(m: Machine, st: State, u: State)
    requires (forall n :: RunsOn(m, st, n)) && Reaches(m, st, u)
    ensures Step(m, u).Some?
  {
    hide Step;
    var i: nat :| Run.Steps(Stepper(m), st, u, i);
    assert RunsOn(m, st, i + 1);
    var k: nat, t :| k >= i + 1 && Run.Steps(Stepper(m), st, t, k);
    Onwards(Stepper(m), st, u, t, i, k);
  }

  lemma {:induction false} Onwards(next: State -> Option<State>, st: State, u: State, t: State, i: nat, k: nat)
    requires Run.Steps(next, st, u, i) && Run.Steps(next, st, t, k) && k > i
    ensures next(u).Some?
    decreases i
  {
    if i > 0 { Onwards(next, next(st).value, u, t, i - 1, k - 1); }
  }
}
