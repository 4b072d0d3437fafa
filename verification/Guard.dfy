/** The runaway guard: when its time is up, the loops that are running end. */
module Guard {
  import opened Options
  import opened Word
  import opened Ast
  import Cpu
  import Mem
  import S = Semantics

  // ---------------------------------------------------------------- which programs

  /** No `continue` whose innermost loop is a while; `w` says whether that loop, seen from
      here, is one. */
  predicate Tame(st: Stmt, w: bool) {
    match st
    case If(_, t, f) => Tame(t, w) && Tame(f, w)
    case While(_, b) => Tame(b, true)
    case For(_, _, _, b) => Tame(b, false)
    case Switch(_, b) => Tame(b, w)
    case Case(_, b) => Tame(b, w)
    case Continue => !w
    case Block(ss) => TameList(ss, w)
    case _ => true
  }

  predicate TameList(ss: Stmts, w: bool) { match ss case SNil => true case SCons(h, t) => Tame(h, w) && TameList(t, w) }

  predicate TameProg(p: Prog) { forall f :: 0 <= f < |p.funcs| ==> Tame(p.funcs[f].body, false) }

  // ---------------------------------------------------------------- the budget

  /** Calls of the guard in a history. */
  function Ticks(tick: int, h: seq<Cpu.Event>): nat {
    if h == [] then 0 else Ticks(tick, h[..|h| - 1]) + if h[|h| - 1] == Cpu.Event(tick, []) then 1 else 0
  }

  lemma {:induction false} TicksGrow(tick: int, h: seq<Cpu.Event>, h': seq<Cpu.Event>)
    requires h <= h'
    ensures Ticks(tick, h) <= Ticks(tick, h')
    decreases |h'|
  {
    if |h| < |h'| {
      assert h <= h'[..|h'| - 1];
      TicksGrow(tick, h, h'[..|h'| - 1]);
    } else {
      assert h == h';
    }
  }

  /** There is a guard, it keeps to itself, and in every history that goes on from h0 it
      answers 0 once it has been called n times.  Up to then it may answer anything. */
  ghost predicate Budget(g: S.Env, h0: seq<Cpu.Event>, n: nat) {
    && g.p.tick.Some? && g.p.tick.value in g.w.arity && g.w.arity[g.p.tick.value] == 0
    && forall h: seq<Cpu.Event> {:trigger g.w.sees(h + [Cpu.Event(g.p.tick.value, [])])} :: h0 <= h ==>
         var t := h + [Cpu.Event(g.p.tick.value, [])];
         && g.w.sees(t) == {} && g.w.puts(t, map[]) == map[]
         && (Ticks(g.p.tick.value, h) >= n ==> g.w.answer(t, map[]) == 0)
  }

  /** How deep calls can nest below sp before the stack is used up. */
  function Deep(g: S.Env, sp: int): nat { if sp < g.lo then 0 else (sp - g.lo) / 16 }

  /** Fuel for what is left, after s, of the budget n that began at h0, and for d nested calls. */
  ghost predicate Fuelled(g: S.Env, h0: seq<Cpu.Event>, n: nat, d: nat, s: S.Store, fuel: nat) {
    && Budget(g, h0, n) && TameProg(g.p) && h0 <= s.hist
    && fuel >= d && fuel + Ticks(g.p.tick.value, s.hist) >= n + d
  }

  lemma FuelledMore(g: S.Env, h0: seq<Cpu.Event>, n: nat, d: nat, d1: nat, s: S.Store, s1: S.Store, fuel: nat)
    requires Fuelled(g, h0, n, d, s, fuel) && s.hist <= s1.hist && d1 <= d
    ensures Fuelled(g, h0, n, d1, s1, fuel)
  {
    TicksGrow(g.p.tick.value, s.hist, s1.hist);
  }

  /** Consulting the guard: a loop goes round only while there is budget, and each time uses
      one unit of it up. */
  lemma TickFuelled(g: S.Env, h0: seq<Cpu.Event>, n: nat, d: nat, s: S.Store, fuel: nat)
    requires Fuelled(g, h0, n, d, s, fuel)
    ensures var r := S.Tick(g, s);
            && r.Ok? && s.hist <= r.v.1.hist
            && (r.v.0 ==> fuel > 0 && Fuelled(g, h0, n, d, r.v.1, fuel - 1))
  {
    var e := Cpu.Event(g.p.tick.value, []);
    assert S.Patterns([]) == [];
    var t := s.hist + [e];
    assert g.w.sees(t) == {};
    assert Mem.View(s.data, {}) == map[];
    assert t[..|t| - 1] == s.hist && Ticks(g.p.tick.value, t) == Ticks(g.p.tick.value, s.hist) + 1;
  }

  // ---------------------------------------------------------------- it ends

  /** An evaluation that does not run out of fuel, and whose history grows. */
  ghost predicate Grew<T>(s: S.Store, r: S.Res<(T, S.Store)>) { r != S.Timeout && (r.Ok? ==> s.hist <= r.v.1.hist) }

  /** A statement also does not `continue` a while. */
  ghost predicate Ends(s: S.Store, r: S.Res<(S.Out, S.Store)>, w: bool) {
    Grew(s, r) && (r.Ok? && w ==> !r.v.0.Continued?)
  }

  lemma {:induction false} EvalEnds(g: S.Env, h0: seq<Cpu.Event>, n: nat, e: Expr, sp: int, s: S.Store, fuel: nat)
    requires Fuelled(g, h0, n, Deep(g, sp) + 1, s, fuel)
    ensures Grew(s, S.Eval(g, e, sp, s, fuel))
    decreases Deep(g, sp), fuel, e, 1
  {
    hide Fuelled, S.Apply, S.StoreAt;
    match e
    case Num(_) | Text(_) =>
    case Var(_, _) => AddrEnds(g, h0, n, e, sp, s, fuel);
    case Member(_, _, _) => AddrEnds(g, h0, n, e, sp, s, fuel);
    case Deref(p, _) => EvalEnds(g, h0, n, p, sp, s, fuel);
    case AddrOf(x) => AddrEnds(g, h0, n, x, sp, s, fuel);
    case Neg(x) => EvalEnds(g, h0, n, x, sp, s, fuel);
    case Not(x) => EvalEnds(g, h0, n, x, sp, s, fuel);
    case Assign(l, r) => AssignEnds(g, h0, n, e, sp, s, fuel);
    case And(l, r) => TwoEnd(g, h0, n, e, sp, s, fuel);
    case Or(l, r) => TwoEnd(g, h0, n, e, sp, s, fuel);
    case Bin(_, l, r) => TwoEnd(g, h0, n, e, sp, s, fuel);
    case Call(_, _) => CallEnds(g, h0, n, e, sp, s, fuel);
  }

  lemma AssignEnds(g: S.Env, h0: seq<Cpu.Event>, n: nat, e: Expr, sp: int, s: S.Store, fuel: nat)
    requires e.Assign? && Fuelled(g, h0, n, Deep(g, sp) + 1, s, fuel)
    ensures Grew(s, S.Eval(g, e, sp, s, fuel))
    decreases Deep(g, sp), fuel, e, 0
  {
    hide Fuelled;
    AddrEnds(g, h0, n, e.lhs, sp, s, fuel);
    var r := S.EvalAddr(g, e.lhs, sp, s, fuel);
    if r.Ok? {
      FuelledMore(g, h0, n, Deep(g, sp) + 1, Deep(g, sp - 16) + 1, s, r.v.1, fuel);
      EvalEnds(g, h0, n, e.rhs, sp - 16, r.v.1, fuel);
    }
  }

  lemma TwoEnd(g: S.Env, h0: seq<Cpu.Event>, n: nat, e: Expr, sp: int, s: S.Store, fuel: nat)
    requires (e.And? || e.Or? || e.Bin?) && Fuelled(g, h0, n, Deep(g, sp) + 1, s, fuel)
    ensures Grew(s, S.Eval(g, e, sp, s, fuel))
    decreases Deep(g, sp), fuel, e, 0
  {
    hide Fuelled, S.Apply, S.LoadAt, S.StoreAt, S.EvalAddr, S.EvalArgs;
    var x, y := if e.Bin? then e.r2 else e.l, if e.Bin? then e.l else e.r2;
    var sp1 := if e.Bin? then sp - 16 else sp;
    EvalEnds(g, h0, n, x, sp, s, fuel);
    var r := S.Eval(g, x, sp, s, fuel);
    if r.Ok? {
      FuelledMore(g, h0, n, Deep(g, sp) + 1, Deep(g, sp1) + 1, s, r.v.1, fuel);
      EvalEnds(g, h0, n, y, sp1, r.v.1, fuel);
    }
  }

  lemma CallEnds(g: S.Env, h0: seq<Cpu.Event>, n: nat, e: Expr, sp: int, s: S.Store, fuel: nat)
    requires e.Call? && Fuelled(g, h0, n, Deep(g, sp) + 1, s, fuel)
    ensures Grew(s, S.Eval(g, e, sp, s, fuel))
    decreases Deep(g, sp), fuel, e, 0
  {
    hide Budget, TameProg, S.CallUser;
    ArgsEnd(g, h0, n, e.args, sp, s, fuel);
    var r := S.EvalArgs(g, e.args, sp, s, fuel);
    if r.Ok? && e.f.User? {
      FuelledMore(g, h0, n, Deep(g, sp) + 1, Deep(g, sp) + 1, s, r.v.1, fuel);
      BudgetEnds(g, h0, n, e.f.i, r.v.0, sp, r.v.1, fuel - 1);
    }
  }

  lemma {:induction false} AddrEnds(g: S.Env, h0: seq<Cpu.Event>, n: nat, e: Expr, sp: int, s: S.Store, fuel: nat)
    requires Fuelled(g, h0, n, Deep(g, sp) + 1, s, fuel)
    ensures Grew(s, S.EvalAddr(g, e, sp, s, fuel))
    decreases Deep(g, sp), fuel, e, 0
  {
    hide Fuelled;
    match e
    case Deref(p, _) => EvalEnds(g, h0, n, p, sp, s, fuel);
    case Member(b, _, _) => AddrEnds(g, h0, n, b, sp, s, fuel);
    case _ =>
  }

  lemma {:induction false} ArgsEnd(g: S.Env, h0: seq<Cpu.Event>, n: nat, es: Exprs, sp: int, s: S.Store, fuel: nat)
    requires Fuelled(g, h0, n, Deep(g, sp) + 1, s, fuel)
    ensures Grew(s, S.EvalArgs(g, es, sp, s, fuel))
    decreases Deep(g, sp), fuel, es, 0
  {
    hide Fuelled;
    match es
    case ENil =>
    case ECons(e, t) =>
      EvalEnds(g, h0, n, e, sp, s, fuel);
      var r := S.Eval(g, e, sp, s, fuel);
      if r.Ok? {
        FuelledMore(g, h0, n, Deep(g, sp) + 1, Deep(g, sp - 16) + 1, s, r.v.1, fuel);
        ArgsEnd(g, h0, n, t, sp - 16, r.v.1, fuel);
      }
  }

  lemma OptEnds(g: S.Env, h0: seq<Cpu.Event>, n: nat, e: Option<Expr>, sp: int, s: S.Store, fuel: nat)
    requires Fuelled(g, h0, n, Deep(g, sp) + 1, s, fuel)
    ensures Grew(s, S.EvalOpt(g, e, sp, s, fuel))
    decreases Deep(g, sp), fuel, e, 0
  {
    hide Fuelled;
    if e.Some? { EvalEnds(g, h0, n, e.value, sp, s, fuel); }
  }

  lemma {:induction false} StmtEnds(g: S.Env, h0: seq<Cpu.Event>, n: nat, st: Stmt, k: int, sp: int, s: S.Store,
      w: bool, fuel: nat)
    requires Tame(st, w) && Fuelled(g, h0, n, Deep(g, sp) + 1, s, fuel)
    ensures Ends(s, S.Exec(g, st, k, sp, s, fuel), w)
    decreases Deep(g, sp), fuel, st, 3
  {
    hide Fuelled, S.Eval, S.EvalOpt, S.Tick, S.Dispatch, S.WhileBody, S.ForTest, S.ForBody;
    match st
    case ExprS(e) => EvalEnds(g, h0, n, e, sp, s, fuel);
    case Return(e) => EvalEnds(g, h0, n, e, sp, s, fuel);
    case Break =>
    case Continue =>
    case Block(ss) => ListEnds(g, h0, n, ss, k, sp, s, w, fuel);
    case Case(_, b) => StmtEnds(g, h0, n, b, k - 1, sp, s, w, fuel);
    case If(c, t, f) => IfEnds(g, h0, n, st, k, sp, s, w, fuel);
    case While(c, b) => LoopEnds(g, h0, n, st, k, sp, s, fuel);
    case For(i, c, x, b) => ForEnds(g, h0, n, st, k, sp, s, fuel);
    case Switch(c, b) =>
      EvalEnds(g, h0, n, c, sp, s, fuel);
      if S.Eval(g, c, sp, s, fuel).Ok? {
        var (v, s1) := S.Eval(g, c, sp, s, fuel).v;
        FuelledMore(g, h0, n, Deep(g, sp) + 1, Deep(g, sp) + 1, s, s1, fuel);
        StmtEnds(g, h0, n, b, S.Dispatch(S.Cases(b), v), sp, s1, w, fuel);
      }
  }

  lemma IfEnds(g: S.Env, h0: seq<Cpu.Event>, n: nat, st: Stmt, k: int, sp: int, s: S.Store, w: bool, fuel: nat)
    requires st.If? && Tame(st, w) && Fuelled(g, h0, n, Deep(g, sp) + 1, s, fuel)
    ensures Ends(s, S.Exec(g, st, k, sp, s, fuel), w)
    decreases Deep(g, sp), fuel, st, 1
  {
    hide Fuelled, S.Eval, S.Cases;
    StmtEnds(g, h0, n, st.t, k, sp, s, w, fuel);
    StmtEnds(g, h0, n, st.f, k - |S.Cases(st.t)|, sp, s, w, fuel);
    EvalEnds(g, h0, n, st.c, sp, s, fuel);
    if S.Eval(g, st.c, sp, s, fuel).Ok? {
      var s1 := S.Eval(g, st.c, sp, s, fuel).v.1;
      FuelledMore(g, h0, n, Deep(g, sp) + 1, Deep(g, sp) + 1, s, s1, fuel);
      StmtEnds(g, h0, n, st.t, -1, sp, s1, w, fuel);
      StmtEnds(g, h0, n, st.f, -1, sp, s1, w, fuel);
    }
  }

  lemma LoopEnds(g: S.Env, h0: seq<Cpu.Event>, n: nat, st: Stmt, k: int, sp: int, s: S.Store, fuel: nat)
    requires st.While? && Tame(st, false) && Fuelled(g, h0, n, Deep(g, sp) + 1, s, fuel)
    ensures Ends(s, S.Exec(g, st, k, sp, s, fuel), true)
    decreases Deep(g, sp), fuel, st, 1
  {
    hide Fuelled, S.Eval, S.Tick, S.WhileBody;
    WhileEnds(g, h0, n, st, k, sp, s, fuel);
    EvalEnds(g, h0, n, st.c, sp, s, fuel);
    if S.Eval(g, st.c, sp, s, fuel).Ok? {
      var s1 := S.Eval(g, st.c, sp, s, fuel).v.1;
      FuelledMore(g, h0, n, Deep(g, sp) + 1, Deep(g, sp) + 1, s, s1, fuel);
      WhileEnds(g, h0, n, st, -1, sp, s1, fuel);
    }
  }

  lemma WhileEnds(g: S.Env, h0: seq<Cpu.Event>, n: nat, st: Stmt, k: int, sp: int, s: S.Store, fuel: nat)
    requires st.While? && Tame(st, false) && Fuelled(g, h0, n, Deep(g, sp) + 1, s, fuel)
    ensures Ends(s, S.WhileBody(g, st, k, sp, s, fuel), true)
    decreases Deep(g, sp), fuel, st, 0
  {
    hide Fuelled, S.Exec, S.Tick;
    StmtEnds(g, h0, n, st.body, k, sp, s, true, fuel);
    var r := S.Exec(g, st.body, k, sp, s, fuel);
    if r.Ok? {
      FuelledMore(g, h0, n, Deep(g, sp) + 1, Deep(g, sp) + 1, s, r.v.1, fuel);
      TickFuelled(g, h0, n, Deep(g, sp) + 1, r.v.1, fuel);
      var t := S.Tick(g, r.v.1);
      if t.v.0 { StmtEnds(g, h0, n, st, -1, sp, t.v.1, true, fuel - 1); }
    }
  }

  lemma ForEnds(g: S.Env, h0: seq<Cpu.Event>, n: nat, st: Stmt, k: int, sp: int, s: S.Store, fuel: nat)
    requires st.For? && Tame(st, false) && Fuelled(g, h0, n, Deep(g, sp) + 1, s, fuel)
    ensures Ends(s, S.Exec(g, st, k, sp, s, fuel), true)
    decreases Deep(g, sp), fuel, st, 2
  {
    hide Fuelled, S.EvalOpt, S.Tick, S.ForTest, S.ForBody;
    RoundEnds(g, h0, n, st, k, sp, s, fuel);
    OptEnds(g, h0, n, st.init, sp, s, fuel);
    if S.EvalOpt(g, st.init, sp, s, fuel).Ok? {
      var s1 := S.EvalOpt(g, st.init, sp, s, fuel).v.1;
      FuelledMore(g, h0, n, Deep(g, sp) + 1, Deep(g, sp) + 1, s, s1, fuel);
      TestEnds(g, h0, n, st, sp, s1, fuel);
    }
  }

  lemma TestEnds(g: S.Env, h0: seq<Cpu.Event>, n: nat, st: Stmt, sp: int, s: S.Store, fuel: nat)
    requires st.For? && Tame(st, false) && Fuelled(g, h0, n, Deep(g, sp) + 1, s, fuel)
    ensures Ends(s, S.ForTest(g, st, sp, s, fuel), true)
    decreases Deep(g, sp), fuel, st, 1
  {
    hide Fuelled, S.EvalOpt, S.Tick, S.ForBody;
    OptEnds(g, h0, n, st.cond, sp, s, fuel);
    if S.EvalOpt(g, st.cond, sp, s, fuel).Ok? {
      var s1 := S.EvalOpt(g, st.cond, sp, s, fuel).v.1;
      FuelledMore(g, h0, n, Deep(g, sp) + 1, Deep(g, sp) + 1, s, s1, fuel);
      RoundEnds(g, h0, n, st, -1, sp, s1, fuel);
    }
  }

  lemma RoundEnds(g: S.Env, h0: seq<Cpu.Event>, n: nat, st: Stmt, k: int, sp: int, s: S.Store, fuel: nat)
    requires st.For? && Tame(st, false) && Fuelled(g, h0, n, Deep(g, sp) + 1, s, fuel)
    ensures Ends(s, S.ForBody(g, st, k, sp, s, fuel), true)
    decreases Deep(g, sp), fuel, st, 0
  {
    hide Fuelled, S.Exec, S.EvalOpt, S.Tick, S.ForTest;
    StmtEnds(g, h0, n, st.body, k, sp, s, false, fuel);
    var r := S.Exec(g, st.body, k, sp, s, fuel);
    if r.Ok? {
      FuelledMore(g, h0, n, Deep(g, sp) + 1, Deep(g, sp) + 1, s, r.v.1, fuel);
      OptEnds(g, h0, n, st.inc, sp, r.v.1, fuel);
      if S.EvalOpt(g, st.inc, sp, r.v.1, fuel).Ok? {
        var s2 := S.EvalOpt(g, st.inc, sp, r.v.1, fuel).v.1;
        FuelledMore(g, h0, n, Deep(g, sp) + 1, Deep(g, sp) + 1, r.v.1, s2, fuel);
        TickFuelled(g, h0, n, Deep(g, sp) + 1, s2, fuel);
        var t := S.Tick(g, s2);
        if t.v.0 { TestEnds(g, h0, n, st, sp, t.v.1, fuel - 1); }
      }
    }
  }

  lemma {:induction false} ListEnds(g: S.Env, h0: seq<Cpu.Event>, n: nat, ss: Stmts, k: int, sp: int, s: S.Store,
      w: bool, fuel: nat)
    requires TameList(ss, w) && Fuelled(g, h0, n, Deep(g, sp) + 1, s, fuel)
    ensures Ends(s, S.ExecList(g, ss, k, sp, s, fuel), w)
    decreases Deep(g, sp), fuel, ss, 1
  {
    hide Fuelled, S.Exec;
    match ss
    case SNil =>
    case SCons(h, t) =>
      if k >= |S.Cases(h)| && k >= 0 {
        ListEnds(g, h0, n, t, k - |S.Cases(h)|, sp, s, w, fuel);
      } else {
        StmtEnds(g, h0, n, h, k, sp, s, w, fuel);
        var r := S.Exec(g, h, k, sp, s, fuel);
        if r.Ok? {
          FuelledMore(g, h0, n, Deep(g, sp) + 1, Deep(g, sp) + 1, s, r.v.1, fuel);
          ListEnds(g, h0, n, t, -1, sp, r.v.1, w, fuel);
        }
      }
  }

  /** The runaway guard works: where no `continue` skips it, a call ends, or is undefined,
      whatever loops and calls are running when the guard's budget runs out.  The fuel it
      needs is what is left of the budget and the calls the stack has room for. */
  lemma BudgetEnds(g: S.Env, h0: seq<Cpu.Event>, n: nat, f: nat, vs: seq<i64>, sp: int, s: S.Store, fuel: nat)
    requires Fuelled(g, h0, n, Deep(g, sp), s, fuel)
    ensures Grew(s, S.CallUser(g, f, vs, sp, s, fuel))
    decreases Deep(g, sp), fuel
  {
    hide Budget, S.Exec, S.StoreAt;
    if f >= |g.p.funcs| { return; }
    var fn := g.p.funcs[f];
    var fp, frame := sp - 16, Frame(fn.locals);
    if fp - frame < g.lo { return; }
    var g1 := g.(offs := Offsets(fn.locals), fp := fp);
    var low := S.OpenFrame(s, fp - frame, frame);
    ParamsKeep(fn, g1.offs, fp, vs, 0, low);
    var r := S.StoreParams(fn, g1.offs, fp, vs, 0, low);
    if r.Ok? {
      SameGuard(g, g1, h0, n);
      StmtEnds(g1, h0, n, fn.body, -1, fp - frame, r.v, false, fuel);
    }
  }

  lemma SameGuard(g: S.Env, g1: S.Env, h0: seq<Cpu.Event>, n: nat)
    requires Budget(g, h0, n) && g1.p == g.p && g1.w == g.w
    ensures Budget(g1, h0, n)
  {
    forall h: seq<Cpu.Event> | h0 <= h
      ensures var t := h + [Cpu.Event(g1.p.tick.value, [])];
              && g1.w.sees(t) == {} && g1.w.puts(t, map[]) == map[]
              && (Ticks(g1.p.tick.value, h) >= n ==> g1.w.answer(t, map[]) == 0)
    {
      assert g.w.sees(h + [Cpu.Event(g.p.tick.value, [])]) == {};
    }
  }

  /** After history h the guard only ever answers 0. */
  ghost predicate Spent(g: S.Env, h: seq<Cpu.Event>) { g.p.tick.Some? && Budget(g, h, Ticks(g.p.tick.value, h)) }

  /** With the guard spent a call needs fuel for the calls below it only: no loop goes round
      again. */
  lemma FunctionEnds(g: S.Env, f: nat, vs: seq<i64>, sp: int, s: S.Store)
    requires TameProg(g.p) && Spent(g, s.hist)
    ensures S.CallUser(g, f, vs, sp, s, Deep(g, sp)) != S.Timeout
  {
    hide Budget, TameProg;
    BudgetEnds(g, s.hist, Ticks(g.p.tick.value, s.hist), f, vs, sp, s, Deep(g, sp));
  }

  // ---------------------------------------------------------------- how often loops go round

  /** Calls of the guard answered with more time, in the part of h after the first k events:
      so often did some loop go round. */
  ghost function Rounds(g: S.Env, h: seq<Cpu.Event>, k: nat): nat
    requires g.p.tick.Some?
  {
    if |h| <= k then 0
    else
      Rounds(g, h[..|h| - 1], k)
      + if h[|h| - 1] == Cpu.Event(g.p.tick.value, []) && g.w.answer(h, map[]) != 0 then 1 else 0
  }

  /** What is left of the budget n after h. */
  function Left(g: S.Env, n: nat, h: seq<Cpu.Event>): nat
    requires g.p.tick.Some?
  {
    if Ticks(g.p.tick.value, h) < n then n - Ticks(g.p.tick.value, h) else 0
  }

  /** Whatever runs, loops go round at most as often as the budget still allows. */
  lemma {:induction false} RoundsBounded(g: S.Env, h0: seq<Cpu.Event>, n: nat, h: seq<Cpu.Event>)
    requires Budget(g, h0, n) && h0 <= h
    ensures Rounds(g, h, |h0|) <= Left(g, n, h0)
    ensures Rounds(g, h, |h0|) + Ticks(g.p.tick.value, h0) <= Ticks(g.p.tick.value, h)
    decreases |h|
  {
    if |h| > |h0| {
      var front := h[..|h| - 1];
      RoundsBounded(g, h0, n, front);
      TicksGrow(g.p.tick.value, h0, front);
      if h[|h| - 1] == Cpu.Event(g.p.tick.value, []) {
        assert h == front + [Cpu.Event(g.p.tick.value, [])];
        assert g.w.sees(front + [Cpu.Event(g.p.tick.value, [])]) == {};
      }
    } else {
      assert h == h0;
    }
  }

  lemma {:induction false} ParamsKeep(fn: Func, offs: seq<nat>, fp: int, vs: seq<i64>, k: nat, s: S.Store)
    ensures var r := S.StoreParams(fn, offs, fp, vs, k, s); r != S.Timeout && (r.Ok? ==> r.v.hist == s.hist)
    decreases |fn.params| - k
  {
    if k < |fn.params| && k < |vs| && fn.params[k] < |fn.locals| && fn.params[k] < |offs| {
      var r := S.StoreAt(fn.locals[fn.params[k]], ToU(fp - offs[fn.params[k]]), vs[k], s);
      if r.Ok? { ParamsKeep(fn, offs, fp, vs, k + 1, r.v); }
    }
  }

  // ---------------------------------------------------------------- and when it does not

  /** `while (1) continue;` jumps past the guard: no amount of fuel ends it, spent or not. */
  lemma {:induction false} ContinueSpins(g: S.Env, sp: int, s: S.Store, fuel: nat)
    ensures S.Exec(g, While(Num(1), Continue), -1, sp, s, fuel) == S.Timeout
    decreases fuel
  {
    var st := While(Num(1), Continue);
    assert Wrap(1) == 1;
    assert S.Eval(g, st.c, sp, s, fuel) == S.Ok((1, s));
    assert S.Exec(g, st.body, -1, sp, s, fuel) == S.Ok((S.Continued, s));
    if fuel > 0 { ContinueSpins(g, sp, s, fuel - 1); }
    assert S.WhileBody(g, st, -1, sp, s, fuel) == S.Timeout;
  }
}
