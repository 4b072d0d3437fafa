/** Running translated expressions: the tagged value runtime, the meaning of an expression,
    and the way from its text to the machine. */
module AiplRun {
  import opened Options
  import opened Word
  import opened Front
  import opened Aipl
  import Ast
  import Cpu
  import Mem
  import Emit
  import Programs
  import Sim
  import Correct
  import S = Semantics

  const M62: int := 0x4000_0000_0000_0000

  // ---------------------------------------------------------------- what an expression means

  /** Integers have 63 bits; booleans count as 0 and 1 in arithmetic. */
  datatype Val = VInt(n: int) | VBool(b: bool)

  function W63(n: int): int { (n + M62) % M63 - M62 }

  predicate Fits(v: Val) { v.VInt? ==> -M62 <= v.n < M62 }

  function Num(v: Val): int { match v case VInt(n) => n case VBool(b) => if b then 1 else 0 }
  function True(v: Val): bool { Num(v) != 0 }

  function OpVal(op: Op2, a: Val, b: Val): Val {
    match op
    case OAdd => VInt(W63(Num(a) + Num(b)))
    case OSub => VInt(W63(Num(a) - Num(b)))
    case OMul => VInt(W63(Num(a) * Num(b)))
    case ODiv => VInt(if Num(b) == 0 then 0 else W63(TruncDiv(Num(a), Num(b))))
    case OLt => VBool(Num(a) < Num(b))
    case OLe => VBool(Num(a) <= Num(b))
    case OGt => VBool(Num(a) > Num(b))
    case OGe => VBool(Num(a) >= Num(b))
    case OEq => VBool(Num(a) == Num(b))
    case ONe => VBool(Num(a) != Num(b))
    case OAnd => VBool(True(a) && True(b))
    case OOr => VBool(True(a) || True(b))
  }

  predicate Bound(e: Exp, env: map<string, Val>) {
    match e
    case Int(_) | Truth(_) => true
    case Local(x) => x in env && Fits(env[x]) && (x == SELF ==> env[x].VInt?)
    case Not(x) => Bound(x, env)
    case Neg(x) => Bound(x, env)
    case Bin(_, l, r) => Bound(l, env) && Bound(r, env)
  }

  function Means(e: Exp, env: map<string, Val>): (v: Val)
    requires Bound(e, env)
    ensures Fits(v)
  {
    match e
    case Int(n) => VInt(W63(n))
    case Truth(b) => VBool(b)
    case Local(x) => env[x]
    case Not(x) => VBool(!True(Means(x, env)))
    case Neg(x) => VInt(W63(0 - Num(Means(x, env))))
    case Bin(op, l, r) => OpVal(op, Means(l, env), Means(r, env))
  }

  // ---------------------------------------------------------------- the value runtime

  function Bit(w: i64, k: int): bool
    requires k > 0
  {
    ToU(w) / k % 2 == 1
  }

  predicate IsInt(w: i64) { w % 2 == 1 }
  predicate IsBool(w: i64) { w % 2 == 0 && Bit(w, M62) }

  /** v_int_of: the integer of an integer or a boolean word. */
  function IntOf(w: i64): int { if IsInt(w) then (w - 1) / 2 else if IsBool(w) then ToU(w) / 2 % 2 else 0 }

  function MkInt(n: i64): i64 { Wrap(Wrap(2 * n) + 1) }
  function MkBool(b: bool): i64 { M62 + if b then 2 else 0 }

  function Truthy(w: i64): bool { if IsInt(w) then (w - 1) / 2 != 0 else Bit(w, 2) }

  /** The runtime on integer and boolean words; strings, floats and lists are not modelled. */
  function RunFn(f: string, args: seq<i64>): Option<i64> {
    if f == "v_int" && |args| == 1 then Some(MkInt(args[0]))
    else if f == "v_bool" && |args| == 1 then Some(MkBool(args[0] != 0))
    else if exists w :: w in args && !IsInt(w) && !IsBool(w) then None
    else if f == "v_not" && |args| == 1 then Some(MkBool(!Truthy(args[0])))
    else if |args| == 2 then Run2(f, args[0], args[1])
    else None
  }

  function Run2(f: string, a: i64, b: i64): Option<i64> {
    var x, y := IntOf(a), IntOf(b);
    if f == "v_add" then Some(MkInt(Wrap(x + y)))
    else if f == "v_sub" then Some(MkInt(Wrap(x - y)))
    else if f == "v_mul" then Some(MkInt(Wrap(x * y)))
    else if f == "v_div" then Some(MkInt(if y == 0 then 0 else Wrap(TruncDiv(x, y))))
    else if f == "v_lt" then Some(MkBool(x < y))
    else if f == "v_le" then Some(MkBool(x <= y))
    else if f == "v_eq" then Some(MkBool(x == y))
    else if f == "v_ne" then Some(MkBool(!Truthy(MkBool(x == y))))
    else if f == "v_and" then Some(MkBool(Truthy(a) && Truthy(b)))
    else if f == "v_or" then Some(MkBool(Truthy(a) || Truthy(b)))
    else None
  }

  /** The word of a value. */
  function Rep(v: Val): i64
    requires Fits(v)
  {
    match v case VInt(n) => 2 * n + 1 case VBool(b) => MkBool(b)
  }

  lemma RepParts(v: Val)
    requires Fits(v)
    ensures (IsInt(Rep(v)) <==> v.VInt?) && (IsBool(Rep(v)) <==> v.VBool?)
    ensures IntOf(Rep(v)) == Num(v) && (Truthy(Rep(v)) <==> True(v))
  {
    if v.VBool? {
      assert (M62 + 2) / M62 == 1 && M62 / M62 == 1 && (M62 + 2) / 2 == M62 / 2 + 1 && (M62 / 2) % 2 == 0;
    }
  }

  /** Shifting a wrapped number left loses exactly what 63 bits lose. */
  lemma MkIntRep(n: int)
    ensures Fits(VInt(W63(n))) && MkInt(Wrap(n)) == Rep(VInt(W63(n)))
  {
    var q := (n + M62) / M63;
    assert n == W63(n) + q * M63;
    var r := (n + M63) / M64;
    assert Wrap(n) == n - r * M64 by { WrapIs(n, r); }
    WrapIs(2 * Wrap(n), q - 2 * r);
    assert 2 * Wrap(n) == 2 * W63(n) + (q - 2 * r) * M64;
    WrapIs(2 * W63(n) + 1, 0);
  }

  /** Wrapping, from the quotient it drops. */
  lemma WrapIs(v: int, k: int)
    requires -M63 <= v - k * M64 < M63
    ensures Wrap(v) == v - k * M64
  {
    var u := v - k * M64;
    ModUnique(v, if u >= 0 then k else k - 1, if u >= 0 then u else u + M64);
  }

  /** The runtime function the translator picks computes the operator, operands swapped for
      > and >=. */
  lemma OpRuns(op: Op2, a: Val, b: Val)
    requires Fits(a) && Fits(b)
    ensures var x, y := if Swaps(op) then Rep(b) else Rep(a), if Swaps(op) then Rep(a) else Rep(b);
            RunFn(Fn(op), [x, y]) == Some(Rep(OpVal(op, a, b)))
    ensures op == ODiv ==> Quotient(Num(a), Num(b), OpVal(op, a, b).n)
  {
    hide MkInt, IntOf, Truthy, IsInt, IsBool, W63, Wrap, MkBool, Run2, OpVal, Rep, Num, True;
    RepParts(a);
    RepParts(b);
    var x, y := if Swaps(op) then Rep(b) else Rep(a), if Swaps(op) then Rep(a) else Rep(b);
    Plain2(x, y);
    Run2Op(op, x, y, a, b);
    if op == ODiv { DivRight(a, b); }
  }

  /** The quotient truncates; the one that does not fit 63 bits wraps, and a divisor of 0
      gives 0. */
  predicate Quotient(a: int, b: int, q: int) {
    if b == 0 then q == 0
    else if a == -M62 && b == -1 then q == -M62
    else Truncated(a, b, q, a - q * b)
  }

  lemma DivRight(a: Val, b: Val)
    requires Fits(a) && Fits(b)
    ensures Quotient(Num(a), Num(b), OpVal(ODiv, a, b).n)
  {
    var x, y := Num(a), Num(b);
    if y != 0 {
      DivRem(x, y);
      if x == -M62 && y == -1 {
        TruncatedUnique(x, y, TruncDiv(x, y), TruncRem(x, y), M62, 0);
      } else {
        QuotientBound(x, y, TruncDiv(x, y), TruncRem(x, y), M62);
        Fitting63(TruncDiv(x, y));
      }
    }
  }

  lemma Fitting63(v: int)
    requires -M62 <= v < M62
    ensures W63(v) == v
  {
  }

  lemma Run2Op(op: Op2, x: i64, y: i64, a: Val, b: Val)
    requires var u, v := if Swaps(op) then b else a, if Swaps(op) then a else b;
             IntOf(x) == Num(u) && IntOf(y) == Num(v) && (Truthy(x) <==> True(u)) && (Truthy(y) <==> True(v))
    ensures Fits(OpVal(op, a, b)) && Run2(Fn(op), x, y) == Some(Rep(OpVal(op, a, b)))
  {
    hide MkInt, IntOf, Truthy, IsInt, IsBool, W63, Wrap, MkBool, TruncDiv;
    match op
    case OAdd => MkIntRep(Num(a) + Num(b));
    case OSub => MkIntRep(Num(a) - Num(b));
    case OMul => MkIntRep(Num(a) * Num(b));
    case ODiv => DivRuns(Num(a), Num(b));
    case OEq => Equal(Num(a), Num(b));
    case ONe => Equal(Num(a), Num(b));
    case _ =>
  }

  lemma Plain2(x: i64, y: i64)
    requires (IsInt(x) || IsBool(x)) && (IsInt(y) || IsBool(y))
    ensures forall f :: f != "v_int" && f != "v_bool" && f != "v_not" ==> RunFn(f, [x, y]) == Run2(f, x, y)
  {
    hide IsInt, IsBool, Run2;
    assert forall w :: w in [x, y] ==> w == x || w == y;
  }

  lemma Plain1(x: i64)
    requires IsInt(x) || IsBool(x)
    ensures RunFn("v_not", [x]) == Some(MkBool(!Truthy(x)))
  {
    hide IsInt, IsBool, Truthy, MkBool;
    assert forall w :: w in [x] ==> w == x;
  }

  lemma DivRuns(x: int, y: int)
    ensures MkInt(if y == 0 then 0 else Wrap(TruncDiv(x, y))) == Rep(VInt(if y == 0 then 0 else W63(TruncDiv(x, y))))
  {
    hide MkInt, Rep;
    if y == 0 {
      MkIntRep(0);
      assert Wrap(0) == 0 && W63(0) == 0;
    } else {
      MkIntRep(TruncDiv(x, y));
    }
  }

  lemma Equal(x: int, y: int)
    ensures Truthy(MkBool(x == y)) <==> x == y
  {
    RepParts(VBool(x == y));
  }

  // ---------------------------------------------------------------- from the tree to the machine

  /** Where the C compiler put the variables and finds the runtime functions. */
  datatype Names = Names(slot: map<string, nat>, addr: map<string, int>)

  /** The parser's tree as the code generator's input; operators do not occur. */
  function ToAst(t: CE, nm: Names): Option<Ast.Expr> {
    match t
    case CNum(v) => Some(Ast.Num(v))
    case CVar(x) => if x in nm.slot then Some(Ast.Var(Ast.Local(nm.slot[x]), Ast.TInt)) else None
    case CCall(f, args) =>
      if f !in nm.addr then None
      else (match ToArgs(args, nm) case None => None case Some(es) => Some(Ast.Call(Ast.Builtin(nm.addr[f]), es)))
    case _ => None
  }

  function ToArgs(ts: CEs, nm: Names): Option<Ast.Exprs> {
    match ts
    case CNil => Some(Ast.ENil)
    case CCons(t, us) =>
      match ToAst(t, nm)
      case None => None
      case Some(e) => match ToArgs(us, nm) case None => None case Some(es) => Some(Ast.ECons(e, es))
  }

  function Arity(f: string): nat { if f == "v_int" || f == "v_bool" || f == "v_not" then 1 else 2 }

  /** The kernel provides the runtime: whatever happened before, a call of one of its
      functions on integer and boolean words answers as RunFn says. */
  ghost predicate Provides(w: Cpu.World, nm: Names) {
    forall f, args: seq<i64>, h :: f in nm.addr && RunFn(f, args).Some? && |args| == Arity(f) ==>
      && nm.addr[f] in w.arity && w.arity[nm.addr[f]] == Arity(f)
      && var t := h + [Cpu.Event(nm.addr[f], S.Patterns(args))];
         w.sees(t) == {} && w.puts(t, map[]) == map[] && w.answer(t, map[]) == ToU(RunFn(f, args).value)
  }

  /** The word a variable of the C text holds: of `self` the plain number. */
  function Held(x: string, v: Val): i64
    requires Fits(v) && (x == SELF ==> v.VInt?)
  {
    if x == SELF then v.n else Rep(v)
  }

  function Variable(x: string): string { if x == SELF then SELF else "v_" + x }

  /** The variables of an expression hold their values in the frame. */
  ghost predicate Stored(g: S.Env, nm: Names, env: map<string, Val>, e: Exp, s: S.Store)
    requires Bound(e, env)
  {
    match e
    case Int(_) | Truth(_) => true
    case Local(x) =>
      Variable(x) in nm.slot && var i := nm.slot[Variable(x)];
      i < |g.offs| && S.LoadAt(Ast.TInt, ToU(g.fp - g.offs[i]), s) == S.Ok(Held(x, env[x]))
    case Not(x) => Stored(g, nm, env, x, s)
    case Neg(x) => Stored(g, nm, env, x, s)
    case Bin(_, l, r) => Stored(g, nm, env, l, s) && Stored(g, nm, env, r, s)
  }

  /** Runtime functions every expression may need. */
  ghost predicate Complete(nm: Names) {
    forall f ::
      f in ["v_int", "v_bool", "v_not", "v_add", "v_sub", "v_mul", "v_div",
            "v_lt", "v_le", "v_eq", "v_ne", "v_and", "v_or"]
      ==> f in nm.addr
  }

  /** Temporaries on the stack. */
  function Deep(e: Exp): nat {
    match e
    case Int(_) | Truth(_) => 1
    case Local(x) => if x == SELF then 1 else 0
    case Not(x) => Deep(x) + 1
    case Neg(x) => Deep(x) + 2
    case Bin(_, l, r) => Deep(l) + Deep(r) + 2
  }

  lemma {:induction false} StoredKeeps(g: S.Env, nm: Names, env: map<string, Val>, e: Exp, s: S.Store, s': S.Store)
    requires Bound(e, env) && Stored(g, nm, env, e, s) && s' == s.(hist := s'.hist)
    ensures Stored(g, nm, env, e, s')
    decreases e
  {
    match e
    case Not(x) => StoredKeeps(g, nm, env, x, s, s');
    case Neg(x) => StoredKeeps(g, nm, env, x, s, s');
    case Bin(_, l, r) =>
      StoredKeeps(g, nm, env, l, s, s');
      StoredKeeps(g, nm, env, r, s, s');
    case _ =>
  }

  /** The C meaning of the translated expression: its value's word, nothing changed but the
      record of runtime calls. */
  ghost predicate Yields(g: S.Env, x: Ast.Expr, sp: int, s: S.Store, fuel: nat, w: i64) {
    var r := S.Eval(g, x, sp, s, fuel);
    r.Ok? && r.v.0 == w && r.v.1 == s.(hist := r.v.1.hist)
  }

  lemma Calls1(g: S.Env, nm: Names, f: string, x: Ast.Expr, sp: int, s: S.Store, fuel: nat, a: i64)
    requires Provides(g.w, nm) && f in nm.addr && Arity(f) == 1 && RunFn(f, [a]).Some? && sp - 16 >= g.lo
             && Yields(g, x, sp, s, fuel, a)
    ensures Yields(g, Ast.Call(Ast.Builtin(nm.addr[f]), Ast.ECons(x, Ast.ENil)), sp, s, fuel, RunFn(f, [a]).value)
  {
    hide RunFn, S.Eval;
    var s1 := S.Eval(g, x, sp, s, fuel).v.1;
    assert S.EvalArgs(g, Ast.ENil, sp - 16, s1, fuel) == S.Ok(([], s1));
    assert S.EvalArgs(g, Ast.ECons(x, Ast.ENil), sp, s, fuel) == S.Ok(([a] + [], s1)) && [a] + [] == [a];
    Answers(g, nm, f, [a], s1);
    CallEval(g, nm.addr[f], Ast.ECons(x, Ast.ENil), sp, s, fuel, [a], s1);
  }

  lemma Calls2(g: S.Env, nm: Names, f: string, x: Ast.Expr, y: Ast.Expr, sp: int, s: S.Store, fuel: nat, a: i64, b: i64)
    requires Provides(g.w, nm) && f in nm.addr && Arity(f) == 2 && RunFn(f, [a, b]).Some? && sp - 32 >= g.lo
             && Yields(g, x, sp, s, fuel, a)
    requires Yields(g, y, sp - 16, S.Eval(g, x, sp, s, fuel).v.1, fuel, b)
    ensures Yields(g, Ast.Call(Ast.Builtin(nm.addr[f]), Ast.ECons(x, Ast.ECons(y, Ast.ENil))), sp, s, fuel,
            RunFn(f, [a, b]).value)
  {
    hide RunFn, S.Eval;
    var s1 := S.Eval(g, x, sp, s, fuel).v.1;
    var s2 := S.Eval(g, y, sp - 16, s1, fuel).v.1;
    assert S.EvalArgs(g, Ast.ENil, sp - 32, s2, fuel) == S.Ok(([], s2));
    assert S.EvalArgs(g, Ast.ECons(y, Ast.ENil), sp - 16, s1, fuel) == S.Ok(([b] + [], s2));
    assert S.EvalArgs(g, Ast.ECons(x, Ast.ECons(y, Ast.ENil)), sp, s, fuel) == S.Ok(([a] + ([b] + []), s2));
    assert [a] + ([b] + []) == [a, b];
    Answers(g, nm, f, [a, b], s2);
    CallEval(g, nm.addr[f], Ast.ECons(x, Ast.ECons(y, Ast.ENil)), sp, s, fuel, [a, b], s2);
  }

  lemma Answers(g: S.Env, nm: Names, f: string, args: seq<i64>, s: S.Store)
    requires Provides(g.w, nm) && f in nm.addr && |args| == Arity(f) && RunFn(f, args).Some?
    ensures var r := S.CallBuiltin(g.w, nm.addr[f], args, s);
            r.Ok? && r.v.0 == RunFn(f, args).value && r.v.1 == s.(hist := r.v.1.hist)
  {
    hide RunFn;
    assert S.Patterns(args)[..Arity(f)] == S.Patterns(args);
    var t := s.hist + [Cpu.Event(nm.addr[f], S.Patterns(args))];
    assert g.w.sees(t) == {} && g.w.answer(t, map[]) == ToU(RunFn(f, args).value);
    assert Mem.View(s.data, {}) == map[] && s.data + map[] == s.data;
    SignRoundTrip(RunFn(f, args).value, 0);
  }

  lemma CallEval(g: S.Env, a: int, es: Ast.Exprs, sp: int, s: S.Store, fuel: nat, vs: seq<i64>, s1: S.Store)
    requires S.EvalArgs(g, es, sp, s, fuel) == S.Ok((vs, s1)) && S.CallBuiltin(g.w, a, vs, s1).Ok?
    ensures S.Eval(g, Ast.Call(Ast.Builtin(a), es), sp, s, fuel) == S.CallBuiltin(g.w, a, vs, s1)
  {
    hide S.CallBuiltin, S.EvalArgs;
  }

  lemma AstCall1(f: string, t: CE, nm: Names, x: Ast.Expr)
    requires ToAst(t, nm) == Some(x) && f in nm.addr
    ensures ToAst(Call1(f, t), nm) == Some(Ast.Call(Ast.Builtin(nm.addr[f]), Ast.ECons(x, Ast.ENil)))
  {
    assert ToArgs(CNil, nm) == Some(Ast.ENil);
    assert ToArgs(CCons(t, CNil), nm) == Some(Ast.ECons(x, Ast.ENil));
  }

  lemma AstCall2(f: string, t: CE, u: CE, nm: Names, x: Ast.Expr, y: Ast.Expr)
    requires ToAst(t, nm) == Some(x) && ToAst(u, nm) == Some(y) && f in nm.addr
    ensures ToAst(Call2(f, t, u), nm) == Some(Ast.Call(Ast.Builtin(nm.addr[f]), Ast.ECons(x, Ast.ECons(y, Ast.ENil))))
  {
    assert ToArgs(CNil, nm) == Some(Ast.ENil);
    assert ToArgs(CCons(u, CNil), nm) == Some(Ast.ECons(y, Ast.ENil));
    assert ToArgs(CCons(t, CCons(u, CNil)), nm) == Some(Ast.ECons(x, Ast.ECons(y, Ast.ENil)));
  }

  lemma NumYields(g: S.Env, n: nat, sp: int, s: S.Store, fuel: nat)
    ensures Yields(g, Ast.Num(n), sp, s, fuel, Wrap(n))
  {
  }

  /** The compiled tree evaluates to the word of the expression's value. */
  lemma {:induction false} TreeMeans(e: Exp, env: map<string, Val>, nm: Names, g: S.Env, sp: int, s: S.Store,
      fuel: nat) returns (x: Ast.Expr)
    requires Bound(e, env) && Stored(g, nm, env, e, s) && Provides(g.w, nm) && Complete(nm) && sp - 16 * Deep(e) >= g.lo
    ensures ToAst(Tree(e), nm) == Some(x) && Yields(g, x, sp, s, fuel, Rep(Means(e, env)))
    decreases e, 1
  {
    hide RunFn, Provides, S.Eval, Rep, MkInt, MkBool, W63, Stored, OpVal, S.LoadAt;
    match e
    case Int(n) =>
      LiteralRuns(n);
      x := LiteralMeans("v_int", n, nm, g, sp, s, fuel);
    case Truth(b) =>
      TruthRuns(b);
      x := LiteralMeans("v_bool", if b then 1 else 0, nm, g, sp, s, fuel);
    case Local(y) => x := LocalMeans(y, env, nm, g, sp, s, fuel);
    case Not(y) =>
      StoredParts(g, nm, env, e, s);
      var y' := TreeMeans(y, env, nm, g, sp, s, fuel);
      var v := Means(y, env);
      NotRuns(v);
      Calls1(g, nm, "v_not", y', sp, s, fuel, Rep(v));
      AstCall1("v_not", Tree(y), nm, y');
      x := Ast.Call(Ast.Builtin(nm.addr["v_not"]), Ast.ECons(y', Ast.ENil));
    case Neg(y) => x := NegMeans(y, env, nm, g, sp, s, fuel);
    case Bin(op, l, r) => x := BinMeans(op, l, r, env, nm, g, sp, s, fuel);
  }

  lemma StoredParts(g: S.Env, nm: Names, env: map<string, Val>, e: Exp, s: S.Store)
    requires Bound(e, env) && Stored(g, nm, env, e, s)
    ensures e.Not? || e.Neg? ==> Stored(g, nm, env, e.e, s)
    ensures e.Bin? ==> Stored(g, nm, env, e.l, s) && Stored(g, nm, env, e.r, s)
  {
  }

  lemma LiteralMeans(f: string, n: nat, nm: Names, g: S.Env, sp: int, s: S.Store, fuel: nat) returns (x: Ast.Expr)
    requires (f == "v_int" || f == "v_bool") && Provides(g.w, nm) && Complete(nm) && sp - 16 >= g.lo
             && RunFn(f, [Wrap(n)]).Some?
    ensures ToAst(Call1(f, CNum(n)), nm) == Some(x) && Yields(g, x, sp, s, fuel, RunFn(f, [Wrap(n)]).value)
  {
    hide RunFn, Provides, S.Eval;
    NumYields(g, n, sp, s, fuel);
    Calls1(g, nm, f, Ast.Num(n), sp, s, fuel, Wrap(n));
    AstCall1(f, CNum(n), nm, Ast.Num(n));
    x := Ast.Call(Ast.Builtin(nm.addr[f]), Ast.ECons(Ast.Num(n), Ast.ENil));
  }

  lemma LiteralRuns(n: nat)
    ensures RunFn("v_int", [Wrap(n)]) == Some(Rep(VInt(W63(n))))
  {
    MkIntRep(n);
  }

  lemma TruthRuns(b: bool)
    ensures var n := if b then 1 else 0; RunFn("v_bool", [Wrap(n)]) == Some(Rep(VBool(b)))
  {
  }

  lemma NotRuns(v: Val)
    requires Fits(v)
    ensures RunFn("v_not", [Rep(v)]) == Some(Rep(VBool(!True(v))))
  {
    RepParts(v);
    Plain1(Rep(v));
  }

  lemma VarYields(y: string, env: map<string, Val>, nm: Names, g: S.Env, sp: int, s: S.Store, fuel: nat)
      returns (x: Ast.Expr)
    requires Bound(Local(y), env) && Stored(g, nm, env, Local(y), s)
    ensures ToAst(CVar(Variable(y)), nm) == Some(x) && Yields(g, x, sp, s, fuel, Held(y, env[y]))
  {
    hide S.LoadAt, Rep;
    var i := nm.slot[Variable(y)];
    x := Ast.Var(Ast.Local(i), Ast.TInt);
    assert S.EvalAddr(g, x, sp, s, fuel) == S.Ok((ToU(g.fp - g.offs[i]), s));
    assert S.Eval(g, x, sp, s, fuel) == S.Ok((Held(y, env[y]), s));
  }

  lemma LocalMeans(y: string, env: map<string, Val>, nm: Names, g: S.Env, sp: int, s: S.Store, fuel: nat)
      returns (x: Ast.Expr)
    requires Bound(Local(y), env) && Stored(g, nm, env, Local(y), s) && Provides(g.w, nm) && Complete(nm)
             && sp - 16 * Deep(Local(y)) >= g.lo
    ensures ToAst(Tree(Local(y)), nm) == Some(x) && Yields(g, x, sp, s, fuel, Rep(env[y]))
  {
    hide RunFn, Provides, S.Eval, Rep, Stored, S.LoadAt, W63, Yields;
    x := VarYields(y, env, nm, g, sp, s, fuel);
    if y == SELF {
      SelfRuns(env[y]);
      Calls1(g, nm, "v_int", x, sp, s, fuel, env[y].n);
      AstCall1("v_int", CVar(SELF), nm, x);
      x := Ast.Call(Ast.Builtin(nm.addr["v_int"]), Ast.ECons(x, Ast.ENil));
    }
  }

  lemma SelfRuns(v: Val)
    requires Fits(v) && v.VInt?
    ensures RunFn("v_int", [v.n]) == Some(Rep(v))
  {
    hide MkInt, Rep, W63, Wrap;
    MkIntRep(v.n);
    Unwrapped(v.n);
  }

  lemma Unwrapped(n: int)
    requires Fits(VInt(n))
    ensures W63(n) == n && Wrap(n) == n
  {
  }

  lemma NegMeans(y: Exp, env: map<string, Val>, nm: Names, g: S.Env, sp: int, s: S.Store, fuel: nat)
      returns (x: Ast.Expr)
    requires Bound(Exp.Neg(y), env) && Stored(g, nm, env, Exp.Neg(y), s) && Provides(g.w, nm) && Complete(nm)
             && sp - 16 * Deep(Exp.Neg(y)) >= g.lo
    ensures ToAst(Tree(Exp.Neg(y)), nm) == Some(x) && Yields(g, x, sp, s, fuel, Rep(Means(Exp.Neg(y), env)))
    decreases Exp.Neg(y), 0
  {
    hide RunFn, Provides, S.Eval, Rep, Stored, S.LoadAt, W63;
    LiteralRuns(0);
    var z := LiteralMeans("v_int", 0, nm, g, sp, s, fuel);
    var s1 := S.Eval(g, z, sp, s, fuel).v.1;
    StoredParts(g, nm, env, Exp.Neg(y), s);
    StoredKeeps(g, nm, env, y, s, s1);
    var y' := TreeMeans(y, env, nm, g, sp - 16, s1, fuel);
    NegRuns(Means(y, env));
    AstCall2("v_sub", Call1("v_int", CNum(0)), Tree(y), nm, z, y');
    Calls2(g, nm, "v_sub", z, y', sp, s, fuel, Rep(VInt(W63(0))), Rep(Means(y, env)));
    x := Ast.Call(Ast.Builtin(nm.addr["v_sub"]), Ast.ECons(z, Ast.ECons(y', Ast.ENil)));
  }

  lemma NegRuns(v: Val)
    requires Fits(v)
    ensures Fits(VInt(W63(0))) && RunFn("v_sub", [Rep(VInt(W63(0))), Rep(v)]) == Some(Rep(VInt(W63(0 - Num(v)))))
  {
    assert W63(0) == 0;
    OpRuns(OSub, VInt(0), v);
  }

  lemma FnKnown(op: Op2, nm: Names)
    requires Complete(nm)
    ensures Fn(op) in nm.addr && Arity(Fn(op)) == 2
  {
  }

  /** The operands in the order the call passes them. */
  function First(op: Op2, l: Exp, r: Exp): Exp { if Swaps(op) then r else l }
  function Second(op: Op2, l: Exp, r: Exp): Exp { if Swaps(op) then l else r }

  lemma BinParts(op: Op2, l: Exp, r: Exp, env: map<string, Val>, nm: Names, g: S.Env, s: S.Store)
    requires Bound(Bin(op, l, r), env) && Stored(g, nm, env, Bin(op, l, r), s)
    ensures var a, b := First(op, l, r), Second(op, l, r);
            && Bound(a, env) && Stored(g, nm, env, a, s) && Bound(b, env) && Stored(g, nm, env, b, s)
            && Deep(a) + Deep(b) + 2 == Deep(Bin(op, l, r))
            && Tree(Bin(op, l, r)) == Call2(Fn(op), Tree(a), Tree(b))
  {
    hide S.LoadAt, Fn;
  }

  lemma BinRuns(op: Op2, l: Exp, r: Exp, env: map<string, Val>)
    requires Bound(Bin(op, l, r), env)
    ensures var a, b := First(op, l, r), Second(op, l, r);
            && Bound(a, env) && Bound(b, env)
            && RunFn(Fn(op), [Rep(Means(a, env)), Rep(Means(b, env))]) == Some(Rep(Means(Bin(op, l, r), env)))
  {
    hide RunFn, Rep, OpVal, Fn;
    OpRuns(op, Means(l, env), Means(r, env));
    assert Means(Bin(op, l, r), env) == OpVal(op, Means(l, env), Means(r, env));
  }

  lemma BinMeans(op: Op2, l: Exp, r: Exp, env: map<string, Val>, nm: Names, g: S.Env, sp: int, s: S.Store, fuel: nat)
      returns (x: Ast.Expr)
    requires Bound(Bin(op, l, r), env) && Stored(g, nm, env, Bin(op, l, r), s) && Provides(g.w, nm) && Complete(nm)
             && sp - 16 * Deep(Bin(op, l, r)) >= g.lo
    ensures ToAst(Tree(Bin(op, l, r)), nm) == Some(x) && Yields(g, x, sp, s, fuel, Rep(Means(Bin(op, l, r), env)))
    decreases Bin(op, l, r), 0
  {
    hide *;
    BinParts(op, l, r, env, nm, g, s);
    BinRuns(op, l, r, env);
    FnKnown(op, nm);
    var a, b := First(op, l, r), Second(op, l, r);
    OperandsSmaller(op, l, r);
    var a' := TreeMeans(a, env, nm, g, sp, s, fuel);
    var s1 := YieldsStore(g, a', sp, s, fuel, Rep(Means(a, env)));
    StoredKeeps(g, nm, env, b, s, s1);
    var b' := TreeMeans(b, env, nm, g, sp - 16, s1, fuel);
    AstCall2(Fn(op), Tree(a), Tree(b), nm, a', b');
    Calls2(g, nm, Fn(op), a', b', sp, s, fuel, Rep(Means(a, env)), Rep(Means(b, env)));
    x := Ast.Call(Ast.Builtin(nm.addr[Fn(op)]), Ast.ECons(a', Ast.ECons(b', Ast.ENil)));
  }

  lemma OperandsSmaller(op: Op2, l: Exp, r: Exp)
    ensures First(op, l, r) < Bin(op, l, r) && Second(op, l, r) < Bin(op, l, r)
  {
  }

  lemma YieldsStore(g: S.Env, x: Ast.Expr, sp: int, s: S.Store, fuel: nat, w: i64) returns (s1: S.Store)
    requires Yields(g, x, sp, s, fuel, w)
    ensures S.Eval(g, x, sp, s, fuel) == S.Ok((w, s1)) && s1 == s.(hist := s1.hist)
  {
    hide S.Eval;
    s1 := S.Eval(g, x, sp, s, fuel).v.1;
  }

  /** From the printed text to the machine: the text of an expression lexes and parses to a
      tree whose compiled words leave the word of its value in x0, with the store, SP, x29
      and the memory outside the free stack as they were. */
  lemma OnMachine(e: Exp, env: map<string, Val>, nm: Names, x: Ast.Expr, c: Programs.Ctx, l: int, pos: int, sp: int,
      s: S.Store, fuel: nat, st: Cpu.State)
      returns (s': S.Store, st': Cpu.State)
    requires Sane(e) && Bound(e, env) && Stored(c.g, nm, env, e, s) && Provides(c.g.w, nm) && Complete(nm)
             && sp - 16 * Deep(e) >= c.g.lo
    requires ToAst(Tree(e), nm) == Some(x) && Correct.ExprReady(c, x, l, pos, sp, s, st)
    ensures Lex(Text(e)) == Some(Toks(e)) && Assign(Toks(e)) == Some((Tree(e), []))
    ensures Sim.Did(c.im, c.g, s, s', sp, st, st', pos + |Emit.Code(c.g.offs, x, l)|) && s' == s.(hist := s'.hist)
    ensures st'.x[0] == ToU(Rep(Means(e, env)))
  {
    hide *;
    TextMeansTree(e);
    var x' := TreeMeans(e, env, nm, c.g, sp, s, fuel);
    s' := YieldsStore(c.g, x, sp, s, fuel, Rep(Means(e, env)));
    st' := Correct.ExprOk(c, x, l, pos, sp, s, fuel, st, Rep(Means(e, env)), s');
  }
}
