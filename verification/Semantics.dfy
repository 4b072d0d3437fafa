/** What a program of the C subset means: a fuelled big-step evaluator.

    Values are signed 64-bit numbers and pointers are numbers.  A store knows which bytes
    belong to live objects (`alloc`), the values of those that have been written (`data`),
    and the builtin calls made so far (`hist`).  Reading a byte that was never written,
    touching a byte of no live object, unaligned 8-byte accesses and running out of stack
    are undefined.  Where a callee's frame goes is observable through `&`, so evaluation
    carries the stack pointer `sp`; [lo, sp) is the free stack. */
module Semantics {
  import opened Options
  import opened Word
  import opened Mem
  import opened Ast
  import Cpu

  type World = Cpu.World
  type Event = Cpu.Event

  /** Undefined behaviour and running out of fuel both end an evaluation. */
  datatype Res<+T> = Ok(v: T) | Undef | Timeout {
    predicate IsFailure() { !Ok? }
    function PropagateFailure<U>(): (r: Res<U>)
      requires IsFailure()
      ensures r.IsFailure()
    {
      if Undef? then Undef else Timeout
    }
    function Extract(): T
      requires Ok?
    {
      v
    }
  }

  datatype Store = Store(alloc: set<int>, data: Memory, hist: seq<Event>)

  /** Static surroundings: the program, the current frame, the end of the stack. */
  datatype Env = Env(p: Prog, w: World, offs: seq<nat>, fp: int, lo: int)

  datatype Out = Normal | Broke | Continued | Returned(v: i64)

  function Bool(b: bool): i64 { if b then 1 else 0 }

  /** Division by zero gives 0 and the remainder by zero gives the dividend. */
  function Apply(op: Op, a: i64, b: i64): i64 {
    match op
    case Add => Wrap(a + b)
    case Sub => Wrap(a - b)
    case Mul => Wrap(a * b)
    case Div => if b == 0 then 0 else Wrap(TruncDiv(a, b))
    case Mod => if b == 0 then a else Wrap(TruncRem(a, b))
    case Eq => Bool(a == b)
    case Ne => Bool(a != b)
    case Lt => Bool(a < b)
    case Le => Bool(a <= b)
  }

  function LoadAt(ty: Ty, a: u64, s: Store): Res<i64> {
    if ty.TArray? then Ok(ToS(a))
    else if Size(ty) == 1 then (if a in s.data then Ok(s.data[a]) else Undef)
    else if a % 8 == 0 && Has(s.data, a, 8) then Ok(ToS(Load8(s.data, a)))
    else Undef
  }

  /** The addresses [a, a + n). */
  function Range(a: int, n: nat): (r: set<int>)
    ensures forall i :: i in r <==> a <= i < a + n
  {
    if n == 0 then {} else Range(a, n - 1) + {a + n - 1}
  }

  function StoreAt(ty: Ty, a: u64, v: i64, s: Store): Res<Store> {
    if Size(ty) == 1 then
      if a in s.alloc then Ok(s.(data := s.data[a := ToU(v) % 256])) else Undef
    else if a % 8 == 0 && Range(a, 8) <= s.alloc then Ok(s.(data := Store8(s.data, a, ToU(v))))
    else Undef
  }

  function Patterns(vs: seq<i64>): seq<u64> { seq(|vs|, i requires 0 <= i < |vs| => ToU(vs[i])) }

  /** A builtin may depend on bytes that have been written and store into live objects. */
  function CallBuiltin(w: World, a: int, vs: seq<i64>, s: Store): Res<(i64, Store)> {
    if a !in w.arity || w.arity[a] > |vs| || w.arity[a] > 8 then Undef
    else
      var h := s.hist + [Cpu.Event(a, Patterns(vs)[..w.arity[a]])];
      var seen := View(s.data, w.sees(h));
      var out := w.puts(h, seen);
      if !(w.sees(h) <= s.data.Keys && out.Keys <= s.alloc) then Undef
      else Ok((ToS(w.answer(h, seen)), s.(hist := h, data := s.data + out)))
  }

  // ---------------------------------------------------------------- expressions

  function Eval(g: Env, e: Expr, sp: int, s: Store, fuel: nat): Res<(i64, Store)>
    decreases fuel, e, 1
  {
    match e
    case Num(v) => Ok((Wrap(v), s))
    case Text(a) => Ok((Wrap(a), s))
    case Var(_, ty) =>
      var (a, s1) :- EvalAddr(g, e, sp, s, fuel);
      var v :- LoadAt(ty, a, s1);
      Ok((v, s1))
    case Member(_, _, ty) =>
      var (a, s1) :- EvalAddr(g, e, sp, s, fuel);
      var v :- LoadAt(ty, a, s1);
      Ok((v, s1))
    case Deref(p, ty) =>
      var (a, s1) :- Eval(g, p, sp, s, fuel);
      var v :- LoadAt(ty, ToU(a), s1);
      Ok((v, s1))
    case AddrOf(x) =>
      var (a, s1) :- EvalAddr(g, x, sp, s, fuel);
      Ok((ToS(a), s1))
    case Assign(l, r) =>
      var (a, s1) :- EvalAddr(g, l, sp, s, fuel);
      if sp - 16 < g.lo then Undef else
      var (v, s2) :- Eval(g, r, sp - 16, s1, fuel);
      var s3 :- StoreAt(TyOf(l), a, v, s2);
      Ok((v, s3))
    case Neg(x) =>
      var (v, s1) :- Eval(g, x, sp, s, fuel);
      Ok((Wrap(0 - v), s1))
    case Not(x) =>
      var (v, s1) :- Eval(g, x, sp, s, fuel);
      Ok((Bool(v == 0), s1))
    case And(l, r) =>
      var (v, s1) :- Eval(g, l, sp, s, fuel);
      if v == 0 then Ok((0, s1)) else
      var (w, s2) :- Eval(g, r, sp, s1, fuel);
      Ok((Bool(w != 0), s2))
    case Or(l, r) =>
      var (v, s1) :- Eval(g, l, sp, s, fuel);
      if v != 0 then Ok((1, s1)) else
      var (w, s2) :- Eval(g, r, sp, s1, fuel);
      Ok((Bool(w != 0), s2))
    case Bin(op, l, r) =>            // the right operand first
      var (b, s1) :- Eval(g, r, sp, s, fuel);
      if sp - 16 < g.lo then Undef else
      var (a, s2) :- Eval(g, l, sp - 16, s1, fuel);
      Ok((Apply(op, a, b), s2))
    case Call(f, args) =>
      var (vs, s1) :- EvalArgs(g, args, sp, s, fuel);
      match f {
        case Builtin(a) => CallBuiltin(g.w, a, vs, s1)
        case User(i) => if fuel == 0 then Timeout else CallUser(g, i, vs, sp, s1, fuel - 1)
      }
  }

  function EvalAddr(g: Env, e: Expr, sp: int, s: Store, fuel: nat): Res<(u64, Store)>
    decreases fuel, e, 0
  {
    match e
    case Var(Local(i), _) => if i < |g.offs| then Ok((ToU(g.fp - g.offs[i]), s)) else Undef
    case Var(Global(a), _) => Ok((ToU(a), s))
    case Text(a) => Ok((ToU(a), s))
    case Deref(p, _) =>
      var (v, s1) :- Eval(g, p, sp, s, fuel);
      Ok((ToU(v), s1))
    case Member(b, off, _) =>
      var (a, s1) :- EvalAddr(g, b, sp, s, fuel);
      Ok((ToU(a + off), s1))
    case _ => Undef
  }

  /** Arguments left to right, each kept on the stack while the next is evaluated. */
  function EvalArgs(g: Env, es: Exprs, sp: int, s: Store, fuel: nat): Res<(seq<i64>, Store)>
    decreases fuel, es, 0
  {
    match es
    case ENil => Ok(([], s))
    case ECons(e, t) =>
      var (v, s1) :- Eval(g, e, sp, s, fuel);
      if sp - 16 < g.lo then Undef else
      var (vs, s2) :- EvalArgs(g, t, sp - 16, s1, fuel);
      Ok(([v] + vs, s2))
  }

  // ---------------------------------------------------------------- calls

  function StoreParams(fn: Func, offs: seq<nat>, fp: int, vs: seq<i64>, k: nat, s: Store): Res<Store>
    decreases |fn.params| - k
  {
    if k >= |fn.params| then Ok(s)
    else if k >= |vs| || fn.params[k] >= |fn.locals| || fn.params[k] >= |offs| then Undef
    else
      var s1 :- StoreAt(fn.locals[fn.params[k]], ToU(fp - offs[fn.params[k]]), vs[k], s);
      StoreParams(fn, offs, fp, vs, k + 1, s1)
  }

  function OpenFrame(s: Store, low: int, size: nat): Store { s.(alloc := s.alloc + Range(low, size)) }

  function CloseFrame(s: Store, low: int, size: nat): Store {
    s.(alloc := s.alloc - Range(low, size), data := s.data - Range(low, size))
  }

  /** The callee's frame lies below its saved frame record; its bytes are live, and
      unwritten, exactly for the duration of the call.  Falling off the end returns 0. */
  function CallUser(g: Env, i: nat, vs: seq<i64>, sp: int, s: Store, fuel: nat): Res<(i64, Store)>
    decreases fuel
  {
    if i >= |g.p.funcs| then Undef else
    var fn := g.p.funcs[i];
    var fp := sp - 16;
    var frame := Frame(fn.locals);
    if fp - frame < g.lo then Undef else
    var g1 := g.(offs := Offsets(fn.locals), fp := fp);
    var s1 :- StoreParams(fn, g1.offs, fp, vs, 0, OpenFrame(s, fp - frame, frame));
    var (out, s2) :- Exec(g1, fn.body, -1, fp - frame, s1, fuel);
    if out.Returned? then Ok((out.v, CloseFrame(s2, fp - frame, frame)))
    else if out.Normal? then Ok((0, CloseFrame(s2, fp - frame, frame)))
    else Undef
  }

  // ---------------------------------------------------------------- statements

  /** The case labels of a switch body in source order, inner switches excluded. */
  function Cases(st: Stmt): seq<Option<int>> {
    match st
    case If(_, t, f) => Cases(t) + Cases(f)
    case While(_, b) => Cases(b)
    case For(_, _, _, b) => Cases(b)
    case Case(l, b) => [l] + Cases(b)
    case Block(ss) => CasesList(ss)
    case _ => []
  }

  function CasesList(ss: Stmts): seq<Option<int>> {
    match ss case SNil => [] case SCons(h, t) => Cases(h) + CasesList(t)
  }

  /** The case a value jumps to, or -1: the parser links the cases in reverse source order
      and the generated comparisons follow the links, so of equal labels the last wins;
      of several defaults the first does. */
  function Match(cs: seq<Option<int>>, v: i64): int {
    if cs == [] then -1
    else if cs[|cs| - 1].Some? && Wrap(cs[|cs| - 1].value) == v then |cs| - 1
    else Match(cs[..|cs| - 1], v)
  }

  function Default(cs: seq<Option<int>>): int {
    if cs == [] then -1
    else
      var d := Default(cs[..|cs| - 1]);
      if d >= 0 then d else if cs[|cs| - 1].None? then |cs| - 1 else -1
  }

  function Dispatch(cs: seq<Option<int>>, v: i64): int {
    if Match(cs, v) >= 0 then Match(cs, v) else Default(cs)
  }

  /** The guard at a loop's back edge: false when the budget is spent. */
  function Tick(g: Env, s: Store): Res<(bool, Store)> {
    match g.p.tick
    case None => Ok((true, s))
    case Some(a) =>
      var (v, s1) :- CallBuiltin(g.w, a, [], s);
      Ok((v != 0, s1))
  }

  function EvalOpt(g: Env, e: Option<Expr>, sp: int, s: Store, fuel: nat): Res<(i64, Store)>
    decreases fuel, e, 0
  {
    match e case None => Ok((1, s)) case Some(x) => Eval(g, x, sp, s, fuel)
  }

  /** Execute a statement.  With k < 0 from its start; with k >= 0 from the k-th case label
      inside it, which is how a switch enters its body. */
  function Exec(g: Env, st: Stmt, k: int, sp: int, s: Store, fuel: nat): Res<(Out, Store)>
    decreases fuel, st, 2
  {
    if k >= |Cases(st)| then Undef else
    match st
    case ExprS(e) =>
      var (_, s1) :- Eval(g, e, sp, s, fuel);
      Ok((Normal, s1))
    case Return(e) =>
      var (v, s1) :- Eval(g, e, sp, s, fuel);
      Ok((Returned(v), s1))
    case Break => Ok((Broke, s))
    case Continue => Ok((Continued, s))
    case Block(ss) => ExecList(g, ss, k, sp, s, fuel)
    case Case(_, b) => Exec(g, b, k - 1, sp, s, fuel)
    case If(c, t, f) =>
      if 0 <= k < |Cases(t)| then Exec(g, t, k, sp, s, fuel)
      else if 0 <= k then Exec(g, f, k - |Cases(t)|, sp, s, fuel)
      else
        var (v, s1) :- Eval(g, c, sp, s, fuel);
        Exec(g, if v != 0 then t else f, -1, sp, s1, fuel)
    case While(c, b) =>
      if 0 <= k then WhileBody(g, st, k, sp, s, fuel)
      else
        var (v, s1) :- Eval(g, c, sp, s, fuel);
        if v == 0 then Ok((Normal, s1)) else WhileBody(g, st, -1, sp, s1, fuel)
    case For(init, _, _, _) =>
      if 0 <= k then ForBody(g, st, k, sp, s, fuel)
      else
        var (_, s1) :- EvalOpt(g, init, sp, s, fuel);
        ForTest(g, st, sp, s1, fuel)
    case Switch(c, b) =>
      var (v, s1) :- Eval(g, c, sp, s, fuel);
      var d := Dispatch(Cases(b), v);
      if d < 0 then Ok((Normal, s1)) else
      var (out, s2) :- Exec(g, b, d, sp, s1, fuel);
      Ok((if out.Broke? then Normal else out, s2))
  }

  function ExecList(g: Env, ss: Stmts, k: int, sp: int, s: Store, fuel: nat): Res<(Out, Store)>
    decreases fuel, ss, 1
  {
    match ss
    case SNil => if k >= 0 then Undef else Ok((Normal, s))
    case SCons(h, t) =>
      if k >= |Cases(h)| && k >= 0 then ExecList(g, t, k - |Cases(h)|, sp, s, fuel)
      else
        var (out, s1) :- Exec(g, h, k, sp, s, fuel);
        if out.Normal? then ExecList(g, t, -1, sp, s1, fuel) else Ok((out, s1))
  }

  /** A while loop from its body on.  `continue` re-tests without consulting the guard. */
  function WhileBody(g: Env, st: Stmt, k: int, sp: int, s: Store, fuel: nat): Res<(Out, Store)>
    requires st.While?
    decreases fuel, st, 0
  {
    var (out, s1) :- Exec(g, st.body, k, sp, s, fuel);
    if out.Broke? then Ok((Normal, s1))
    else if out.Returned? then Ok((out, s1))
    else
      var (more, s2) :- if out.Normal? then Tick(g, s1) else Ok((true, s1));
      if !more then Ok((Normal, s2))
      else if fuel == 0 then Timeout
      else Exec(g, st, -1, sp, s2, fuel - 1)
  }

  function ForTest(g: Env, st: Stmt, sp: int, s: Store, fuel: nat): Res<(Out, Store)>
    requires st.For?
    decreases fuel, st, 1
  {
    var (v, s1) :- EvalOpt(g, st.cond, sp, s, fuel);
    if v == 0 then Ok((Normal, s1)) else ForBody(g, st, -1, sp, s1, fuel)
  }

  /** A for loop from its body on.  `continue` goes to the increment and then the guard. */
  function ForBody(g: Env, st: Stmt, k: int, sp: int, s: Store, fuel: nat): Res<(Out, Store)>
    requires st.For?
    decreases fuel, st, 0
  {
    var (out, s1) :- Exec(g, st.body, k, sp, s, fuel);
    if out.Broke? then Ok((Normal, s1))
    else if out.Returned? then Ok((out, s1))
    else
      var (_, s2) :- EvalOpt(g, st.inc, sp, s1, fuel);
      var (more, s3) :- Tick(g, s2);
      if !more then Ok((Normal, s3))
      else if fuel == 0 then Timeout
      else ForTest(g, st, sp, s3, fuel - 1)
  }
}
