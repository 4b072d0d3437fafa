/** The compiler as a whole: what generating a program promises about running it, and where
    the generator's own limits break the promise. */
module Compiler {
  import opened Options
  import opened Word
  import opened Mem
  import opened Arm
  import opened Cpu
  import opened Ast
  import opened Emit
  import opened Loaded
  import opened Sim
  import opened Programs
  import opened Pieces
  import opened Buffer
  import opened Generator
  import Correct
  import Forever
  import Guard
  import S = Semantics

  /** A call of function f from outside with arguments vs: the store s, represented by st,
      becomes s' and the result is v; r is the word the caller continues at. */
  datatype Call = Call(g: S.Env, f: nat, vs: seq<i64>, sp: int, s: S.Store, fuel: nat, st: State, r: int, v: i64,
      s': S.Store)

  /** The source semantics defines the call, and the machine stands ready to make it. */
  ghost predicate Asked(im: Image, p: Prog, c: Call) {
    && c.g.p == p && c.g.w == im.m.world && c.f < |p.funcs| == |im.entry|
    && Rel(c.g, c.s, c.sp, c.st) && c.st.pc == PcOf(im, im.entry[c.f]) && c.st.x[30] == PcOf(im, c.r)
    && |c.vs| <= 8 && (forall i :: 0 <= i < |c.vs| ==> c.st.x[i] == ToU(c.vs[i]))
    && S.CallUser(c.g, c.f, c.vs, c.sp, c.s, c.fuel) == S.Ok((c.v, c.s'))
  }

  /** Running the words returns to the caller with the value in x0, SP and x29 restored, the
      new store represented, and no byte outside the live objects and the stack changed. */
  ghost predicate Answered(im: Image, c: Call) {
    exists st' :: Did(im, c.g, c.s, c.s', c.sp, c.st, st', c.r) && st'.x[0] == ToU(c.v)
  }

  ghost predicate Implements(im: Image, p: Prog) { forall c :: Asked(im, p, c) ==> Answered(im, c) }

  /** The machine stands ready for a call, whatever the source makes of it. */
  ghost predicate Posed(im: Image, p: Prog, c: Call) {
    && c.g.p == p && c.g.w == im.m.world && c.f < |p.funcs| == |im.entry|
    && Rel(c.g, c.s, c.sp, c.st) && c.st.pc == PcOf(im, im.entry[c.f])
    && |c.vs| <= 8 && (forall i :: 0 <= i < |c.vs| ==> c.st.x[i] == ToU(c.vs[i]))
  }

  /** No fuel is enough for the source to finish the call. */
  ghost predicate Endless(c: Call) { forall fuel: nat :: S.CallUser(c.g, c.f, c.vs, c.sp, c.s, fuel) == S.Timeout }

  /** Calls that do not end in the source do not end on the machine: it never faults, and
      never leaves the code. */
  ghost predicate Persists(im: Image, p: Prog) {
    forall c, u :: Posed(im, p, c) && Endless(c) && Reaches(im.m, c.st, u) ==> Step(im.m, u).Some?
  }

  predicate SmallFrames(p: Prog) { forall f :: 0 <= f < |p.funcs| ==> Frame(p.funcs[f].locals) <= 0xFFF }

  predicate Parsed(p: Prog) { forall f :: 0 <= f < |p.funcs| ==> NamedF(|p.funcs|, p.funcs[f]) }

  ghost predicate Housed(m: Machine) {
    && 0 <= m.base && m.base % 4 == 0 && m.base + 4 * |m.code| < M64
    && forall a :: a in m.world.arity ==> 0 <= a < M64 && !InCode(m, a)
  }

  lemma LaidGood(im: Image, p: Prog, g: S.Env)
    requires Laid(im, |p.funcs|, p) && Parsed(p) && SmallFrames(p) && Housed(im.m) && g.p == p && g.w == im.m.world
    ensures Good(im, g)
  {
    hide FCode, FPlaced, WfS, Frame, Offsets, Holding, S.Cases, NamedS, Depth, InCode;
    forall f | 0 <= f < |p.funcs| ensures FuncLoaded(im, p, f) {
      assert NamedF(|p.funcs|, p.funcs[f]) && FuncHeld(im, |p.funcs|, p, f);
    }
  }

  /** A laid-out program implements its source: every defined call of every function ends
      with its result, and one that does not end in the source does not end. */
  lemma LaidImplements(im: Image, p: Prog)
    requires Laid(im, |p.funcs|, p) && Parsed(p) && SmallFrames(p) && Housed(im.m)
    ensures Implements(im, p) && Persists(im, p)
  {
    hide Laid, Rel, Did, S.CallUser, Parsed, SmallFrames, Housed, Good, Step;
    forall c: Call, u | Posed(im, p, c) && Endless(c) && Reaches(im.m, c.st, u) ensures Step(im.m, u).Some? {
      LaidPersists(im, p, c, u);
    }
    forall c: Call | Asked(im, p, c) ensures Answered(im, c) {
      LaidGood(im, p, c.g);
      var st' := Correct.CallUserOk(Ctx(im, map[], c.g), c.f, c.vs, c.sp, c.s, c.fuel, c.st, c.r, c.v, c.s');
      assert Did(im, c.g, c.s, c.s', c.sp, c.st, st', c.r);
    }
  }

  lemma LaidPersists(im: Image, p: Prog, c: Call, u: State)
    requires Laid(im, |p.funcs|, p) && Parsed(p) && SmallFrames(p) && Housed(im.m)
    requires Posed(im, p, c) && Endless(c) && Reaches(im.m, c.st, u)
    ensures Step(im.m, u).Some?
  {
    hide Laid, Rel, S.CallUser, Parsed, SmallFrames, Housed, Good, Reaches, Step, Forever.RunsOn;
    LaidGood(im, p, c.g);
    forall n ensures Forever.RunsOn(im.m, c.st, n) {
      Forever.CallUserLasts(Ctx(im, map[], c.g), c.f, c.vs, c.sp, c.s, n, c.st);
    }
    Forever.NeverStops(im.m, c.st, u);
  }

  /** Whatever the size of the tables: a generated program none of whose dropped fixups
      mattered implements its source. */
  lemma WrittenImplements(im: Image, p: Prog)
    requires Written(im, |p.funcs|, p) && Parsed(p) && SmallFrames(p) && Housed(im.m)
    ensures |im.entry| == |im.tabs| == |p.funcs|
    ensures NoneLost(im, p) ==> Implements(im, p) && Persists(im, p)
    ensures FitsTables(p) ==> NoneLost(im, p)
  {
    hide Written, Parsed, SmallFrames, Housed, Implements, Persists, Laid, NoneLost, FitsTables;
    LaidIff(im, |p.funcs|, p);
    if FitsTables(p) { FewLost(im, |p.funcs|, p); }
    if NoneLost(im, p) { LaidImplements(im, p); }
  }

  /** With some amount of fuel the source finds the call undefined. */
  ghost predicate Undefined(c: Call) { exists fuel: nat :: S.CallUser(c.g, c.f, c.vs, c.sp, c.s, fuel) == S.Undef }

  /** The call returns, after its loops have gone round at most k times in all. */
  ghost predicate ReturnsWithin(im: Image, c: Call, k: nat)
    requires c.g.p.tick.Some?
  {
    exists v, s' :: Answered(im, c.(v := v, s' := s')) && c.s.hist <= s'.hist
      && Guard.Rounds(c.g, s'.hist, |c.s.hist|) <= k
  }

  /** The runaway guard on the machine: when it answers 0 once it has been called n times,
      and no `continue` skips it, a call returns wherever in its loops and calls the guard
      runs out, unless the source leaves it undefined. */
  lemma GuardedReturns(im: Image, p: Prog, c: Call, n: nat)
    requires Implements(im, p) && Posed(im, p, c) && c.st.x[30] == PcOf(im, c.r)
    requires Guard.Budget(c.g, c.s.hist, n) && Guard.TameProg(p)
    ensures Undefined(c) || ReturnsWithin(im, c, Guard.Left(c.g, n, c.s.hist))
  {
    hide Rel, Did, S.CallUser, Guard.Budget, Guard.TameProg, Guard.Rounds;
    var fuel := n + Guard.Deep(c.g, c.sp);
    Guard.BudgetEnds(c.g, c.s.hist, n, c.f, c.vs, c.sp, c.s, fuel);
    var r := S.CallUser(c.g, c.f, c.vs, c.sp, c.s, fuel);
    if r.Ok? {
      var d := c.(fuel := fuel, v := r.v.0, s' := r.v.1);
      assert Asked(im, p, d);
      assert Answered(im, c.(v := d.v, s' := d.s'));
      Guard.RoundsBounded(c.g, c.s.hist, n, d.s'.hist);
    }
  }

  lemma WrittenShape(im: Image, p: Prog)
    requires Written(im, |p.funcs|, p)
    ensures |im.entry| == |im.tabs| == |p.funcs|
  {
    hide AllLie, Final, Grouped, AllEncodable, AllCode;
  }

  /** Compile a program into a fresh code buffer of `cap` words at address `base`.  When no
      error is reported, no fixup that mattered was dropped (none is when the tables suffice)
      and every frame fits the immediate of SUB, the machine running that buffer implements
      the program, its endless calls included. */
  method Compile(p: Prog, cap: nat, base: int, ghost mach: Machine)
      returns (ok: bool, words: seq<int>, entry: seq<int>, ghost im: Image)
    requires Parsed(p) && cap <= MAXWORDS && 0 <= base && base % 4 == 0 && base + 4 * cap < M64
    requires forall a :: a in mach.world.arity ==> 0 <= a < base
    ensures im.m == mach.(code := words, base := base) && im.entry == entry && |words| <= cap
    ensures ok <==> Accepted(p, |p.funcs|, cap)
    ensures ok ==> Written(im, |p.funcs|, p)
    ensures ok ==> |im.entry| == |im.tabs| == |p.funcs|
    ensures ok && NoneLost(im, p) && SmallFrames(p) ==> Implements(im, p) && Persists(im, p)
    ensures ok && FitsTables(p) ==> NoneLost(im, p)
  {
    hide Implements, Persists, NoneLost, FitsTables, Laid, Written, SmallFrames, NamedF, Accepted;
    var gen := new CodeGen(cap, |p.funcs|, p.tick);
    ghost var tabs;
    ok, entry, tabs := gen.Codegen(p, base, mach);
    words := gen.buf[..gen.pos];
    im := Image(mach.(code := words, base := base), entry, tabs);
    if ok {
      WrittenShape(im, p);
      if FitsTables(p) { FewLost(im, |p.funcs|, p); }
      if NoneLost(im, p) && SmallFrames(p) { WrittenImplements(im, p); }
    }
  }
}
