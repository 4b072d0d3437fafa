/** The relation between source stores and machine states, and what the short fixed
    instruction sequences do to it. */
module Sim {
  import opened Options
  import opened Word
  import opened Mem
  import opened Arm
  import opened Cpu
  import opened Ast
  import opened Emit
  import opened Loaded
  import S = Semantics

  /** The machine state st represents the store s with the stack pointer at sp: live
      bytes are present and outside the free stack [lo, sp), written ones are equal. */
  ghost predicate Rel(g: S.Env, s: S.Store, sp: int, st: State) {
    && 0 <= g.lo <= sp < M64 && sp % 16 == 0 && st.sp == sp && st.x[29] == g.fp
    && st.hist == s.hist
    && s.data.Keys <= s.alloc
    && (forall a :: a in s.alloc ==> a in st.mem && !(g.lo <= a < sp))
    && (forall a :: a in s.data ==> a in st.mem && st.mem[a] == s.data[a])
    && (forall a :: g.lo <= a < sp ==> a in st.mem)
  }

  /** Nothing outside the live objects and the free stack has changed. */
  ghost predicate Kept(m: Memory, m': Memory, alloc: set<int>, lo: int, sp: int) {
    && m.Keys == m'.Keys
    && forall a :: a in m && a !in alloc && !(lo <= a < sp) ==> m'[a] == m[a]
  }

  /** From (s, st) to (s', st'), arriving at word pos with the stack pointer restored. */
  ghost predicate Did(im: Image, g: S.Env, s: S.Store, s': S.Store, sp: int, st: State, st': State, pos: int) {
    && Reaches(im.m, st, st') && st'.pc == PcOf(im, pos)
    && Rel(g, s', sp, st') && s'.alloc == s.alloc && Kept(st.mem, st'.mem, s.alloc, g.lo, sp)
  }

  lemma DidTrans(im: Image, g: S.Env, s: S.Store, s1: S.Store, s2: S.Store, sp: int, st: State, st1: State,
      st2: State, p1: int, p2: int)
    requires Did(im, g, s, s1, sp, st, st1, p1) && Did(im, g, s1, s2, sp, st1, st2, p2)
    ensures Did(im, g, s, s2, sp, st, st2, p2)
  {
    ReachTrans(im.m, st, st1, st2);
  }

  lemma DidSelf(im: Image, g: S.Env, s: S.Store, sp: int, st: State, pos: int)
    requires Rel(g, s, sp, st) && st.pc == PcOf(im, pos)
    ensures Did(im, g, s, s, sp, st, st, pos)
  {
    ReachSelf(im.m, st);
  }

  /** Only registers other than x29, flags and the pc changed. */
  ghost predicate OnlyRegs(st: State, st': State) {
    st'.mem == st.mem && st'.sp == st.sp && st'.hist == st.hist && st'.x[29] == st.x[29]
  }

  lemma DidRegs(im: Image, g: S.Env, s: S.Store, sp: int, st: State, st': State, pos: int)
    requires Rel(g, s, sp, st) && OnlyRegs(st, st') && Reaches(im.m, st, st') && st'.pc == PcOf(im, pos)
    ensures Did(im, g, s, s, sp, st, st', pos)
  {
  }

  // ---------------------------------------------------------------- temporaries

  /** The slot a pushed value occupies. */
  ghost predicate Saved(st: State, a: int, v: u64) { Has(st.mem, a, 8) && Load8(st.mem, a) == v }

  lemma PushOk(im: Image, labs: map<int, int>, pos: int, items: seq<Item>, k: nat, g: S.Env, s: S.Store, sp: int,
      st: State) returns (st': State)
    requires Holding(im, labs, pos, items) && k < |items| && items[k] == I(Push) && st.pc == PcOf(im, pos + k)
    requires Rel(g, s, sp, st) && sp - 16 >= g.lo
    ensures Reaches(im.m, st, st') && st'.pc == PcOf(im, pos + k + 1) && st'.x == st.x
    ensures Rel(g, s, sp - 16, st') && Kept(st.mem, st'.mem, s.alloc, g.lo, sp)
    ensures Saved(st', sp - 16, st.x[0])
  {
    hide Reaches, Holding, Load8, Store8;
    var m := Store8(st.mem, sp - 16, st.x[0]);
    PushRel(g, s, sp, st, m);
    Aligns(sp);
    ExecPush(im.m, st);
    LoadStore(st.mem, sp - 16, st.x[0]);
    st' := Do(im, labs, pos, items, k, st);
  }

  lemma Aligns(sp: int)
    requires sp % 16 == 0
    ensures sp % 8 == 0 && (sp - 16) % 16 == 0 && (sp - 16) % 8 == 0
  {
  }

  lemma PushRel(g: S.Env, s: S.Store, sp: int, st: State, m: Memory)
    requires Rel(g, s, sp, st) && sp - 16 >= g.lo && m == Store8(st.mem, sp - 16, st.x[0])
    ensures forall st': State :: st'.mem == m && st'.sp == sp - 16 && st'.x == st.x && st'.hist == st.hist ==>
            Rel(g, s, sp - 16, st')
    ensures Kept(st.mem, m, s.alloc, g.lo, sp)
  {
  }

  lemma PopOk(im: Image, labs: map<int, int>, pos: int, items: seq<Item>, k: nat, g: S.Env, s: S.Store, sp: int,
      st: State, r: int, v: u64) returns (st': State)
    requires Holding(im, labs, pos, items) && k < |items| && items[k] == I(Pop(r)) && st.pc == PcOf(im, pos + k)
    requires 0 <= r < 29 && Rel(g, s, sp - 16, st) && sp < M64
    requires forall a :: sp - 16 <= a < sp ==> a !in s.alloc && a in st.mem
    requires Saved(st, sp - 16, v)
    ensures Reaches(im.m, st, st') && st' == st.(x := st.x[r := v], sp := sp, pc := PcOf(im, pos + k + 1))
    ensures Rel(g, s, sp, st')
  {
    hide Reaches, Holding, Load8;
    Aligns(sp - 16);
    ExecPop(im.m, st, r);
    PopRel(g, s, sp, st, r, v);
    st' := Do(im, labs, pos, items, k, st);
  }

  lemma PopRel(g: S.Env, s: S.Store, sp: int, st: State, r: int, v: u64)
    requires 0 <= r < 29 && Rel(g, s, sp - 16, st) && sp < M64
    requires forall a :: sp - 16 <= a < sp ==> a !in s.alloc && a in st.mem
    ensures Rel(g, s, sp, Next(st.(x := st.x[r := v], sp := sp)))
  {
  }

  /** A saved temporary survives anything evaluated below it. */
  lemma SlotKept(st: State, st': State, a: int, v: u64, alloc: set<int>, lo: int)
    requires Saved(st, a, v) && Kept(st.mem, st'.mem, alloc, lo, a)
    requires forall i :: a <= i < a + 8 ==> i !in alloc
    ensures Saved(st', a, v)
  {
    LoadAgree(st.mem, st'.mem, a);
  }

  // ---------------------------------------------------------------- loads and stores

  lemma LoadOk(im: Image, labs: map<int, int>, pos: int, ty: Ty, g: S.Env, s: S.Store, sp: int, st: State, a: u64,
      v: i64) returns (st': State)
    requires Holding(im, labs, pos, LoadSeq(ty)) && st.pc == PcOf(im, pos)
    requires Rel(g, s, sp, st) && st.x[0] == a && S.LoadAt(ty, a, s) == S.Ok(v)
    ensures Did(im, g, s, s, sp, st, st', pos + |LoadSeq(ty)|) && st'.x[0] == ToU(v)
  {
    hide Step, Decode, Encode;
    if ty.TArray? {
      SignRoundTrip(0, a);
      DidSelf(im, g, s, sp, st, pos);
      st' := st;
    } else if Size(ty) == 1 {
      st' := Do(im, labs, pos, LoadSeq(ty), 0, st);
      DidRegs(im, g, s, sp, st, st', pos + 1);
    } else {
      LoadAgree(st.mem, s.data, a);
      SignRoundTrip(0, Load8(s.data, a));
      hide Load8;
      st' := Do(im, labs, pos, LoadSeq(ty), 0, st);
      DidRegs(im, g, s, sp, st, st', pos + 1);
    }
  }

  /** Storing x(t) at the address in x(n). */
  lemma StoreByte(im: Image, labs: map<int, int>, pos: int, items: seq<Item>, k: nat, t: int, n: int, g: S.Env,
      s: S.Store, sp: int, st: State, v: i64) returns (st': State, s': S.Store)
    requires 0 <= t < 29 && 0 <= n < 29 && Holding(im, labs, pos, items) && k < |items|
    requires items[k] == I(Strb(t, n)) && st.pc == PcOf(im, pos + k)
    requires Rel(g, s, sp, st) && st.x[t] == ToU(v) && st.x[n] in s.alloc
    ensures s' == s.(data := s.data[st.x[n] := ToU(v) % 256])
    ensures Did(im, g, s, s', sp, st, st', pos + k + 1) && st'.x == st.x
  {
    hide Step, Decode, Encode;
    st' := Do(im, labs, pos, items, k, st);
    s' := s.(data := s.data[st.x[n] := ToU(v) % 256]);
  }

  lemma StoreWord(im: Image, labs: map<int, int>, pos: int, items: seq<Item>, k: nat, t: int, n: int, g: S.Env,
      s: S.Store, sp: int, st: State, v: i64) returns (st': State, s': S.Store)
    requires 0 <= t < 29 && 0 <= n < 29 && Holding(im, labs, pos, items) && k < |items|
    requires items[k] == I(Str(t, n)) && st.pc == PcOf(im, pos + k)
    requires Rel(g, s, sp, st) && st.x[t] == ToU(v) && st.x[n] % 8 == 0 && S.Range(st.x[n], 8) <= s.alloc
    ensures s' == s.(data := Store8(s.data, st.x[n], ToU(v)))
    ensures Did(im, g, s, s', sp, st, st', pos + k + 1) && st'.x == st.x
  {
    hide Step, Decode, Encode, ByteOf;
    var a: int := st.x[n];
    assert forall i :: a <= i < a + 8 ==> i in s.alloc by {
      forall i | a <= i < a + 8 ensures i in s.alloc { assert i in S.Range(a, 8); }
    }
    st' := Do(im, labs, pos, items, k, st);
    s' := s.(data := Store8(s.data, a, ToU(v)));
    assert st'.mem.Keys == st.mem.Keys;
  }

  lemma StoreOk(im: Image, labs: map<int, int>, pos: int, ty: Ty, t: int, n: int, items: seq<Item>, k: nat, g: S.Env,
      s: S.Store, sp: int, st: State, v: i64, s': S.Store) returns (st': State)
    requires 0 <= t < 29 && 0 <= n < 29 && Holding(im, labs, pos, items) && k < |items|
    requires items[k] == I(if Size(ty) == 1 then Strb(t, n) else Str(t, n)) && st.pc == PcOf(im, pos + k)
    requires Rel(g, s, sp, st) && st.x[t] == ToU(v) && S.StoreAt(ty, st.x[n], v, s) == S.Ok(s')
    ensures Did(im, g, s, s', sp, st, st', pos + k + 1) && st'.x == st.x
  {
    var s1;
    if Size(ty) == 1 {
      st', s1 := StoreByte(im, labs, pos, items, k, t, n, g, s, sp, st, v);
    } else {
      st', s1 := StoreWord(im, labs, pos, items, k, t, n, g, s, sp, st, v);
    }
  }

  // ---------------------------------------------------------------- operators

  lemma TruthPattern(b: bool)
    ensures ToU(S.Bool(b)) == if b then 1 else 0
  {
  }

  lemma ZeroPattern(v: i64)
    ensures ToU(v) == 0 <==> v == 0
  {
    SignRoundTrip(v, 0);
  }

  lemma ArithOk(op: Op, a: i64, b: i64)
    ensures op == Ast.Add ==> RAdd(ToU(a), ToU(b)) == ToU(S.Apply(op, a, b))
    ensures op == Ast.Sub ==> RSub(ToU(a), ToU(b)) == ToU(S.Apply(op, a, b))
    ensures op == Ast.Mul ==> RMul(ToU(a), ToU(b)) == ToU(S.Apply(op, a, b))
  {
    AddPatterns(a, b);
    MulPatterns(a, b);
    WrapPattern(a + b);
    WrapPattern(a - b);
    WrapPattern(a * b);
  }

  /** SDIV divides like C, and SDIV followed by MSUB takes the remainder like C. */
  lemma DivOk(a: i64, b: i64)
    ensures RSdiv(ToU(a), ToU(b)) == ToU(S.Apply(Ast.Div, a, b))
    ensures RMsub(ToU(a), RSdiv(ToU(a), ToU(b)), ToU(b)) == ToU(S.Apply(Ast.Mod, a, b))
    ensures Divided(a, b, S.Apply(Ast.Div, a, b), S.Apply(Ast.Mod, a, b))
    ensures var x := RSdiv(ToU(a), ToU(b)); Divided(a, b, ToS(x), ToS(RMsub(ToU(a), x, ToU(b))))
  {
    DividesRight(a, b);
    SignRoundTrip(S.Apply(Ast.Div, a, b), 0);
    SignRoundTrip(S.Apply(Ast.Mod, a, b), 0);
    DivPatterns(a, b);
  }

  /** Quotient and remainder truncate; the one quotient that does not fit wraps, and a divisor
      of 0 gives 0 and the dividend. */
  predicate Divided(a: i64, b: i64, q: i64, r: i64) {
    if b == 0 then q == 0 && r == a
    else if a == -M63 && b == -1 then q == -M63 && r == 0
    else Truncated(a, b, q, r)
  }

  lemma DividesRight(a: i64, b: i64)
    ensures Divided(a, b, S.Apply(Ast.Div, a, b), S.Apply(Ast.Mod, a, b))
  {
    if b == 0 {
    } else if a == -M63 && b == -1 {
      DivRem(a, b);
      TruncatedUnique(a, b, TruncDiv(a, b), TruncRem(a, b), M63, 0);
    } else {
      DivRem(a, b);
      QuotientBound(a, b, TruncDiv(a, b), TruncRem(a, b), M63);
      Fitting(TruncDiv(a, b));
      Fitting(TruncRem(a, b));
    }
  }

  lemma Fitting(v: int)
    requires -M63 <= v < M63
    ensures Wrap(v) == v
  {
  }

  lemma DivPatterns(a: i64, b: i64)
    ensures RSdiv(ToU(a), ToU(b)) == ToU(S.Apply(Ast.Div, a, b))
    ensures RMsub(ToU(a), RSdiv(ToU(a), ToU(b)), ToU(b)) == ToU(S.Apply(Ast.Mod, a, b))
  {
    SignRoundTrip(a, 0);
    SignRoundTrip(b, 0);
    if b == 0 {
    } else {
      var q := TruncDiv(a, b);
      WrapPattern(q);
      DivRem(a, b);
      MsubPatterns(a, q, b);
      WrapPattern(TruncRem(a, b));
    }
  }

  /** The word after a comparison: x0 becomes the truth of the condition. */
  lemma CompareOk(im: Image, labs: map<int, int>, pos: int, op: Op, c: Cond, a: i64, b: i64, st: State)
      returns (st': State)
    requires (op == Eq && c == EQ) || (op == Ne && c == NE) || (op == Lt && c == LT) || (op == Le && c == LE)
    requires Holding(im, labs, pos, OpSeq(op)) && st.pc == PcOf(im, pos) && st.x[0] == ToU(a) && st.x[1] == ToU(b)
    ensures Reaches(im.m, st, st') && OnlyRegs(st, st') && st'.pc == PcOf(im, pos + 2)
    ensures st'.x[0] == ToU(S.Apply(op, a, b))
  {
    hide Step, Decode, Encode, SubFlags;
    SignRoundTrip(a, 0);
    SignRoundTrip(b, 0);
    SignedOrder(ToU(a), ToU(b));
    var st1 := Do(im, labs, pos, OpSeq(op), 0, st);
    st' := Do(im, labs, pos, OpSeq(op), 1, st1);
    ReachTrans(im.m, st, st1, st');
    assert ToU(a) == ToU(b) <==> a == b;
    TruthPattern(Holds(st1.fl, c));
  }

  lemma OpOk(im: Image, labs: map<int, int>, pos: int, op: Op, a: i64, b: i64, st: State) returns (st': State)
    requires Holding(im, labs, pos, OpSeq(op)) && st.pc == PcOf(im, pos) && st.x[0] == ToU(a) && st.x[1] == ToU(b)
    ensures Reaches(im.m, st, st') && OnlyRegs(st, st') && st'.pc == PcOf(im, pos + |OpSeq(op)|)
    ensures st'.x[0] == ToU(S.Apply(op, a, b))
  {
    if op == Eq || op == Ne || op == Lt || op == Le {
      st' := CompareOk(im, labs, pos, op,
        if op == Eq then EQ else if op == Ne then NE else if op == Lt then LT else LE, a, b, st);
    } else if op == Ast.Mod {
      DivOk(a, b);
      hide Step, Decode, Encode, RSdiv, RMsub, S.Apply;
      var st1 := Do(im, labs, pos, OpSeq(op), 0, st);
      st' := Do(im, labs, pos, OpSeq(op), 1, st1);
      ReachTrans(im.m, st, st1, st');
    } else {
      ArithOk(op, a, b);
      DivOk(a, b);
      hide Step, Decode, Encode, RSdiv, RAdd, RSub, RMul, S.Apply;
      st' := Do(im, labs, pos, OpSeq(op), 0, st);
    }
  }

  lemma NegOk(im: Image, labs: map<int, int>, pos: int, a: i64, st: State) returns (st': State)
    requires Holding(im, labs, pos, [I(SubRRR(0, 31, 0))]) && st.pc == PcOf(im, pos) && st.x[0] == ToU(a)
    ensures Reaches(im.m, st, st') && OnlyRegs(st, st') && st'.pc == PcOf(im, pos + 1)
    ensures st'.x[0] == ToU(Wrap(0 - a))
  {
    hide Step, Decode, Encode;
    AddPatterns(0, a);
    WrapPattern(0 - a);
    st' := Do(im, labs, pos, [I(SubRRR(0, 31, 0))], 0, st);
  }

  lemma NotOk(im: Image, labs: map<int, int>, pos: int, a: i64, st: State) returns (st': State)
    requires Holding(im, labs, pos, [I(Cmp0(0)), I(Cset(0, EQ))]) && st.pc == PcOf(im, pos) && st.x[0] == ToU(a)
    ensures Reaches(im.m, st, st') && OnlyRegs(st, st') && st'.pc == PcOf(im, pos + 2)
    ensures st'.x[0] == ToU(S.Bool(a == 0))
  {
    hide Step, Decode, Encode, SubFlags;
    var items := [I(Cmp0(0)), I(Cset(0, EQ))];
    ZeroPattern(a);
    SignedOrder(ToU(a), 0);
    var st1 := Do(im, labs, pos, items, 0, st);
    st' := Do(im, labs, pos, items, 1, st1);
    ReachTrans(im.m, st, st1, st');
    TruthPattern(a == 0);
  }

  // ---------------------------------------------------------------- constants and calls

  lemma ConstOk(im: Image, labs: map<int, int>, pos: int, r: int, v: u64, g: S.Env, s: S.Store, sp: int, st: State)
      returns (st': State)
    requires 0 <= r < 29 && Holding(im, labs, pos, LoadImm(r, v)) && st.pc == PcOf(im, pos) && Rel(g, s, sp, st)
    ensures Did(im, g, s, s, sp, st, st', pos + 4) && st'.x == st.x[r := v]
  {
    st' := LoadImmOk(im, labs, pos, LoadImm(r, v), r, v, st);
    DidRegs(im, g, s, sp, st, st', pos + 4);
  }

  /** Builtins live outside the code buffer and their addresses fit a register. */
  ghost predicate BuiltinsOutside(im: Image) {
    forall a :: a in im.m.world.arity ==> 0 <= a < M64 && !InCode(im.m, a)
  }

  lemma SameView(d: Memory, m: Memory, r: set<int>)
    requires r <= d.Keys && forall a :: a in d ==> a in m && m[a] == d[a]
    ensures View(m, r) == View(d, r) && r <= m.Keys
  {
    forall a | a in r ensures a in m && m[a] == d[a] { assert a in d.Keys; }
  }

  /** What a builtin does to the store it does to the memory. */
  lemma BuiltinStep(m: Machine, a: int, vs: seq<i64>, g: S.Env, s: S.Store, sp: int, st: State, v: i64, s': S.Store)
      returns (st': State)
    requires Rel(g, s, sp, st) && m.world == g.w && |vs| <= 8 && (forall i :: 0 <= i < |vs| ==> st.x[i] == ToU(vs[i]))
    requires S.CallBuiltin(g.w, a, vs, s) == S.Ok((v, s'))
    ensures CallBuiltin(m, st, a) == Some(st') && st'.pc == st.pc && st'.x[0] == ToU(v)
    ensures Rel(g, s', sp, st') && s'.alloc == s.alloc && Kept(st.mem, st'.mem, s.alloc, g.lo, sp)
  {
    var n := g.w.arity[a];
    assert st.x[..n] == S.Patterns(vs)[..n];
    var r := g.w.sees(s'.hist);
    SameView(s.data, st.mem, r);
    SignRoundTrip(0, g.w.answer(s'.hist, View(s.data, r)));
    var out := g.w.puts(s'.hist, View(s.data, r));
    forall b | b in out ensures b in s.alloc && b in st.mem { assert b in out.Keys; }
    st' := CallBuiltin(m, st, a).value;
    assert st'.x[29] == st.x[29];
  }

  /** BLR x9 into a builtin: it reads its argument registers, returns in x0, and keeps the
      registers the procedure call standard protects. */
  lemma BuiltinOk(im: Image, labs: map<int, int>, pos: int, items: seq<Item>, k: nat, a: int, vs: seq<i64>, g: S.Env,
      s: S.Store, sp: int, st: State, v: i64, s': S.Store) returns (st': State)
    requires Holding(im, labs, pos, items) && k < |items| && items[k] == I(Blr(9)) && st.pc == PcOf(im, pos + k)
    requires Rel(g, s, sp, st) && im.m.world == g.w && BuiltinsOutside(im)
    requires st.x[9] == ToU(a) && |vs| <= 8 && (forall i :: 0 <= i < |vs| ==> st.x[i] == ToU(vs[i]))
    requires S.CallBuiltin(g.w, a, vs, s) == S.Ok((v, s'))
    ensures Did(im, g, s, s', sp, st, st', pos + k + 1) && st'.x[0] == ToU(v)
  {
    var st1 := BuiltinStep(im.m, a, vs, g, s, sp, st, v, s');
    assert ToU(a) == a && !InCode(im.m, a);
    hide Step, Decode, Encode, CallBuiltin, S.CallBuiltin, Kept, Reaches;
    st' := Do(im, labs, pos, items, k, st);
    assert st' == Next(st1);
  }

  /** BLR x9 into the code buffer. */
  lemma BranchLinkOk(im: Image, labs: map<int, int>, pos: int, items: seq<Item>, k: nat, st: State) returns (st': State)
    requires Holding(im, labs, pos, items) && k < |items| && items[k] == I(Blr(9)) && st.pc == PcOf(im, pos + k)
    requires InCode(im.m, st.x[9]) && 0 <= PcOf(im, pos + k + 1) < M64
    ensures Reaches(im.m, st, st') && st' == st.(x := st.x[30 := PcOf(im, pos + k + 1)], pc := st.x[9])
  {
    hide Reaches, Step, Decode, Encode, CallBuiltin;
    st' := Do(im, labs, pos, items, k, st);
  }
}
