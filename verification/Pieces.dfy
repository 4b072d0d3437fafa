/** The pieces of emitted code that contain no source sub-term. */
module Pieces {
  import opened Options
  import opened Word
  import opened Mem
  import opened Arm
  import opened Cpu
  import opened Ast
  import opened Emit
  import opened Loaded
  import opened Sim
  import opened Programs
  import S = Semantics

  lemma SlotFree(g: S.Env, s: S.Store, sp: int, st: State)
    requires Rel(g, s, sp, st) && sp - 16 >= g.lo
    ensures forall a :: sp - 16 <= a < sp ==> a !in s.alloc && a in st.mem
  {
  }

  /** Push x0 with nothing live in its slot. */
  lemma TempPush(c: Ctx, pos: int, items: seq<Item>, k: nat, s: S.Store, sp: int, st: State) returns (st': State)
    requires Holding(c.im, c.labs, pos, items) && k < |items| && items[k] == I(Push) && st.pc == PcOf(c.im, pos + k)
    requires Rel(c.g, s, sp, st) && sp - 16 >= c.g.lo
    ensures Reaches(c.im.m, st, st') && st'.pc == PcOf(c.im, pos + k + 1) && Rel(c.g, s, sp - 16, st')
    ensures Kept(st.mem, st'.mem, s.alloc, c.g.lo, sp) && Saved(st', sp - 16, st.x[0])
    ensures forall a :: sp - 16 <= a < sp ==> a !in s.alloc && a in st'.mem
  {
    hide Saved, Holding, Reaches;
    SlotFree(c.g, s, sp, st);
    st' := PushOk(c.im, c.labs, pos, items, k, c.g, s, sp, st);
  }

  /** Pop what TempPush saved, after a computation below it. */
  lemma TempPop(c: Ctx, pos: int, items: seq<Item>, k: nat, s: S.Store, s': S.Store, sp: int, st0: State, st: State,
      st1: State, r: int, v: u64) returns (st': State)
    requires Holding(c.im, c.labs, pos, items) && k < |items| && items[k] == I(Pop(r)) && 0 <= r < 29
    requires Reaches(c.im.m, st0, st) && Kept(st0.mem, st.mem, s.alloc, c.g.lo, sp) && Saved(st, sp - 16, v)
    requires forall a :: sp - 16 <= a < sp ==> a !in s.alloc && a in st.mem
    requires Did(c.im, c.g, s, s', sp - 16, st, st1, pos + k) && 0 <= c.g.lo <= sp - 16 && sp < M64
    ensures Did(c.im, c.g, s, s', sp, st0, st', pos + k + 1) && st'.x == st1.x[r := v]
  {
    SlotKept(st, st1, sp - 16, v, s.alloc, c.g.lo);
    hide Saved, Holding, Reaches;
    st' := PopOk(c.im, c.labs, pos, items, k, c.g, s', sp, st1, r, v);
    ReachTrans(c.im.m, st0, st, st1);
    ReachTrans(c.im.m, st0, st1, st');
  }

  lemma HoldingTwo(c: Ctx, pos: int, a: seq<Item>, b: seq<Item>, o: seq<Item>)
    requires Holding(c.im, c.labs, pos, a + [I(Push)] + b + [I(Pop(1))] + o)
    ensures Holding(c.im, c.labs, pos, a) && Holding(c.im, c.labs, pos + |a|, [I(Push)])
    ensures Holding(c.im, c.labs, pos + |a| + 1, b) && Holding(c.im, c.labs, pos + |a| + 1 + |b|, [I(Pop(1))])
    ensures Holding(c.im, c.labs, pos + |a| + 2 + |b|, o)
  {
    hide Holding, Reaches;
    HoldingParts(c.im, c.labs, pos, a + [I(Push)] + b + [I(Pop(1))], o);
    HoldingParts(c.im, c.labs, pos, a + [I(Push)] + b, [I(Pop(1))]);
    HoldingParts(c.im, c.labs, pos, a + [I(Push)], b);
    HoldingParts(c.im, c.labs, pos, a, [I(Push)]);
  }

  lemma DidParts(im: Image, g: S.Env, s: S.Store, s': S.Store, sp: int, st: State, st': State, pos: int)
    requires Did(im, g, s, s', sp, st, st', pos)
    ensures Rel(g, s', sp, st') && st'.pc == PcOf(im, pos) && s'.alloc == s.alloc
  {
  }

  lemma RelBounds(g: S.Env, s: S.Store, sp: int, st: State)
    requires Rel(g, s, sp, st)
    ensures 0 <= g.lo <= sp < M64 && sp % 16 == 0 && st.x[29] == g.fp
  {
  }

  lemma MemberOk(c: Ctx, pos: int, off: nat, sp: int, s: S.Store, st: State) returns (st': State)
    requires off <= 0xFFF && Rel(c.g, s, sp, st) && st.pc == PcOf(c.im, pos)
    requires Holding(c.im, c.labs, pos, if off != 0 then [I(AddImm(0, 0, off % 0x1000))] else [])
    ensures Did(c.im, c.g, s, s, sp, st, st', pos + if off != 0 then 1 else 0) && st'.x[0] == ToU(st.x[0] + off)
  {
    hide Reaches;
    if off != 0 {
      st' := Do(c.im, c.labs, pos, [I(AddImm(0, 0, off % 0x1000))], 0, st);
      DidRegs(c.im, c.g, s, sp, st, st', pos + 1);
    } else {
      DidSelf(c.im, c.g, s, sp, st, pos);
      st' := st;
    }
  }

  /** x(r) := x29 - o, by either form. */
  lemma LocalOk(c: Ctx, r: int, o: nat, pos: int, items: seq<Item>, sp: int, s: S.Store, st: State) returns (st': State)
    requires 0 <= r < 29
    requires items == if o <= 0xFFF then [I(SubImm(r, 29, o))] else LoadImm(9, ToU(o)) + [I(SubRRR(r, 29, 9))]
    requires Holding(c.im, c.labs, pos, items) && Rel(c.g, s, sp, st) && st.pc == PcOf(c.im, pos)
    ensures Did(c.im, c.g, s, s, sp, st, st', pos + |items|) && st'.x[r] == ToU(c.g.fp - o)
    ensures forall i :: 0 <= i < 9 && i != r ==> st'.x[i] == st.x[i]
  {
    hide Reaches;
    if o <= 0xFFF {
      st' := Do(c.im, c.labs, pos, items, 0, st);
      DidRegs(c.im, c.g, s, sp, st, st', pos + 1);
    } else {
      HoldingParts(c.im, c.labs, pos, LoadImm(9, ToU(o)), [I(SubRRR(r, 29, 9))]);
      var st1 := ConstOk(c.im, c.labs, pos, 9, ToU(o), c.g, s, sp, st);
      st' := Do(c.im, c.labs, pos + 4, [I(SubRRR(r, 29, 9))], 0, st1);
      AddPatterns(c.g.fp, o);
      assert ToU(c.g.fp) == c.g.fp;
      DidRegs(c.im, c.g, s, sp, st1, st', pos + 5);
      DidTrans(c.im, c.g, s, s, s, sp, st, st1, st', pos + 4, pos + 5);
    }
  }

  lemma JumpDid(c: Ctx, pos: int, items: seq<Item>, k: nat, s: S.Store, sp: int, st: State) returns (st': State)
    requires Holding(c.im, c.labs, pos, items) && k < |items| && items[k].J? && items[k].lab in c.labs
    requires Rel(c.g, s, sp, st) && st.pc == PcOf(c.im, pos + k)
    ensures Did(c.im, c.g, s, s, sp, st, st', if Taken(items[k].j, st) then c.labs[items[k].lab] else pos + k + 1)
    ensures st'.x == st.x
  {
    hide Reaches;
    st' := DoJump(c.im, c.labs, pos, items, k, st);
    DidRegs(c.im, c.g, s, sp, st, st', if Taken(items[k].j, st) then c.labs[items[k].lab] else pos + k + 1);
  }

  lemma MovzDid(c: Ctx, pos: int, items: seq<Item>, k: nat, v: int, s: S.Store, sp: int, st: State) returns (st': State)
    requires Holding(c.im, c.labs, pos, items) && k < |items| && items[k] == I(Movz(0, v)) && 0 <= v <= 1
    requires Rel(c.g, s, sp, st) && st.pc == PcOf(c.im, pos + k)
    ensures Did(c.im, c.g, s, s, sp, st, st', pos + k + 1) && st'.x[0] == v
  {
    hide Reaches;
    st' := Do(c.im, c.labs, pos, items, k, st);
    DidRegs(c.im, c.g, s, sp, st, st', pos + k + 1);
  }

  /** The ends of the code of && and ||: branch on x0, produce `fall` and jump over, or
      produce `far` at the first label. */
  function TruthTail(j: Jump, l: int, fall: int, far: int): seq<Item> {
    [J(j, l), I(Movz(0, fall)), J(JB, l + 1), I(Movz(0, far))]
  }

  lemma TailOk(c: Ctx, pos: int, j: Jump, l: int, fall: int, far: int, s: S.Store, sp: int, st: State)
      returns (st': State)
    requires Holding(c.im, c.labs, pos, TruthTail(j, l, fall, far)) && 0 <= fall <= 1 && 0 <= far <= 1
    requires LabelAt(c.labs, l, pos + 3) && LabelAt(c.labs, l + 1, pos + 4)
    requires Rel(c.g, s, sp, st) && (st.pc == PcOf(c.im, pos) || st.pc == PcOf(c.im, pos + 3))
    ensures Did(c.im, c.g, s, s, sp, st, st', pos + 4)
    ensures st'.x[0] == if st.pc == PcOf(c.im, pos + 3) || Taken(j, st) then far else fall
  {
    hide Reaches, Rel, Kept, Holding;
    var items := TruthTail(j, l, fall, far);
    if st.pc == PcOf(c.im, pos + 3) {
      st' := MovzDid(c, pos, items, 3, far, s, sp, st);
    } else {
      var st1 := JumpDid(c, pos, items, 0, s, sp, st);
      if Taken(j, st) {
        st' := MovzDid(c, pos, items, 3, far, s, sp, st1);
        DidTrans(c.im, c.g, s, s, s, sp, st, st1, st', pos + 3, pos + 4);
      } else {
        var st2 := MovzDid(c, pos, items, 1, fall, s, sp, st1);
        st' := JumpDid(c, pos, items, 2, s, sp, st2);
        DidTrans(c.im, c.g, s, s, s, sp, st, st1, st2, pos + 1, pos + 2);
        DidTrans(c.im, c.g, s, s, s, sp, st, st2, st', pos + 2, pos + 4);
      }
    }
  }

  /** The branch after the left operand: the label sits three words into the tail. */
  function FirstBranch(e: Expr, l: int): seq<Item>
    requires e.And? || e.Or?
  {
    if e.And? then [J(JCbz, l)] else [I(Cmp0(0)), J(JCbnz, l)]
  }

  function LogicTail(e: Expr, l: int): seq<Item>
    requires e.And? || e.Or?
  {
    if e.And? then TruthTail(JCbz, l, 1, 0) else TruthTail(JCbnz, l, 0, 1)
  }

  lemma FirstBranchOk(c: Ctx, e: Expr, l: int, pos: int, far: int, v: i64, s: S.Store, sp: int, st: State)
      returns (st': State)
    requires e.And? || e.Or?
    requires Holding(c.im, c.labs, pos, FirstBranch(e, l)) && LabelAt(c.labs, l, far)
    requires Rel(c.g, s, sp, st) && st.pc == PcOf(c.im, pos) && st.x[0] == ToU(v)
    ensures Did(c.im, c.g, s, s, sp, st, st', if (v == 0) == e.And? then far else pos + |FirstBranch(e, l)|)
  {
    hide Reaches, Kept, Holding;
    ZeroPattern(v);
    var items := FirstBranch(e, l);
    if e.And? {
      st' := JumpDid(c, pos, items, 0, s, sp, st);
    } else {
      var st1 := Do(c.im, c.labs, pos, items, 0, st);
      DidRegs(c.im, c.g, s, sp, st, st1, pos + 1);
      st' := JumpDid(c, pos, items, 1, s, sp, st1);
      DidTrans(c.im, c.g, s, s, s, sp, st, st1, st', pos + 1, if v != 0 then far else pos + 2);
    }
  }

  /** n values saved in the slots below sp. */
  ghost predicate Stacked(st: State, sp: int, vs: seq<i64>) {
    forall i :: 0 <= i < |vs| ==> Saved(st, sp - 16 * i - 16, ToU(vs[i]))
  }

  lemma {:induction false} PopsOk(c: Ctx, pos: int, n: nat, vs: seq<i64>, s: S.Store, sp: int, st: State)
      returns (st': State)
    requires n <= |vs| <= 8 && Holding(c.im, c.labs, pos, PopSeq(n)) && st.pc == PcOf(c.im, pos)
    requires Rel(c.g, s, sp - 16 * n, st) && sp < M64 && Stacked(st, sp, vs)
    requires forall a :: sp - 16 * n <= a < sp ==> a !in s.alloc && a in st.mem
    ensures Reaches(c.im.m, st, st') && st'.pc == PcOf(c.im, pos + |PopSeq(n)|)
    ensures Rel(c.g, s, sp, st') && st'.mem == st.mem
    ensures forall i :: 0 <= i < n ==> st'.x[i] == ToU(vs[i])
    ensures forall i :: n <= i < 29 ==> st'.x[i] == st.x[i]
    decreases n
  {
    hide Reaches, Holding, Saved;
    if n == 0 {
      ReachSelf(c.im.m, st);
      st' := st;
    } else {
      HoldingParts(c.im, c.labs, pos, [I(Pop(n - 1))], PopSeq(n - 1));
      assert Saved(st, sp - 16 * (n - 1) - 16, ToU(vs[n - 1]));
      var st1 := PopOk(c.im, c.labs, pos, [I(Pop(n - 1))], 0, c.g, s, sp - 16 * n + 16, st, n - 1, ToU(vs[n - 1]));
      assert Stacked(st1, sp, vs) by {
        assert st1.mem == st.mem;
        SavedSame(st, st1, sp, vs);
      }
      st' := PopsOk(c, pos + 1, n - 1, vs, s, sp, st1);
      ReachTrans(c.im.m, st, st1, st');
    }
  }

  lemma SavedSame(st: State, st1: State, sp: int, vs: seq<i64>)
    requires Stacked(st, sp, vs) && st1.mem == st.mem
    ensures Stacked(st1, sp, vs)
  {
    forall i | 0 <= i < |vs| ensures Saved(st1, sp - 16 * i - 16, ToU(vs[i])) {
      assert Saved(st, sp - 16 * i - 16, ToU(vs[i]));
    }
  }

  lemma StackMore(st: State, sp: int, vs: seq<i64>)
    requires |vs| > 0 && Saved(st, sp - 16, ToU(vs[0])) && Stacked(st, sp - 16, vs[1..])
    ensures Stacked(st, sp, vs)
  {
    hide Saved;
    forall i | 0 <= i < |vs| ensures Saved(st, sp - 16 * i - 16, ToU(vs[i])) {
      if i > 0 { assert Saved(st, sp - 16 - 16 * (i - 1) - 16, ToU(vs[1..][i - 1])); }
    }
  }

  lemma CallBuiltinOk(c: Ctx, a: int, pos: int, vs: seq<i64>, sp: int, s: S.Store, st: State, v: i64, s': S.Store)
      returns (st': State)
    requires Good(c.im, c.g) && Holding(c.im, c.labs, pos, CallSeq(Builtin(a)))
    requires Rel(c.g, s, sp, st) && st.pc == PcOf(c.im, pos)
    requires |vs| <= 8 && (forall i :: 0 <= i < |vs| ==> st.x[i] == ToU(vs[i]))
    requires S.CallBuiltin(c.g.w, a, vs, s) == S.Ok((v, s'))
    ensures Did(c.im, c.g, s, s', sp, st, st', pos + |CallSeq(Builtin(a))|) && st'.x[0] == ToU(v)
  {
    assert BuiltinsOutside(c.im) && c.im.m.world == c.g.w;
    hide Reaches, Holding, Good, Kept, S.CallBuiltin;
    HoldingParts(c.im, c.labs, pos, LoadImm(9, ToU(a)), [I(Blr(9))]);
    var st1 := ConstOk(c.im, c.labs, pos, 9, ToU(a), c.g, s, sp, st);
    st' := BuiltinOk(c.im, c.labs, pos + 4, [I(Blr(9))], 0, a, vs, c.g, s, sp, st1, v, s');
    DidTrans(c.im, c.g, s, s, s', sp, st, st1, st', pos + 4, pos + 5);
  }

  /** BLR to a patched entry address: lands on the entry with the return address in x30. */
  lemma JumpToUser(c: Ctx, f: nat, pos: int, vs: seq<i64>, sp: int, s: S.Store, st: State) returns (st': State)
    requires Good(c.im, c.g) && f < |c.g.p.funcs| && Holding(c.im, c.labs, pos, CallSeq(User(f)))
    requires Rel(c.g, s, sp, st) && st.pc == PcOf(c.im, pos)
    requires |vs| <= 8 && (forall i :: 0 <= i < |vs| ==> st.x[i] == ToU(vs[i]))
    ensures f < |c.im.entry| && Did(c.im, c.g, s, s, sp, st, st', c.im.entry[f])
            && st'.x[30] == PcOf(c.im, pos + |CallSeq(User(f))|)
    ensures forall i :: 0 <= i < |vs| ==> st'.x[i] == ToU(vs[i])
  {
    hide Reaches, Holding, Good, Rel, Kept;
    EntryInCode(c.im, c.g, f);
    var items := CallSeq(User(f));
    SiteInCode(c.im, c.labs, pos, items, 4);
    var adr := PcOf(c.im, c.im.entry[f]);
    var st1 := LoadImmOk(c.im, c.labs, pos, items, 9, ToU(adr), st);
    DidRegs(c.im, c.g, s, sp, st, st1, pos + 4);
    st' := BranchLinkOk(c.im, c.labs, pos, items, 4, st1);
    DidRegs(c.im, c.g, s, sp, st1, st', c.im.entry[f]);
    DidTrans(c.im, c.g, s, s, s, sp, st, st1, st', pos + 4, c.im.entry[f]);
  }

  lemma SiteInCode(im: Image, labs: map<int, int>, pos: int, items: seq<Item>, k: nat)
    requires Holding(im, labs, pos, items) && k < |items|
    ensures 0 <= pos + k < |im.m.code|
  {
    assert Patched(im, labs, items[k], pos + k);
  }

  lemma EntryInCode(im: Image, g: S.Env, f: nat)
    requires Good(im, g) && f < |g.p.funcs|
    ensures |im.entry| == |g.p.funcs| && 0 <= im.m.base && im.m.base + 4 * |im.m.code| < M64
    ensures 0 <= im.entry[f] < |im.m.code| && InCode(im.m, PcOf(im, im.entry[f]))
  {
    var code := FCode(g.p, g.p.funcs[f]);
    assert FuncLoaded(im, g.p, f);
    assert code[0] == I(StpFrame);
    assert Patched(im, im.tabs[f], code[0], im.entry[f] + 0);
  }

  lemma SaveRecord(im: Image, labs: map<int, int>, pos: int, items: seq<Item>, sp: int, st: State) returns (st': State)
    requires Holding(im, labs, pos, items) && |items| >= 2 && items[0] == I(StpFrame)
             && items[1] == I(AddImm(29, 31, 0))
    requires st.pc == PcOf(im, pos) && st.sp == sp && sp % 16 == 0
    requires 16 <= sp < M64 && Has(st.mem, sp - 16, 8) && Has(st.mem, sp - 8, 8)
    ensures Reaches(im.m, st, st')
    ensures st' == st.(x := st.x[29 := sp - 16], sp := sp - 16, pc := PcOf(im, pos + 2),
                       mem := Store8(Store8(st.mem, sp - 16, st.x[29]), sp - 8, st.x[30]))
  {
    hide Reaches, Step, Decode, Encode, Store8;
    var st1 := Do(im, labs, pos, items, 0, st);
    st' := Do(im, labs, pos, items, 1, st1);
    ReachTrans(im.m, st, st1, st');
  }

  lemma PrologueRun(im: Image, labs: map<int, int>, pos: int, frame: nat, sp: int, st: State) returns (st': State)
    requires Holding(im, labs, pos, Prologue(frame)) && st.pc == PcOf(im, pos) && st.sp == sp && sp % 16 == 0
    requires frame <= 0xFFF && frame <= sp - 16 && sp < M64 && Has(st.mem, sp - 16, 8) && Has(st.mem, sp - 8, 8)
    ensures Reaches(im.m, st, st') && st'.pc == PcOf(im, pos + |Prologue(frame)|)
    ensures st' == st.(x := st.x[29 := sp - 16], sp := sp - 16 - frame, pc := st'.pc,
                       mem := Store8(Store8(st.mem, sp - 16, st.x[29]), sp - 8, st.x[30]))
  {
    hide Reaches, Step, Decode, Encode, Store8;
    var items := Prologue(frame);
    var st2 := SaveRecord(im, labs, pos, items, sp, st);
    st' := st2;
    if frame != 0 {
      st' := Do(im, labs, pos, items, 2, st2);
      ReachTrans(im.m, st, st2, st');
    }
  }

  lemma FrameRel(g: S.Env, g1: S.Env, s: S.Store, sp: int, frame: nat, st: State, st': State)
    requires Rel(g, s, sp, st) && frame % 16 == 0 && sp - 16 - frame >= g.lo && g1.fp == sp - 16 && g1.lo == g.lo
    requires st'.sp == sp - 16 - frame && st'.x[29] == sp - 16 && st'.hist == st.hist && st'.mem.Keys == st.mem.Keys
    requires forall i :: i in st.mem && !(sp - 16 <= i < sp) ==> st'.mem[i] == st.mem[i]
    ensures Rel(g1, S.OpenFrame(s, sp - 16 - frame, frame), sp - 16 - frame, st')
    ensures Kept(st.mem, st'.mem, s.alloc, g.lo, sp)
  {
  }

  /** Save the frame record, point x29 at it, make room for the locals. */
  lemma PrologueOk(im: Image, labs: map<int, int>, pos: int, frame: nat, g: S.Env, g1: S.Env, s: S.Store, sp: int,
      st: State) returns (st': State)
    requires Holding(im, labs, pos, Prologue(frame)) && st.pc == PcOf(im, pos) && Rel(g, s, sp, st)
    requires frame <= 0xFFF && frame % 16 == 0 && sp - 16 - frame >= g.lo && g1.fp == sp - 16 && g1.lo == g.lo
    ensures Reaches(im.m, st, st') && st'.pc == PcOf(im, pos + |Prologue(frame)|)
    ensures Rel(g1, S.OpenFrame(s, sp - 16 - frame, frame), sp - 16 - frame, st')
    ensures Saved(st', sp - 16, st.x[29]) && Saved(st', sp - 8, st.x[30])
    ensures Kept(st.mem, st'.mem, s.alloc, g.lo, sp) && (forall i :: 0 <= i < 9 ==> st'.x[i] == st.x[i])
  {
    TwoStores(st.mem, sp - 16, st.x[29], st.x[30]);
    hide Reaches, Load8, Store8, Prologue, Holding, S.OpenFrame;
    st' := PrologueRun(im, labs, pos, frame, sp, st);
    FrameRel(g, g1, s, sp, frame, st, st');
  }

  lemma TwoStores(m: Memory, a: int, v: u64, w: u64)
    requires Has(m, a, 16)
    ensures var m' := Store8(Store8(m, a, v), a + 8, w);
            && Has(m', a, 8) && Load8(m', a) == v && Has(m', a + 8, 8) && Load8(m', a + 8) == w
            && m'.Keys == m.Keys
            && forall i :: i in m && !(a <= i < a + 16) ==> m'[i] == m[i]
  {
    var m1 := Store8(m, a, v);
    LoadStore(m, a, v);
    LoadStore(m1, a + 8, w);
    LoadAgree(m1, Store8(m1, a + 8, w), a);
  }

  lemma EpilogueRun(im: Image, labs: map<int, int>, pos: int, fp: int, a: u64, r: u64, st: State) returns (st': State)
    requires Holding(im, labs, pos, Epilogue()) && st.pc == PcOf(im, pos) && st.x[29] == fp && fp % 16 == 0
    requires Saved(st, fp, a) && Saved(st, fp + 8, r)
    ensures Reaches(im.m, st, st')
    ensures st' == st.(x := st.x[29 := a][30 := r], sp := fp + 16, pc := r)
  {
    hide Reaches, Step, Decode, Encode, Load8, Holding;
    var st2 := RestoreRecord(im, labs, pos, fp, a, r, st);
    st' := Do(im, labs, pos, Epilogue(), 2, st2);
    ReachTrans(im.m, st, st2, st');
  }

  lemma ExecDrop(m: Machine, st: State, fp: int)
    requires st.x[29] == fp
    ensures Exec(m, AddImm(31, 29, 0), st) == Some(st.(sp := fp, pc := st.pc + 4))
  {
  }

  lemma ExecLdp(m: Machine, st: State, a: u64, r: u64)
    requires st.sp % 16 == 0 && Saved(st, st.sp, a) && Saved(st, st.sp + 8, r)
    ensures Exec(m, LdpFrame, st) == Some(st.(x := st.x[29 := a][30 := r], sp := st.sp + 16, pc := st.pc + 4))
  {
    hide Load8, Has;
    Sixteenth(st.sp);
    assert CanAccess(st, st.sp) && CanAccess(st, st.sp + 8);
  }

  lemma Sixteenth(a: int)
    requires a % 16 == 0
    ensures a % 8 == 0 && (a + 8) % 8 == 0
  {
  }

  lemma RestoreRecord(im: Image, labs: map<int, int>, pos: int, fp: int, a: u64, r: u64, st: State) returns (st': State)
    requires Holding(im, labs, pos, Epilogue()) && st.pc == PcOf(im, pos) && st.x[29] == fp && fp % 16 == 0
    requires Saved(st, fp, a) && Saved(st, fp + 8, r)
    ensures Reaches(im.m, st, st')
    ensures st' == st.(x := st.x[29 := a][30 := r], sp := fp + 16, pc := PcOf(im, pos + 2))
  {
    hide Reaches, Step, Decode, Encode, Load8, Holding, Exec;
    ExecDrop(im.m, st, fp);
    var st1 := Do(im, labs, pos, Epilogue(), 0, st);
    ExecLdp(im.m, st1, a, r);
    st' := Do(im, labs, pos, Epilogue(), 1, st1);
    ReachTrans(im.m, st, st1, st');
  }

  /** With the frame closed the caller's store is represented again. */
  lemma ClosedRel(g: S.Env, g1: S.Env, s: S.Store, s2: S.Store, sp: int, frame: nat, st0: State, st: State, st': State)
    requires Rel(g, s, sp, st0) && st0.mem.Keys == st.mem.Keys
    requires Rel(g1, s2, sp - 16 - frame, st) && g1.fp == sp - 16 && g1.lo == g.lo
    requires s2.alloc == s.alloc + S.Range(sp - 16 - frame, frame)
    requires st'.mem == st.mem && st'.hist == st.hist && st'.sp == sp && st'.x[29] == g.fp
    ensures Rel(g, S.CloseFrame(s2, sp - 16 - frame, frame), sp, st')
    ensures S.CloseFrame(s2, sp - 16 - frame, frame).alloc == s.alloc
  {
  }

  /** Drop the locals, restore the frame record, return. */
  lemma EpilogueOk(im: Image, labs: map<int, int>, pos: int, frame: nat, g: S.Env, g1: S.Env, s: S.Store, s2: S.Store,
      sp: int, st0: State, st: State, r: u64) returns (st': State)
    requires Holding(im, labs, pos, Epilogue()) && st.pc == PcOf(im, pos)
    requires Rel(g, s, sp, st0) && st0.mem.Keys == st.mem.Keys && 0 <= g.fp < M64
    requires Rel(g1, s2, sp - 16 - frame, st) && g1.fp == sp - 16 && g1.lo == g.lo
    requires s2.alloc == s.alloc + S.Range(sp - 16 - frame, frame)
    requires Saved(st, sp - 16, g.fp) && Saved(st, sp - 8, r)
    ensures Reaches(im.m, st, st') && st'.pc == r && st'.x[0] == st.x[0] && st'.mem == st.mem
    ensures Rel(g, S.CloseFrame(s2, sp - 16 - frame, frame), sp, st')
    ensures S.CloseFrame(s2, sp - 16 - frame, frame).alloc == s.alloc
  {
    hide Reaches, Load8, Epilogue, Holding, Rel, S.CloseFrame, Saved;
    RelBounds(g, s, sp, st0);
    RelBounds(g1, s2, sp - 16 - frame, st);
    st' := EpilogueRun(im, labs, pos, sp - 16, g.fp, r, st);
    ClosedRel(g, g1, s, s2, sp, frame, st0, st, st');
  }

  /** Each incoming argument register goes to its parameter's slot. */
  lemma SpillOk(c: Ctx, fn: Func, k: nat, vs: seq<i64>, pos: int, sp: int, s: S.Store, st: State, s': S.Store)
      returns (st': State)
    requires Holding(c.im, c.labs, pos, SpillCode(fn, c.g.offs, k)) && st.pc == PcOf(c.im, pos) && Rel(c.g, s, sp, st)
    requires |vs| <= 8 && (forall i :: 0 <= i < |vs| ==> st.x[i] == ToU(vs[i])) && |fn.params| <= 8
    requires S.StoreParams(fn, c.g.offs, c.g.fp, vs, k, s) == S.Ok(s')
    ensures Did(c.im, c.g, s, s', sp, st, st', pos + |SpillCode(fn, c.g.offs, k)|)
    decreases |fn.params| - k
  {
    hide Reaches, Holding, Kept, S.StoreAt;
    if k >= |fn.params| {
      DidSelf(c.im, c.g, s, sp, st, pos);
      st' := st;
    } else {
      var o := c.g.offs[fn.params[k]];
      var ty := fn.locals[fn.params[k]];
      var adr := if o <= 0xFFF then [I(SubImm(9, 29, o))] else LoadImm(9, ToU(o)) + [I(SubRRR(9, 29, 9))];
      var put := [I(if Size(ty) == 1 then Strb(k, 9) else Str(k, 9))];
      var rest := SpillCode(fn, c.g.offs, k + 1);
      HoldingParts(c.im, c.labs, pos, adr + put, rest);
      HoldingParts(c.im, c.labs, pos, adr, put);
      var s1 := S.StoreAt(ty, ToU(c.g.fp - o), vs[k], s).v;
      var st1 := LocalOk(c, 9, o, pos, adr, sp, s, st);
      var st2 := StoreOk(c.im, c.labs, pos + |adr|, ty, k, 9, put, 0, c.g, s, sp, st1, vs[k], s1);
      st' := SpillOk(c, fn, k + 1, vs, pos + |adr| + 1, sp, s1, st2, s');
      DidTrans(c.im, c.g, s, s, s1, sp, st, st1, st2, pos + |adr|, pos + |adr| + 1);
      DidTrans(c.im, c.g, s, s1, s', sp, st, st2, st', pos + |adr| + 1, pos + |adr| + 1 + |rest|);
    }
  }

  // ---------------------------------------------------------------- guards and dispatch

  /** The guard at a back edge: fall through while it answers non-zero, else leave. */
  lemma TickOk(c: Ctx, exit: int, pos: int, sp: int, s: S.Store, st: State, more: bool, s': S.Store)
      returns (st': State)
    requires Good(c.im, c.g) && Holding(c.im, c.labs, pos, TickCode(c.g.p.tick, exit)) && exit in c.labs
    requires Rel(c.g, s, sp, st) && st.pc == PcOf(c.im, pos) && S.Tick(c.g, s) == S.Ok((more, s'))
    ensures Did(c.im, c.g, s, s', sp, st, st', if more then pos + |TickCode(c.g.p.tick, exit)| else c.labs[exit])
  {
    hide Reaches, Holding, Good, Kept, S.CallBuiltin;
    match c.g.p.tick
    case None =>
      DidSelf(c.im, c.g, s, sp, st, pos);
      st' := st;
    case Some(a) =>
      var call := CallSeq(Builtin(a));
      assert TickCode(c.g.p.tick, exit) == call + [J(JCbz, exit)];
      HoldingParts(c.im, c.labs, pos, call, [J(JCbz, exit)]);
      var v := S.CallBuiltin(c.g.w, a, [], s).v.0;
      var st1 := CallBuiltinOk(c, a, pos, [], sp, s, st, v, s');
      ZeroPattern(v);
      st' := JumpDid(c, pos + 5, [J(JCbz, exit)], 0, s', sp, st1);
      DidTrans(c.im, c.g, s, s', s', sp, st, st1, st', pos + 5, if more then pos + 6 else c.labs[exit]);
  }

  lemma SameValue(v: i64, n: int)
    ensures SubFlags(ToU(v), ToU(n)).z <==> v == Wrap(n)
  {
    WrapPattern(n);
    SignRoundTrip(v, 0);
    SignRoundTrip(Wrap(n), 0);
    SignedOrder(ToU(v), ToU(n));
  }

  /** One comparison of a switch. */
  lemma CompareCase(c: Ctx, n: int, lab: int, pos: int, sp: int, s: S.Store, st: State, v: i64) returns (st': State)
    requires Holding(c.im, c.labs, pos, LoadImm(1, ToU(n)) + [I(CmpRR(0, 1)), J(JCond(EQ), lab)]) && lab in c.labs
    requires Rel(c.g, s, sp, st) && st.pc == PcOf(c.im, pos) && st.x[0] == ToU(v)
    ensures Did(c.im, c.g, s, s, sp, st, st', if v == Wrap(n) then c.labs[lab] else pos + 6) && st'.x[0] == ToU(v)
  {
    SameValue(v, n);
    hide Reaches, Holding, Kept, SubFlags, Wrap, ToU, LoadImm;
    var tail := [I(CmpRR(0, 1)), J(JCond(EQ), lab)];
    assert |LoadImm(1, ToU(n))| == 4 by { LoadImmLength(1, ToU(n)); }
    HoldingParts(c.im, c.labs, pos, LoadImm(1, ToU(n)), tail);
    var st1 := ConstOk(c.im, c.labs, pos, 1, ToU(n), c.g, s, sp, st);
    var st2 := CompareStep(c, pos + 4, tail, s, sp, st1);
    st' := JumpDid(c, pos + 4, tail, 1, s, sp, st2);
    DidTrans(c.im, c.g, s, s, s, sp, st, st1, st2, pos + 4, pos + 5);
    DidTrans(c.im, c.g, s, s, s, sp, st, st2, st', pos + 5, if v == Wrap(n) then c.labs[lab] else pos + 6);
  }

  lemma LoadImmLength(r: int, v: u64)
    ensures |LoadImm(r, v)| == 4
  {
  }

  lemma CompareStep(c: Ctx, pos: int, items: seq<Item>, s: S.Store, sp: int, st: State) returns (st': State)
    requires Holding(c.im, c.labs, pos, items) && |items| > 0 && items[0] == I(CmpRR(0, 1))
    requires Rel(c.g, s, sp, st) && st.pc == PcOf(c.im, pos)
    ensures Did(c.im, c.g, s, s, sp, st, st', pos + 1) && st'.x == st.x && st'.fl == SubFlags(st.x[0], st.x[1])
  {
    hide Reaches, SubFlags;
    st' := Do(c.im, c.labs, pos, items, 0, st);
    DidRegs(c.im, c.g, s, sp, st, st', pos + 1);
  }

  /** No case label lies before pos. */
  ghost predicate PlacedFrom(labs: map<int, int>, first: int, n: int, pos: int) {
    forall j :: first - n < j <= first && j in labs ==> pos <= labs[j]
  }

  /** The n labels first, first - 1, ... all have places. */
  ghost predicate AllPlaced(labs: map<int, int>, first: int, n: int) {
    forall j :: first - n < j <= first ==> j in labs
  }

  /** The comparisons of a switch reach the label Match names, or fall through. */
  lemma {:induction false} DispatchOk(c: Ctx, cs: seq<Option<int>>, first: int, pos: int, sp: int, s: S.Store,
      st: State, v: i64) returns (st': State)
    requires Holding(c.im, c.labs, pos, DispatchCode(cs, first)) && AllPlaced(c.labs, first, |cs|)
    requires Rel(c.g, s, sp, st) && st.pc == PcOf(c.im, pos) && st.x[0] == ToU(v)
    ensures S.Match(cs, v) < |cs|
    ensures Did(c.im, c.g, s, s, sp, st, st',
                if S.Match(cs, v) >= 0 then c.labs[first - S.Match(cs, v)] else pos + |DispatchCode(cs, first)|)
    decreases |cs|
  {
    hide Reaches, Holding, Kept, Rel, LoadImm;
    if cs == [] {
      DidSelf(c.im, c.g, s, sp, st, pos);
      st' := st;
    } else {
      var n := |cs| - 1;
      var rest := DispatchCode(cs[..n], first);
      match cs[n]
      case None =>
        assert DispatchCode(cs, first) == rest;
        st' := DispatchOk(c, cs[..n], first, pos, sp, s, st, v);
      case Some(k) =>
        var cmp := LoadImm(1, ToU(k)) + [I(CmpRR(0, 1)), J(JCond(EQ), first - n)];
        LoadImmLength(1, ToU(k));
        HoldingParts(c.im, c.labs, pos, cmp, rest);
        var st1 := CompareCase(c, k, first - n, pos, sp, s, st, v);
        if v == Wrap(k) {
          st' := st1;
        } else {
          st' := DispatchOk(c, cs[..n], first, pos + 6, sp, s, st1, v);
          DidTrans(c.im, c.g, s, s, s, sp, st, st1, st', pos + 6,
                   if S.Match(cs, v) >= 0 then c.labs[first - S.Match(cs, v)] else pos + |DispatchCode(cs, first)|);
        }
    }
  }

  lemma {:induction false} DefaultBound(cs: seq<Option<int>>)
    ensures -1 <= S.Default(cs) < |cs|
    decreases |cs|
  {
    if cs != [] { DefaultBound(cs[..|cs| - 1]); }
  }

  /** Every case label of a placed statement has a place. */
  lemma {:induction false} CasesPlaced(cx: Cx, st: Stmt, l: int, first: int, pos: int, labs: map<int, int>)
    requires SPlaced(cx, st, l, first, pos, labs)
    ensures AllPlaced(labs, first, |S.Cases(st)|) && PlacedFrom(labs, first, |S.Cases(st)|, pos)
    decreases st
  {
    hide Placed, Code, SCode, LCode, DispatchCode, OptPlaced, ForCode, SLabels, ELabels, OptCode;
    match st
    case If(c, t, f) =>
      var lt := l + 2 + ELabels(c);
      var pt := pos + |Code(cx.offs, c, l + 2)| + 1;
      CasesPlaced(cx, t, lt, first, pt, labs);
      CasesPlaced(cx, f, lt + SLabels(t), first - |S.Cases(t)|, pt + |SCode(cx, t, lt, first)| + 1, labs);
    case While(c, b) =>
      CasesPlaced(cx.(brk := l + 1, cont := l), b, l + 2 + ELabels(c), first, pos + |Code(cx.offs, c, l + 2)| + 1,
        labs);
    case For(i, c, n, b) =>
      var lb := ForHead(l, i) + OptLabels(c);
      var pf := pos + |OptCode(cx.offs, i, l + 3)|;
      CasesPlaced(cx.(brk := l + 2, cont := l + 1), b, lb, first,
        pf + |OptCode(cx.offs, c, ForHead(l, i))| + (if c.Some? then 1 else 0), labs);
    case Case(_, b) =>
      CasesPlaced(cx, b, l, first - 1, pos, labs);
    case Block(ss) => CasesPlacedList(cx, ss, l, first, pos, labs);
    case _ =>
  }

  lemma {:induction false} CasesPlacedList(cx: Cx, ss: Stmts, l: int, first: int, pos: int, labs: map<int, int>)
    requires LPlaced(cx, ss, l, first, pos, labs)
    ensures AllPlaced(labs, first, |S.CasesList(ss)|) && PlacedFrom(labs, first, |S.CasesList(ss)|, pos)
    decreases ss
  {
    hide SCode, LCode;
    match ss
    case SNil =>
    case SCons(h, t) =>
      CasesPlaced(cx, h, l, first, pos, labs);
      CasesPlacedList(cx, t, l + SLabels(h), first - |S.Cases(h)|, pos + |SCode(cx, h, l, first)|, labs);
  }
}
