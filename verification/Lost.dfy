/** A program with more branches than the fixup table holds: one family of programs, compiled
    correctly exactly as long as the table has room. */
module Lost {
  import opened Options
  import opened Word
  import opened Mem
  import opened Arm
  import opened Cpu
  import opened Ast
  import opened Emit
  import opened Loaded
  import opened Sim
  import opened Programs
  import opened Pieces
  import opened Buffer
  import opened Generator
  import opened Compiler
  import Limits
  import S = Semantics

  // ---------------------------------------------------------------- the family

  /** n times `return 0;` */
  function Returns(n: nat): Stmts { if n == 0 then SNil else SCons(Return(Num(0)), Returns(n - 1)) }

  /** int f() { if (0) { return 0; ... return 0; } return 7; } */
  function Body(n: nat): Stmt { Block(SCons(If(Num(0), Block(Returns(n)), Block(SNil)), SCons(Return(Num(7)), SNil))) }
  function Fn(n: nat): Func { Func([], [], Body(n)) }
  function Family(n: nat): Prog { Prog([Fn(n)], None) }

  lemma {:induction false} ReturnsPlain(n: nat, brk: bool, cont: bool)
    ensures WfL(1, 0, Returns(n), brk, cont) && NamedL(1, 0, Returns(n)) && DepthL(Returns(n)) == 0
    ensures S.CasesList(Returns(n)) == [] && LLabels(Returns(n)) == 0
  {
    if n > 0 { ReturnsPlain(n - 1, brk, cont); }
  }

  function Two(c: Expr, t: Stmt, v: Expr): Stmts { SCons(If(c, t, Block(SNil)), SCons(Return(v), SNil)) }

  lemma TwoWf(c: Expr, t: Stmt, v: Expr)
    requires WfE(1, 0, c) && WfE(1, 0, v) && WfS(1, 0, t, false, false)
    ensures WfL(1, 0, Two(c, t, v), false, false)
  {
    hide WfE;
    var i, r := If(c, t, Block(SNil)), SCons(Return(v), SNil);
    assert WfS(1, 0, Block(SNil), false, false);
    assert WfS(1, 0, i, false, false);
    assert WfL(1, 0, r, false, false);
  }

  lemma TwoNamed(c: Expr, t: Stmt, v: Expr)
    requires Named(1, 0, c) && Named(1, 0, v) && NamedS(1, 0, t)
    ensures NamedL(1, 0, Two(c, t, v)) && DepthL(Two(c, t, v)) == Depth(t)
  {
    hide Named;
    var i, r := If(c, t, Block(SNil)), SCons(Return(v), SNil);
    assert NamedS(1, 0, Block(SNil)) && Depth(Block(SNil)) == 0;
    assert NamedS(1, 0, i) && Depth(i) == Depth(t);
    DepthOne(Return(v));
    assert NamedL(1, 0, r);
  }

  lemma LabelsOne(s: Stmt)
    ensures LLabels(SCons(s, SNil)) == SLabels(s)
    ensures s.Return? ==> SLabels(s) == ELabels(s.e)
  {
    hide ELabels;
  }

  lemma DepthOne(s: Stmt)
    ensures DepthL(SCons(s, SNil)) == Max(Depth(s), DepthL(SNil)) && DepthL(SNil) == 0
    ensures s.Return? ==> Depth(s) == 0
  {
  }

  lemma TwoSizes(c: Expr, t: Stmt, v: Expr)
    requires ELabels(c) == ELabels(v) == 0
    ensures S.CasesList(Two(c, t, v)) == S.Cases(t) && LLabels(Two(c, t, v)) == 2 + SLabels(t)
  {
    hide ELabels;
    var i, r := If(c, t, Block(SNil)), SCons(Return(v), SNil);
    assert S.Cases(Block(SNil)) == [] && SLabels(Block(SNil)) == 0;
    assert S.Cases(i) == S.Cases(t) && SLabels(i) == 2 + SLabels(t);
    LabelsOne(Return(v));
    assert S.CasesList(r) == [];
  }

  lemma BlockParts(ss: Stmts)
    ensures WfS(1, 0, Block(ss), false, false) == WfL(1, 0, ss, false, false)
            && NamedS(1, 0, Block(ss)) == NamedL(1, 0, ss)
    ensures Depth(Block(ss)) == DepthL(ss) && S.Cases(Block(ss)) == S.CasesList(ss) && SLabels(Block(ss)) == LLabels(ss)
  {
  }

  lemma Nums(v: int)
    ensures WfE(1, 0, Num(v)) && Named(1, 0, Num(v)) && ELabels(Num(v)) == 0
  {
  }

  lemma BodyParts(n: nat)
    ensures NamedS(1, 0, Body(n)) && Depth(Body(n)) == 0 && S.Cases(Body(n)) == []
    ensures WfS(1, 0, Body(n), false, false) && SLabels(Body(n)) == 2
  {
    hide WfS, WfL, WfE, NamedS, NamedL, Named, Depth, DepthL, S.Cases, S.CasesList, SLabels, LLabels, ELabels, Returns;
    ReturnsPlain(n, false, false);
    var t := Block(Returns(n));
    var ss := Two(Num(0), t, Num(7));
    BlockParts(Returns(n));
    BlockParts(ss);
    Nums(0);
    Nums(7);
    TwoWf(Num(0), t, Num(7));
    TwoNamed(Num(0), t, Num(7));
    TwoSizes(Num(0), t, Num(7));
    assert Body(n) == Block(ss);
  }

  lemma NoFrame()
    ensures Frame([]) == 0 && Offsets([]) == []
  {
  }

  lemma FamilyParsed(n: nat)
    ensures Parsed(Family(n)) && SmallFrames(Family(n))
    ensures WfS(1, 0, Body(n), false, false) && SLabels(Body(n)) == 2
  {
    hide Body, Frame, WfS, NamedS, Depth, S.Cases, SLabels;
    BodyParts(n);
    NoFrame();
    assert Family(n).funcs == [Fn(n)];
  }

  // ---------------------------------------------------------------- its code

  function One(): seq<Item> { LoadImm(0, ToU(0)) + [J(JB, RET)] }
  function Many(n: nat): seq<Item> { if n == 0 then [] else Many(n - 1) + One() }
  function Head(): seq<Item> { [I(StpFrame), I(AddImm(29, 31, 0))] + LoadImm(0, ToU(0)) + [J(JCbz, 1)] }
  function Mid(): seq<Item> { [J(JB, 2)] + LoadImm(0, ToU(7)) }
  function End(): seq<Item> { [I(Movz(0, 0))] + Epilogue() }
  function Front(n: nat): seq<Item> { Head() + Many(n) + Mid() }

  /** Where the last branch is. */
  function LastAt(n: nat): nat { 12 + 5 * n }

  lemma {:induction false} ManyFront(n: nat)
    ensures |Many(n)| == 5 * n && One() + Many(n) == Many(n) + One()
  {
    if n > 0 {
      ManyFront(n - 1);
      assert One() + (Many(n - 1) + One()) == (One() + Many(n - 1)) + One();
    }
  }

  lemma {:induction false} ReturnsCode(cx: Cx, n: nat, l: int, first: int)
    ensures LCode(cx, Returns(n), l, first) == Many(n)
  {
    if n > 0 {
      ReturnsCode(cx, n - 1, l, first);
      ManyFront(n - 1);
      assert SCode(cx, Return(Num(0)), l, first) == One();
      assert l + SLabels(Return(Num(0))) == l && first - |S.Cases(Return(Num(0)))| == first;
    }
  }

  lemma FamilyCode(n: nat)
    ensures FCode(Family(n), Fn(n)) == Front(n) + [J(JB, RET)] + End() && |Front(n)| == LastAt(n)
  {
    var cx := BodyCx(Family(n), Fn(n));
    assert Frame([]) == 0;
    assert Entrance(Fn(n)) == [I(StpFrame), I(AddImm(29, 31, 0))];
    BodyCode(cx, n);
    ManyFront(n);
    assert FCode(Family(n), Fn(n)) == Entrance(Fn(n)) + SCode(cx, Body(n), 1, -1) + [I(Movz(0, 0))] + Epilogue();
  }

  lemma BodyCode(cx: Cx, n: nat)
    ensures SCode(cx, Body(n), 1, -1) == LoadImm(0, ToU(0)) + [J(JCbz, 1)] + Many(n) + Mid() + [J(JB, RET)]
  {
    hide LoadImm;
    var t, r := If(Num(0), Block(Returns(n)), Block(SNil)), Return(Num(7));
    IfCode(cx, n);
    IfPlain(n);
    ReturnCode(cx);
    hide SCode, SLabels, S.Cases;
    assert LCode(cx, SCons(r, SNil), 3, -1) == LoadImm(0, ToU(7)) + [J(JB, RET)];
    assert LCode(cx, SCons(t, SCons(r, SNil)), 1, -1) == SCode(cx, t, 1, -1) + LCode(cx, SCons(r, SNil), 3, -1);
    BlockCode(cx, SCons(t, SCons(r, SNil)));
    assert SCode(cx, Body(n), 1, -1) == LCode(cx, SCons(t, SCons(r, SNil)), 1, -1);
  }

  lemma BlockCode(cx: Cx, ss: Stmts)
    ensures SCode(cx, Block(ss), 1, -1) == LCode(cx, ss, 1, -1)
  {
  }

  lemma ReturnCode(cx: Cx)
    ensures LCode(cx, SCons(Return(Num(7)), SNil), 3, -1) == LoadImm(0, ToU(7)) + [J(JB, RET)]
  {
    hide LoadImm;
    assert SCode(cx, Return(Num(7)), 3, -1) == LoadImm(0, ToU(7)) + [J(JB, RET)];
    assert LCode(cx, SNil, 3 + SLabels(Return(Num(7))), -1 - |S.Cases(Return(Num(7)))|) == [];
  }

  lemma IfPlain(n: nat)
    ensures var t := If(Num(0), Block(Returns(n)), Block(SNil)); SLabels(t) == 2 && S.Cases(t) == []
  {
    ReturnsPlain(n, false, false);
    assert S.Cases(Block(SNil)) == [];
  }

  lemma IfCode(cx: Cx, n: nat)
    ensures SCode(cx, If(Num(0), Block(Returns(n)), Block(SNil)), 1, -1)
            == LoadImm(0, ToU(0)) + [J(JCbz, 1)] + Many(n) + [J(JB, 2)]
  {
    hide LoadImm;
    ReturnsCode(cx, n, 3, -1);
    ReturnsPlain(n, false, false);
    assert SCode(cx, Block(SNil), 3, -1) == [];
  }

  // ---------------------------------------------------------------- counting its branches

  lemma {:induction false} JumpsJoin(a: seq<Item>, b: seq<Item>)
    ensures |Jumps(a + b, 0)| == |Jumps(a, 0)| + |Jumps(b, 0)|
    decreases |b|
  {
    if b == [] {
      assert a + b == a;
    } else {
      var n := |b| - 1;
      assert (a + b)[..|a| + n] == a + b[..n];
      JumpsJoin(a, b[..n]);
    }
  }

  lemma JumpsOne(it: Item)
    ensures |Jumps([it], 0)| == if it.J? then 1 else 0
  {
    assert [it][..0] == [];
  }

  lemma JumpsLoad(r: int, v: u64)
    ensures |Jumps(LoadImm(r, v), 0)| == 0
  {
    var w := LoadImm(r, v);
    assert w == [w[0]] + ([w[1]] + ([w[2]] + [w[3]]));
    JumpsJoin([w[0]], [w[1]] + ([w[2]] + [w[3]]));
    JumpsJoin([w[1]], [w[2]] + [w[3]]);
    JumpsJoin([w[2]], [w[3]]);
    forall k | 0 <= k < 4 ensures |Jumps([w[k]], 0)| == 0 { JumpsOne(w[k]); }
  }

  lemma {:induction false} JumpsMany(n: nat)
    ensures |Jumps(Many(n), 0)| == n
  {
    hide LoadImm, Jumps;
    if n == 0 {
      JumpsNone();
    } else {
      JumpsMany(n - 1);
      JumpsJoin(Many(n - 1), One());
      JumpsJoin(LoadImm(0, ToU(0)), [J(JB, RET)]);
      JumpsLoad(0, ToU(0));
      JumpsOne(J(JB, RET));
    }
  }

  lemma JumpsNone()
    ensures Jumps([], 0) == []
  {
  }

  /** Before the last branch there are n + 2 others. */
  lemma JumpsFront(n: nat)
    ensures |Jumps(Front(n), 0)| == n + 2
  {
    hide LoadImm, Jumps;
    JumpsJoin(Head() + Many(n), Mid());
    JumpsJoin(Head(), Many(n));
    JumpsMany(n);
    JumpsJoin([J(JB, 2)], LoadImm(0, ToU(7)));
    JumpsLoad(0, ToU(7));
    JumpsOne(J(JB, 2));
    JumpsJoin([I(StpFrame), I(AddImm(29, 31, 0))] + LoadImm(0, ToU(0)), [J(JCbz, 1)]);
    JumpsOne(J(JCbz, 1));
    JumpsJoin([I(StpFrame), I(AddImm(29, 31, 0))], LoadImm(0, ToU(0)));
    JumpsLoad(0, ToU(0));
    assert [I(StpFrame), I(AddImm(29, 31, 0))] == [I(StpFrame)] + [I(AddImm(29, 31, 0))];
    JumpsJoin([I(StpFrame)], [I(AddImm(29, 31, 0))]);
    JumpsOne(I(StpFrame));
    JumpsOne(I(AddImm(29, 31, 0)));
  }

  lemma JumpsAll(n: nat)
    ensures |Jumps(FCode(Family(n), Fn(n)), 0)| == n + 3
  {
    hide LoadImm, Jumps, FCode;
    FamilyCode(n);
    JumpsFront(n);
    JumpsJoin(Front(n) + [J(JB, RET)], End());
    JumpsJoin(Front(n), [J(JB, RET)]);
    JumpsOne(J(JB, RET));
    assert End() == [I(Movz(0, 0))] + ([I(AddImm(31, 29, 0))] + ([I(LdpFrame)] + [I(Ret)]));
    JumpsJoin([I(Movz(0, 0))], [I(AddImm(31, 29, 0))] + ([I(LdpFrame)] + [I(Ret)]));
    JumpsJoin([I(AddImm(31, 29, 0))], [I(LdpFrame)] + [I(Ret)]);
    JumpsJoin([I(LdpFrame)], [I(Ret)]);
    JumpsOne(I(Movz(0, 0)));
    JumpsOne(I(AddImm(31, 29, 0)));
    JumpsOne(I(LdpFrame));
    JumpsOne(I(Ret));
  }

  lemma {:induction false} NoEntries(code: seq<Item>)
    requires forall i :: 0 <= i < |code| ==> !code[i].Entry?
    ensures Entries(code) == []
    decreases |code|
  {
    if code != [] { NoEntries(code[..|code| - 1]); }
  }

  lemma {:induction false} ManyItems(n: nat)
    ensures forall i :: 0 <= i < |Many(n)| ==> !Many(n)[i].Entry?
  {
    if n > 0 { ManyItems(n - 1); }
  }

  lemma FamilyAll(n: nat)
    ensures AllCode(Family(n), 1) == FCode(Family(n), Fn(n)) && |AllCode(Family(n), 1)| == 17 + 5 * n
    ensures Entries(AllCode(Family(n), 1)) == []
  {
    hide FCode;
    FamilyCode(n);
    ManyItems(n);
    var code := FCode(Family(n), Fn(n));
    assert AllCode(Family(n), 0) == [] && [] + code == code;
    NoEntries(code);
  }

  /** The tables suffice exactly up to n = 2045; the generator accepts every n that fits the
      buffer. */
  lemma FamilyFits(n: nat, cap: nat)
    ensures FitsTables(Family(n)) <==> n + 3 <= MAXBFX
    ensures Accepted(Family(n), 1, cap) <==> 17 + 5 * n <= cap
  {
    hide FCode, WfS, SLabels, AllCode, Jumps, Entries;
    FamilyAll(n);
    JumpsAll(n);
    FamilyParsed(n);
    assert Family(n).funcs == [Fn(n)];
    if n + 3 <= MAXBFX {
      forall f | 0 <= f < 1 ensures |Jumps(FCode(Family(n), Family(n).funcs[f]), 0)| <= MAXBFX {}
    } else {
      assert |Jumps(FCode(Family(n), Family(n).funcs[0]), 0)| > MAXBFX;
    }
  }

  // ---------------------------------------------------------------- running it

  /** The written words the run meets. */
  lemma FamilyWritten(im: Image, n: nat)
    requires Written(im, 1, Family(n))
    ensures |im.entry| == |im.tabs| == 1 && im.entry[0] == 0 && |im.m.code| == 17 + 5 * n
    ensures Holding(im, im.tabs[0], 0, Head()) && Holding(im, im.tabs[0], 8 + 5 * n, LoadImm(0, ToU(7)))
    ensures LabelAt(im.tabs[0], 1, 8 + 5 * n)
    ensures n + 2 >= MAXBFX ==> im.m.code[LastAt(n)] == Skeleton(J(JB, RET))
  {
    hide FCode, FPlaced, WfS, Final, Jumps, Entries, AllCode, Grouped, AllEncodable, Settle, Resolve, Encode, Patched,
      LoadImm, Front, Holding;
    FamilyAll(n);
    FamilyCode(n);
    var p := Family(n);
    assert p.funcs == [Fn(n)];
    var code := AllCode(p, 1);
    var words :| WrittenAs(im, 1, p, code, words);
    assert Lies(code, words, 1, p, p.funcs[0], im.entry[0], im.tabs[0]);
    ElsePlace(n, im.tabs[0]);
    HeadHeld(im, n, code, words);
    SevenHeld(im, n, code, words);
    LastWord(im, n, code, words);
  }

  lemma HeadHeld(im: Image, n: nat, code: seq<Item>, words: seq<int>)
    requires WrittenAs(im, 1, Family(n), code, words)
             && code == FCode(Family(n), Fn(n)) == Front(n) + [J(JB, RET)] + End() && im.entry[0] == 0
    ensures Holding(im, im.tabs[0], 0, Head())
  {
    hide FCode, AllCode, AllLie, Final, Grouped, AllEncodable, Resolve, Encode, Patched, Jumps, Entries, WrittenAs;
    WrittenSizes(im, n, code, words);
    var head := Head();
    assert code[..7] == head;
    forall i | 0 <= i < |head| ensures Patched(im, im.tabs[0], head[i], 0 + i) {
      assert code[i] == code[..7][i];
      WordHeldIff(im, code, words, 1, Family(n), 0, i);
      if i == 6 {
        assert code[..6] == [I(StpFrame), I(AddImm(29, 31, 0))] + LoadImm(0, ToU(0));
        NoJumps(code[..6]);
      }
    }
  }

  lemma WrittenSizes(im: Image, n: nat, code: seq<Item>, words: seq<int>)
    requires WrittenAs(im, 1, Family(n), code, words)
    ensures |im.entry| == |im.tabs| == 1 && |Family(n).funcs| == 1 && Family(n).funcs[0] == Fn(n)
  {
  }

  lemma {:induction false} NoJumps(code: seq<Item>)
    requires forall i :: 0 <= i < |code| ==> !code[i].J?
    ensures Jumps(code, 0) == []
    decreases |code|
  {
    if code != [] { NoJumps(code[..|code| - 1]); }
  }

  lemma SevenHeld(im: Image, n: nat, code: seq<Item>, words: seq<int>)
    requires WrittenAs(im, 1, Family(n), code, words)
             && code == FCode(Family(n), Fn(n)) == Front(n) + [J(JB, RET)] + End() && im.entry[0] == 0
    ensures Holding(im, im.tabs[0], 8 + 5 * n, LoadImm(0, ToU(7)))
  {
    hide FCode, AllCode, AllLie, Final, Grouped, AllEncodable, Resolve, Encode, Patched, Jumps, Entries, WrittenAs;
    WrittenSizes(im, n, code, words);
    ManyFront(n);
    var seven := LoadImm(0, ToU(7));
    assert code[8 + 5 * n..12 + 5 * n] == seven;
    forall i | 0 <= i < |seven| ensures Patched(im, im.tabs[0], seven[i], 8 + 5 * n + i) {
      assert code[8 + 5 * n + i] == code[8 + 5 * n..12 + 5 * n][i];
      WordHeldIff(im, code, words, 1, Family(n), 0, 8 + 5 * n + i);
    }
  }

  lemma LastWord(im: Image, n: nat, code: seq<Item>, words: seq<int>)
    requires WrittenAs(im, 1, Family(n), code, words)
             && code == FCode(Family(n), Fn(n)) == Front(n) + [J(JB, RET)] + End() && im.entry[0] == 0
    requires |Front(n)| == LastAt(n)
    ensures LastAt(n) < |im.m.code| && (n + 2 >= MAXBFX ==> im.m.code[LastAt(n)] == Skeleton(J(JB, RET)))
  {
    hide FCode, AllCode, AllLie, Final, Grouped, AllEncodable, Resolve, Encode, Patched, Jumps, Entries, Front;
    JumpsFront(n);
    assert code[..LastAt(n)] == Front(n);
    WordHeldIff(im, code, words, 1, Family(n), 0, LastAt(n));
  }

  /** The else branch begins after the returns and the branch around it. */
  lemma ElsePlace(n: nat, m: map<int, int>)
    requires FPlaced(Family(n), Fn(n), 0, m)
    ensures LabelAt(m, 1, 8 + 5 * n)
  {
    hide LoadImm;
    NoFrame();
    var cx := BodyCx(Family(n), Fn(n));
    var t := If(Num(0), Block(Returns(n)), Block(SNil));
    assert SPlaced(cx, Body(n), 1, -1, 2, m);
    assert LPlaced(cx, SCons(t, SCons(Return(Num(7)), SNil)), 1, -1, 2, m);
    assert SPlaced(cx, t, 1, -1, 2, m);
    ReturnsCode(cx, n, 3, -1);
    ManyFront(n);
    assert |SCode(cx, Block(Returns(n)), 3, -1)| == 5 * n;
    assert |Code(cx.offs, Num(0), 3)| == 4 by { LoadImmLength(0, ToU(0)); }
  }

  /** Prologue, condition, else branch, 7: the machine arrives at the last branch. */
  lemma Arrives(im: Image, n: nat, sp: int, st: State) returns (st': State)
    requires Written(im, 1, Family(n)) && st.pc == PcOf(im, 0) && st.sp == sp && sp % 16 == 0 && 16 <= sp < M64
    requires Has(st.mem, sp - 16, 8) && Has(st.mem, sp - 8, 8)
    ensures Reaches(im.m, st, st') && st'.pc == PcOf(im, LastAt(n))
  {
    hide Reaches, Step, Decode, Encode, Store8, LoadImm, Written;
    FamilyWritten(im, n);
    var m := im.tabs[0];
    var st1 := SaveRecord(im, m, 0, Head(), sp, st);
    var pre := [I(StpFrame), I(AddImm(29, 31, 0))];
    HoldingParts(im, m, 0, pre + LoadImm(0, ToU(0)), [J(JCbz, 1)]);
    HoldingParts(im, m, 0, pre, LoadImm(0, ToU(0)));
    LoadImmLength(0, ToU(0));
    var st2 := Limits.ImmLoaded(im, m, 2, 0, ToU(0), st1);
    var st3 := DoJump(im, m, 6, [J(JCbz, 1)], 0, st2);
    st' := Limits.ImmLoaded(im, m, 8 + 5 * n, 0, ToU(7), st3);
    ReachTrans(im.m, st, st1, st2);
    ReachTrans(im.m, st, st2, st3);
    ReachTrans(im.m, st, st3, st');
  }

  /** A machine that gets to a standstill gets there from everything it can reach. */
  lemma {:induction false} Funnel(next: State -> Option<State>, st: State, t: State, u: State, i: nat, j: nat)
    requires Run.Steps(next, st, t, i) && Run.Steps(next, st, u, j) && next(t) == Some(t)
    ensures exists k: nat :: Run.Steps(next, u, t, k)
    decreases i + j
  {
    if j == 0 {
    } else if i == 0 {
      Limits.SpinSteps(next, st, u, j);
    } else {
      Funnel(next, next(st).value, t, u, i - 1, j - 1);
    }
  }

  /** With the last branch lost no call ever returns. */
  lemma NeverAnswers(im: Image, n: nat, c: Compiler.Call)
    requires Written(im, 1, Family(n)) && n + 2 >= MAXBFX && Asked(im, Family(n), c) && !InCode(im.m, PcOf(im, c.r))
    ensures !Answered(im, c)
  {
    hide Written, Step;
    FamilyWritten(im, n);
    assert Family(n).funcs == [Fn(n)];
    StackThere(n, c);
    var t := Arrives(im, n, c.sp, c.st);
    Limits.StandsStill(im.m, LastAt(n), t);
    assert InCode(im.m, t.pc);
    if Answered(im, c) {
      var u :| Did(im, c.g, c.s, c.s', c.sp, c.st, u, c.r) && u.x[0] == ToU(c.v);
      Outside(im.m, u);
      Settles(im.m, c.st, t, u);
      Halted(im.m, u, t);
    }
  }

  lemma Settles(m: Machine, st: State, t: State, u: State)
    requires Reaches(m, st, t) && Reaches(m, st, u) && Step(m, t) == Some(t)
    ensures Reaches(m, u, t)
  {
    hide Step;
    var i: nat :| Run.Steps(Stepper(m), st, t, i);
    var j: nat :| Run.Steps(Stepper(m), st, u, j);
    Funnel(Stepper(m), st, t, u, i, j);
  }

  lemma Halted(m: Machine, u: State, t: State)
    requires Step(m, u) == None && Reaches(m, u, t)
    ensures t == u
  {
    hide Step;
    var k: nat :| Run.Steps(Stepper(m), u, t, k);
  }

  lemma Outside(m: Machine, u: State)
    requires !InCode(m, u.pc)
    ensures Step(m, u) == None
  {
  }

  /** A defined call has room for its frame record. */
  lemma StackThere(n: nat, c: Compiler.Call)
    requires Rel(c.g, c.s, c.sp, c.st) && c.g.p == Family(n) && c.f == 0
             && S.CallUser(c.g, c.f, c.vs, c.sp, c.s, c.fuel).Ok?
    ensures c.st.sp == c.sp && c.sp % 16 == 0 && 16 <= c.sp < M64 && Has(c.st.mem, c.sp - 16, 8)
            && Has(c.st.mem, c.sp - 8, 8)
  {
    hide S.Exec, S.StoreParams, Returns;
    NoFrame();
    assert c.g.p.funcs == [Fn(n)];
  }

  lemma NumEval(g: S.Env, v: int, sp: int, s: S.Store)
    ensures S.Eval(g, Num(v), sp, s, 0) == S.Ok((Wrap(v), s))
  {
  }

  /** The source calls the function without trouble: it returns 7. */
  lemma Returns7(g: S.Env, n: nat, sp: int, s: S.Store)
    requires g.p == Family(n) && sp - 16 >= g.lo
    ensures S.CallUser(g, 0, [], sp, s, 0).Ok?
  {
    hide Returns, S.Eval;
    NoFrame();
    assert g.p.funcs == [Fn(n)];
    var fp := sp - 16;
    var g1 := g.(offs := [], fp := fp);
    var s1 := S.OpenFrame(s, fp, 0);
    var t := If(Num(0), Block(Returns(n)), Block(SNil));
    ReturnsPlain(n, false, false);
    assert Wrap(0) == 0 && S.Cases(Block(SNil)) == [];
    NumEval(g1, 0, fp, s1);
    NumEval(g1, 7, fp, s1);
    assert S.Exec(g1, Block(SNil), -1, fp, s1, 0) == S.Ok((S.Normal, s1));
    assert S.Exec(g1, t, -1, fp, s1, 0) == S.Ok((S.Normal, s1));
    assert S.Exec(g1, Return(Num(7)), -1, fp, s1, 0).Ok?;
    assert S.ExecList(g1, SCons(Return(Num(7)), SNil), -1, fp, s1, 0) == S.Exec(g1, Return(Num(7)), -1, fp, s1, 0);
    assert S.ExecList(g1, SCons(t, SCons(Return(Num(7)), SNil)), -1, fp, s1, 0)
      == S.Exec(g1, Return(Num(7)), -1, fp, s1, 0);
    assert S.Exec(g1, Body(n), -1, fp, s1, 0) == S.Exec(g1, Return(Num(7)), -1, fp, s1, 0);
  }

  /** And it can be asked for. */
  lemma SomeCall(im: Image, n: nat) returns (c: Compiler.Call)
    requires Written(im, 1, Family(n)) && Housed(im.m)
    ensures Asked(im, Family(n), c) && !InCode(im.m, PcOf(im, c.r))
  {
    hide Written, S.CallUser, Family, Head, Holding, LoadImm, Skeleton;
    FamilyWritten(im, n);
    FamilyShape(n);
    var g := S.Env(Family(n), im.m.world, [], 0, 0);
    var s := S.Store({}, map[], []);
    var r := |im.m.code|;
    var st := State(seq(31, i => if i == 30 then PcOf(im, r) else 0), 32, PcOf(im, 0), Flags(false, false, false),
      map a | a in S.Range(0, 32) :: 0, []);
    Returns7(g, n, 32, s);
    var v := S.CallUser(g, 0, [], 32, s, 0).v;
    c := Compiler.Call(g, 0, [], 32, s, 0, st, r, v.0, v.1);
    assert Rel(g, s, 32, st);
  }

  lemma FamilyShape(n: nat)
    ensures |Family(n).funcs| == 1
  {
  }

  /** The family compiles correctly exactly as long as the fixup table has room for its last
      branch. */
  lemma FamilyIff(im: Image, n: nat)
    requires Written(im, 1, Family(n)) && Housed(im.m)
    ensures Implements(im, Family(n)) <==> n + 3 <= MAXBFX
  {
    hide Written, Housed, Asked, Answered, Persists, FitsTables, NoneLost, Accepted, Parsed, SmallFrames, Family;
    FamilyShape(n);
    if n + 3 <= MAXBFX {
      FamilyFits(n, 0);
      FamilyParsed(n);
      WrittenImplements(im, Family(n));
    } else {
      var c := SomeCall(im, n);
      NeverAnswers(im, n, c);
    }
  }

  /** Compiling it reports no error however many branches are lost. */
  method CompileFamily(n: nat, cap: nat, base: int, ghost mach: Machine)
      returns (ok: bool, words: seq<int>, ghost im: Image)
    requires cap <= MAXWORDS && 0 <= base && base % 4 == 0 && base + 4 * cap < M64
    requires forall a :: a in mach.world.arity ==> 0 <= a < base
    ensures im.m.code == words && (ok <==> 17 + 5 * n <= cap)
    ensures ok ==> (Implements(im, Family(n)) <==> n + 3 <= MAXBFX)
  {
    hide Written, Implements, Persists, NoneLost, FitsTables, Accepted, Parsed, SmallFrames;
    FamilyParsed(n);
    FamilyFits(n, cap);
    FamilyShape(n);
    var entry;
    ok, words, entry, im := Compile(Family(n), cap, base, mach);
    if ok { FamilyIff(im, n); }
  }
}
