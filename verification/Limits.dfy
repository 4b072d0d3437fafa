/** Where the generator's own limits are, each with its exact condition. */
module Limits {
  import opened Options
  import opened Word
  import opened Mem
  import opened Arm
  import opened Cpu
  import opened Emit
  import opened Loaded
  import opened Sim
  import opened Pieces
  import opened Buffer

  /** SUB (shifted register) reads register 31 as zero, so a frame too big for the
      immediate form is never allocated: SP drops by the frame exactly up to 0xFFF bytes. */
  lemma FrameAllocated(im: Image, labs: map<int, int>, pos: int, frame: nat, sp: int, st: State) returns (st': State)
    requires Holding(im, labs, pos, Prologue(frame)) && st.pc == PcOf(im, pos) && st.sp == sp && sp % 16 == 0
    requires frame <= sp - 16 && sp < M64 && Has(st.mem, sp - 16, 8) && Has(st.mem, sp - 8, 8)
    ensures Reaches(im.m, st, st') && st'.pc == PcOf(im, pos + |Prologue(frame)|)
    ensures st'.sp == sp - 16 - frame <==> frame <= 0xFFF
    ensures frame > 0xFFF ==> st'.sp == sp - 16
    ensures st'.x[0] == st.x[0] && st'.mem == Store8(Store8(st.mem, sp - 16, st.x[29]), sp - 8, st.x[30])
  {
    hide Reaches, Step, Decode, Encode, Store8, LoadImm, Holding;
    if frame <= 0xFFF {
      st' := PrologueRun(im, labs, pos, frame, sp, st);
    } else {
      LoadImmLength(9, ToU(frame));
      var items := Prologue(frame);
      var st1 := SaveRecord(im, labs, pos, items, sp, st);
      HoldingParts(im, labs, pos, [I(StpFrame), I(AddImm(29, 31, 0))], LoadImm(9, ToU(frame)) + [I(SubRRR(31, 31, 9))]);
      HoldingParts(im, labs, pos + 2, LoadImm(9, ToU(frame)), [I(SubRRR(31, 31, 9))]);
      var st2 := ImmLoaded(im, labs, pos + 2, 9, ToU(frame), st1);
      st' := LostSub(im, labs, pos + 6, st2);
      ReachTrans(im.m, st, st1, st2);
      ReachTrans(im.m, st, st2, st');
    }
  }

  /** What that does to a program: the first value pushed in the body lands inside the frame,
      on a local, exactly when the frame is too big. */
  lemma TemporaryInFrame(im: Image, labs: map<int, int>, pos: int, frame: nat, sp: int, st: State) returns (st': State)
    requires Holding(im, labs, pos, Prologue(frame) + [I(Push)]) && st.pc == PcOf(im, pos) && st.sp == sp
             && sp % 16 == 0
    requires frame % 16 == 0 && frame + 32 <= sp < M64 && Has(st.mem, sp - 32 - frame, frame + 32)
    ensures Reaches(im.m, st, st') && st'.pc == PcOf(im, pos + |Prologue(frame)| + 1) && Saved(st', st'.sp, st.x[0])
    ensures var fp := sp - 16; fp - frame <= st'.sp && st'.sp + 8 <= fp <==> frame > 0xFFF
  {
    hide Reaches, Holding, Load8, Store8, Prologue;
    HoldingParts(im, labs, pos, Prologue(frame), [I(Push)]);
    var st1 := FrameAllocated(im, labs, pos, frame, sp, st);
    HasStored(st.mem, sp - 16, st.x[29]);
    HasStored(Store8(st.mem, sp - 16, st.x[29]), sp - 8, st.x[30]);
    Aligns(st1.sp);
    ExecPush(im.m, st1);
    LoadStore(st1.mem, st1.sp - 16, st1.x[0]);
    st' := Do(im, labs, pos + |Prologue(frame)|, [I(Push)], 0, st1);
    ReachTrans(im.m, st, st1, st');
  }

  lemma HasStored(m: Memory, a: int, v: u64)
    ensures m.Keys <= Store8(m, a, v).Keys
  {
  }

  lemma ImmLoaded(im: Image, labs: map<int, int>, pos: int, r: int, v: u64, st: State) returns (st': State)
    requires 0 <= r < 29 && Holding(im, labs, pos, LoadImm(r, v)) && st.pc == PcOf(im, pos)
    ensures Reaches(im.m, st, st') && st' == st.(x := st.x[r := v], pc := PcOf(im, pos + 4))
  {
    st' := LoadImmOk(im, labs, pos, LoadImm(r, v), r, v, st);
  }

  lemma LostSub(im: Image, labs: map<int, int>, pos: int, st: State) returns (st': State)
    requires Holding(im, labs, pos, [I(SubRRR(31, 31, 9))]) && st.pc == PcOf(im, pos)
    ensures Reaches(im.m, st, st') && st' == st.(pc := PcOf(im, pos + 1))
  {
    hide Reaches, Step, Decode, Encode;
    st' := Do(im, labs, pos, [I(SubRRR(31, 31, 9))], 0, st);
  }

  /** The offset of a member is cut to 12 bits: its address is right exactly up to 0xFFF. */
  lemma MemberReached(im: Image, labs: map<int, int>, pos: int, off: u64, st: State) returns (st': State)
    requires off != 0 && Holding(im, labs, pos, [I(AddImm(0, 0, off % 0x1000))]) && st.pc == PcOf(im, pos)
    ensures Reaches(im.m, st, st') && st'.pc == PcOf(im, pos + 1)
    ensures st'.x[0] == (st.x[0] + off) % M64 <==> off <= 0xFFF
  {
    hide Reaches, Step, Decode, Encode;
    st' := Do(im, labs, pos, [I(AddImm(0, 0, off % 0x1000))], 0, st);
    if off > 0xFFF { SumsDiffer(st.x[0], off % 0x1000, off); }
  }

  lemma SumsDiffer(a: u64, b: u64, c: u64)
    requires b != c
    ensures (a + b) % M64 != (a + c) % M64
  {
  }

  /** A branch past the 2048 recorded ones keeps distance 0.  Unconditional, it spins: the
      machine reaches nothing but the state it is in. */
  lemma LostBranchSpins(m: Machine, site: nat, st: State, st': State)
    requires site < |m.code| && m.code[site] == Skeleton(J(JB, 0)) && st.pc == m.base + 4 * site
    ensures Reaches(m, st, st') <==> st' == st
  {
    StandsStill(m, site, st);
    ReachSelf(m, st);
    if Reaches(m, st, st') {
      var n: nat :| Run.Steps(Stepper(m), st, st', n);
      SpinSteps(Stepper(m), st, st', n);
    }
  }

  lemma {:induction false} SpinSteps(next: State -> Option<State>, st: State, st': State, n: nat)
    requires next(st) == Some(st) && Run.Steps(next, st, st', n)
    ensures st' == st
  {
    if n > 0 { SpinSteps(next, st, st', n - 1); }
  }

  lemma StandsStill(m: Machine, site: nat, st: State)
    requires site < |m.code| && m.code[site] == Skeleton(J(JB, 0)) && st.pc == m.base + 4 * site
    ensures Step(m, st) == Some(st)
  {
    hide Decode;
    assert Encode(B(0)) == m.code[site];
    DecodeEncode(B(0));
    assert (st.pc - m.base) / 4 == site;
  }
}
