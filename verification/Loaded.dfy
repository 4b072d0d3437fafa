/** A code buffer holding emitted items, and what single items do when fetched from it. */
module Loaded {
  import opened Options
  import opened Word
  import opened Mem
  import opened Arm
  import opened Cpu
  import opened Emit

  /** The machine, the entry word of each function and its label table. */
  datatype Image = Image(m: Machine, entry: seq<int>, tabs: seq<map<int, int>>)

  function PcOf(im: Image, pos: int): int { im.m.base + 4 * pos }

  /** A branch at word `site` to the place of its label. */
  function Branch(labs: map<int, int>, j: Jump, lab: int, site: int): Instr {
    var delta := (if lab in labs then labs[lab] else site) - site;
    match j
    case JB => B(delta)
    case JCbz => Cbz(delta)
    case JCbnz => Cbnz(delta)
    case JCond(c) => Bcond(c, delta)
  }

  /** The instruction an item becomes at word `site` once labels are patched in. */
  function Resolve(im: Image, labs: map<int, int>, it: Item, site: int): Instr {
    match it
    case I(i) => i
    case J(j, lab) => Branch(labs, j, lab, site)
    case Entry(f, k) => Imm(9, ToU(if f < |im.entry| then PcOf(im, im.entry[f]) else 0), k)
  }

  ghost predicate Patched(im: Image, labs: map<int, int>, it: Item, site: int) {
    && 0 <= site < |im.m.code|
    && Encodable(Resolve(im, labs, it, site))
    && im.m.code[site] == Encode(Resolve(im, labs, it, site))
  }

  /** The words from `pos` on are the items, patched. */
  ghost predicate Holding(im: Image, labs: map<int, int>, pos: int, items: seq<Item>) {
    forall i :: 0 <= i < |items| ==> Patched(im, labs, items[i], pos + i)
  }

  lemma HoldingParts(im: Image, labs: map<int, int>, pos: int, a: seq<Item>, b: seq<Item>)
    requires Holding(im, labs, pos, a + b)
    ensures Holding(im, labs, pos, a) && Holding(im, labs, pos + |a|, b)
  {
    forall i | 0 <= i < |a| ensures Patched(im, labs, a[i], pos + i) { assert (a + b)[i] == a[i]; }
    forall i | 0 <= i < |b| ensures Patched(im, labs, b[i], pos + |a| + i) { assert (a + b)[|a| + i] == b[i]; }
  }

  /** Fetching at a held item executes it. */
  lemma Fetch(im: Image, labs: map<int, int>, pos: int, items: seq<Item>, k: nat, st: State)
    requires Holding(im, labs, pos, items) && k < |items| && st.pc == PcOf(im, pos + k)
    ensures Encodable(Resolve(im, labs, items[k], pos + k))
    ensures Step(im.m, st) == Exec(im.m, Resolve(im, labs, items[k], pos + k), st)
  {
    hide Decode, Encode, Exec, Encodable;
    assert Patched(im, labs, items[k], pos + k);
    DecodeEncode(Resolve(im, labs, items[k], pos + k));
    assert (st.pc - im.m.base) / 4 == pos + k;
  }

  /** Execute item k, which is an unpatched instruction. */
  lemma Do(im: Image, labs: map<int, int>, pos: int, items: seq<Item>, k: nat, st: State) returns (st': State)
    requires Holding(im, labs, pos, items) && k < |items| && st.pc == PcOf(im, pos + k)
    requires items[k].I? && Encodable(items[k].i) && Exec(im.m, items[k].i, st).Some?
    ensures Exec(im.m, items[k].i, st) == Some(st') && Reaches(im.m, st, st')
  {
    Fetch(im, labs, pos, items, k, st);
    st' := Exec(im.m, items[k].i, st).value;
    ReachStep(im.m, st, st');
  }

  predicate Taken(j: Jump, st: State) {
    match j
    case JB => true
    case JCbz => st.x[0] == 0
    case JCbnz => st.x[0] != 0
    case JCond(c) => Holds(st.fl, c)
  }

  /** Execute item k, a branch: it goes to its label's place or falls through. */
  lemma DoJump(im: Image, labs: map<int, int>, pos: int, items: seq<Item>, k: nat, st: State) returns (st': State)
    requires Holding(im, labs, pos, items) && k < |items| && st.pc == PcOf(im, pos + k)
    requires items[k].J? && items[k].lab in labs
    ensures Reaches(im.m, st, st')
    ensures st' == st.(pc := PcOf(im, if Taken(items[k].j, st) then labs[items[k].lab] else pos + k + 1))
  {
    Fetch(im, labs, pos, items, k, st);
    st' := Step(im.m, st).value;
    ReachStep(im.m, st, st');
  }

  // ---------------------------------------------------------------- constants

  /** The value built by the first k + 1 words. */
  function Partial(v: u64, k: int): u64 {
    var q1 := v / 0x1_0000;
    var q2 := q1 / 0x1_0000;
    v % 0x1_0000
    + (if k >= 1 then 0x1_0000 * (q1 % 0x1_0000) else 0)
    + (if k >= 2 then 0x1_0000_0000 * (q2 % 0x1_0000) else 0)
    + (if k >= 3 then 0x1_0000_0000_0000 * (q2 / 0x1_0000) else 0)
  }

  lemma PartialFirst(v: u64)
    ensures Partial(v, 0) == v % 0x1_0000
  {
  }

  lemma PartialAll(v: u64)
    ensures Partial(v, 3) == v
  {
    var q1 := v / 0x1_0000;
    assert v == v % 0x1_0000 + 0x1_0000 * q1;
  }

  lemma SetLow(a: int, hw: int, f: int)
    requires 1 <= hw <= 3 && 0 <= a < Hw(hw) && 0 <= f < 0x1_0000
    ensures SetHw(a, hw, f) == a + f * Hw(hw) < M64
  {
    assert a / Hw(hw) == 0;
  }

  lemma FieldOf(v: u64, k: int)
    requires 1 <= k <= 3
    ensures var f := Imm(9, v, k).imm;
            Imm(9, v, k).hw == k && 0 <= f < 0x1_0000 && Partial(v, k) == Partial(v, k - 1) + f * Hw(k)
  {
    var q1 := v / 0x1_0000;
    var q2 := q1 / 0x1_0000;
    if k == 2 { assert v / 0x1_0000_0000 == q2; }
    if k == 3 { assert v / 0x1_0000_0000_0000 == q2 / 0x1_0000 < 0x1_0000; }
  }

  lemma PartialStep(v: u64, k: int)
    requires 1 <= k <= 3
    ensures SetHw(Partial(v, k - 1), k, Imm(9, v, k).imm) % M64 == Partial(v, k)
  {
    FieldOf(v, k);
    SetLow(Partial(v, k - 1), k, Imm(9, v, k).imm);
  }

  lemma ExecMovz(m: Machine, r: int, imm: int, st: State)
    requires 0 <= r < 31 && 0 <= imm < 0x1_0000
    ensures Exec(m, Movz(r, imm), st) == Some(Next(st.(x := st.x[r := imm])))
  {
  }

  lemma ExecMovk(m: Machine, r: int, hw: int, imm: int, st: State)
    requires 0 <= r < 31 && 1 <= hw < 4 && 0 <= imm < 0x1_0000
    ensures Exec(m, Movk(r, hw, imm), st) == Some(Next(st.(x := st.x[r := SetHw(st.x[r], hw, imm) % M64])))
  {
  }

  lemma ImmStep(im: Image, labs: map<int, int>, pos: int, items: seq<Item>, r: int, v: u64, st: State, st1: State,
      k: int)
    requires 0 <= r < 29 && 0 <= k < 4 && |items| >= 4 && Holding(im, labs, pos, items)
    requires Resolve(im, labs, items[k], pos + k) == Imm(r, v, k)
    requires st1.pc == PcOf(im, pos + k) && (k > 0 ==> st1.x == st.x[r := Partial(v, k - 1)])
    requires k == 0 ==> st1.x == st.x
    requires st1 == st.(x := st1.x, pc := st1.pc)
    ensures Reaches(im.m, st1, st.(x := st.x[r := Partial(v, k)], pc := PcOf(im, pos + k + 1)))
  {
    hide Step, Exec, Decode, Encode, Partial, SetHw, Reaches, Holding;
    PartialFirst(v);
    Fetch(im, labs, pos, items, k, st1);
    var st2 := st.(x := st.x[r := Partial(v, k)], pc := PcOf(im, pos + k + 1));
    if k == 0 {
      ExecMovz(im.m, r, v % 0x1_0000, st1);
    } else {
      FieldOf(v, k);
      PartialStep(v, k);
      ExecMovk(im.m, r, k, Imm(9, v, k).imm, st1);
      assert st1.x[r := Partial(v, k)] == st2.x;
    }
    ReachStep(im.m, st1, st2);
  }

  /** MOVZ and three MOVKs load any 64-bit constant and change nothing else. */
  lemma LoadImmOk(im: Image, labs: map<int, int>, pos: int, items: seq<Item>, r: int, v: u64, st: State)
      returns (st': State)
    requires 0 <= r < 29 && |items| >= 4 && Holding(im, labs, pos, items) && st.pc == PcOf(im, pos)
    requires forall k :: 0 <= k < 4 ==> Resolve(im, labs, items[k], pos + k) == Imm(r, v, k)
    ensures Reaches(im.m, st, st')
    ensures st' == st.(x := st.x[r := v], pc := PcOf(im, pos + 4))
  {
    hide Step, Partial, Reaches, Holding, Resolve;
    PartialAll(v);
    st' := st;
    ReachSelf(im.m, st);
    for k := 0 to 4
      invariant st'.pc == PcOf(im, pos + k) && Reaches(im.m, st, st')
      invariant st' == st.(x := if k == 0 then st.x else st.x[r := Partial(v, k - 1)], pc := st'.pc)
    {
      ImmStep(im, labs, pos, items, r, v, st, st', k);
      var next := st.(x := st.x[r := Partial(v, k)], pc := PcOf(im, pos + k + 1));
      ReachTrans(im.m, st, st', next);
      st' := next;
    }
  }
}
