/** The AArch64 instructions the generator emits: their 32-bit encodings, a decoder for
    them, and a machine that fetches and executes words from a code buffer. */
module Arm {
  import opened Word
  import opened Options

  datatype Cond = EQ | NE | LT | LE

  datatype Instr =
    | Push                               // str x0, [sp, #-16]!
    | Pop(t: int)                        // ldr xt, [sp], #16
    | AddRRR(d: int, n: int, m: int)
    | SubRRR(d: int, n: int, m: int)     // shifted-register form: register 31 is XZR
    | Mul(d: int, n: int, m: int)
    | Sdiv(d: int, n: int, m: int)
    | Msub(d: int, n: int, m: int, a: int)
    | AddImm(d: int, n: int, imm: int)   // immediate form: register 31 is SP
    | SubImm(d: int, n: int, imm: int)
    | CmpRR(n: int, m: int)
    | Cmp0(n: int)
    | Cset(d: int, c: Cond)
    | Ldr(t: int, n: int)
    | Str(t: int, n: int)
    | Ldrb(t: int, n: int)
    | Strb(t: int, n: int)
    | Movz(d: int, imm: int)
    | Movk(d: int, hw: int, imm: int)
    | Blr(n: int)
    | Ret
    | StpFrame                           // stp x29, x30, [sp, #-16]!
    | LdpFrame                           // ldp x29, x30, [sp], #16
    | B(delta: int)
    | Cbz(delta: int)                    // on x0
    | Cbnz(delta: int)
    | Bcond(c: Cond, delta: int)

  // ---------------------------------------------------------------- encoding

  function CondCode(c: Cond): int {
    match c case EQ => 0 case NE => 1 case LT => 11 case LE => 13
  }

  /** CSET is CSINC with the inverted condition: the source flips the low bit. */
  function Inverted(code: int): int { if code % 2 == 0 then code + 1 else code - 1 }

  predicate Reg(r: int) { 0 <= r < 32 }

  /** What the encodings can represent.  Branch distances are signed fields. */
  predicate Encodable(i: Instr) {
    match i
    case Push | Ret | StpFrame | LdpFrame => true
    case Pop(t) => Reg(t)
    case AddRRR(d, n, m) => Reg(d) && Reg(n) && Reg(m)
    case SubRRR(d, n, m) => Reg(d) && Reg(n) && Reg(m)
    case Mul(d, n, m) => Reg(d) && Reg(n) && Reg(m)
    case Sdiv(d, n, m) => Reg(d) && Reg(n) && Reg(m)
    case Msub(d, n, m, a) => Reg(d) && Reg(n) && Reg(m) && Reg(a)
    case AddImm(d, n, imm) => Reg(d) && Reg(n) && 0 <= imm < 0x1000
    case SubImm(d, n, imm) => Reg(d) && Reg(n) && 0 <= imm < 0x1000
    case CmpRR(n, m) => Reg(n) && Reg(m)
    case Cmp0(n) => Reg(n)
    case Cset(d, _) => Reg(d)
    case Ldr(t, n) => Reg(t) && Reg(n)
    case Str(t, n) => Reg(t) && Reg(n)
    case Ldrb(t, n) => Reg(t) && Reg(n)
    case Strb(t, n) => Reg(t) && Reg(n)
    case Movz(d, imm) => Reg(d) && 0 <= imm < 0x1_0000
    case Movk(d, hw, imm) => Reg(d) && 1 <= hw < 4 && 0 <= imm < 0x1_0000
    case Blr(n) => Reg(n)
    case B(delta) => -0x200_0000 <= delta < 0x200_0000
    case Cbz(delta) => -0x4_0000 <= delta < 0x4_0000
    case Cbnz(delta) => -0x4_0000 <= delta < 0x4_0000
    case Bcond(_, delta) => -0x4_0000 <= delta < 0x4_0000
  }

  /** The emitted word.  The fields never overlap, so `|` is written as a sum. */
  function Encode(i: Instr): int {
    match i
    case Push => 0xF81F0FE0
    case Pop(t) => 0xF84107E0 + t
    case AddRRR(d, n, m) => 0x8B000000 + m * 0x1_0000 + n * 32 + d
    case SubRRR(d, n, m) => 0xCB000000 + m * 0x1_0000 + n * 32 + d
    case Mul(d, n, m) => 0x9B000000 + m * 0x1_0000 + 0x1F * 0x400 + n * 32 + d
    case Sdiv(d, n, m) => 0x9AC00C00 + m * 0x1_0000 + n * 32 + d
    case Msub(d, n, m, a) => 0x9B008000 + m * 0x1_0000 + a * 0x400 + n * 32 + d
    case AddImm(d, n, imm) => 0x91000000 + (imm % 0x1000) * 0x400 + n * 32 + d
    case SubImm(d, n, imm) => 0xD1000000 + (imm % 0x1000) * 0x400 + n * 32 + d
    case CmpRR(n, m) => 0xEB000000 + m * 0x1_0000 + n * 32 + 0x1F
    case Cmp0(n) => 0xF100001F + n * 32
    case Cset(d, c) => 0x9A9F07E0 + Inverted(CondCode(c)) * 0x1000 + d
    case Ldr(t, n) => 0xF9400000 + n * 32 + t
    case Str(t, n) => 0xF9000000 + n * 32 + t
    case Ldrb(t, n) => 0x39400000 + n * 32 + t
    case Strb(t, n) => 0x39000000 + n * 32 + t
    case Movz(d, imm) => 0xD2800000 + (imm % 0x1_0000) * 32 + d
    case Movk(d, hw, imm) => 0xF2800000 + hw * 0x20_0000 + (imm % 0x1_0000) * 32 + d
    case Blr(n) => 0xD63F0000 + n * 32
    case Ret => 0xD65F03C0
    case StpFrame => 0xA9BF7BFD
    case LdpFrame => 0xA8C17BFD
    case B(delta) => 0x14000000 + delta % 0x400_0000
    case Cbz(delta) => 0xB4000000 + (delta % 0x8_0000) * 32
    case Cbnz(delta) => 0xB5000000 + (delta % 0x8_0000) * 32
    case Bcond(c, delta) => 0x54000000 + (delta % 0x8_0000) * 32 + CondCode(c)
  }

  // ---------------------------------------------------------------- decoding

  /** Bits 31..21, 20..16, 15..10, 9..5 and 4..0. */
  datatype Fields = Fields(top: int, m: int, mid: int, n: int, d: int)

  function Split(w: int): Fields {
    var q5 := w / 32;
    var q10 := q5 / 32;
    var q16 := q10 / 64;
    Fields(q16 / 32, q16 % 32, q10 % 64, q5 % 32, w % 32)
  }

  function Join(f: Fields): int { f.top * 0x20_0000 + f.m * 0x1_0000 + f.mid * 0x400 + f.n * 32 + f.d }

  predicate Sized(f: Fields) {
    0 <= f.m < 32 && 0 <= f.mid < 64 && 0 <= f.n < 32 && 0 <= f.d < 32
  }

  function Imm12(f: Fields): int { (f.top % 2) * 0x800 + f.m * 64 + f.mid }
  function Imm16(f: Fields): int { f.m * 0x800 + f.mid * 32 + f.n }
  function Imm19(f: Fields): int { (f.top % 8) * 0x1_0000 + f.m * 0x800 + f.mid * 32 + f.n }
  function Imm26(f: Fields): int { (f.top % 32) * 0x20_0000 + f.m * 0x1_0000 + f.mid * 0x400 + f.n * 32 + f.d }

  function SignField(f: int, half: int): int { if f >= half then f - 2 * half else f }

  function DecodeCond(code: int): Option<Cond> {
    if code == 0 then Some(EQ) else if code == 1 then Some(NE)
    else if code == 11 then Some(LT) else if code == 13 then Some(LE) else None
  }

  function DecodeRegs(f: Fields): Option<Instr> {
    if f.top == 0x458 && f.mid == 0 then Some(AddRRR(f.d, f.n, f.m))
    else if f.top == 0x658 && f.mid == 0 then Some(SubRRR(f.d, f.n, f.m))
    else if f.top == 0x758 && f.mid == 0 && f.d == 31 then Some(CmpRR(f.n, f.m))
    else if f.top == 0x4D6 && f.mid == 3 then Some(Sdiv(f.d, f.n, f.m))
    else if f.top == 0x4D8 && f.mid == 31 then Some(Mul(f.d, f.n, f.m))
    else if f.top == 0x4D8 && f.mid >= 32 then Some(Msub(f.d, f.n, f.m, f.mid - 32))
    else if f.top == 0x4D4 && f.m == 31 && f.mid % 4 == 1 && f.n == 31 then
      match DecodeCond(Inverted(f.mid / 4)) { case Some(c) => Some(Cset(f.d, c)) case None => None }
    else if f.top == 0x694 then Some(Movz(f.d, Imm16(f)))
    else if 0x795 <= f.top <= 0x797 then Some(Movk(f.d, f.top - 0x794, Imm16(f)))
    else if f.top == 0x6B1 && f.m == 31 && f.mid == 0 && f.d == 0 then Some(Blr(f.n))
    else None
  }

  function DecodeImms(f: Fields): Option<Instr> {
    var t := f.top / 2;
    if t == 0x244 then Some(AddImm(f.d, f.n, Imm12(f)))
    else if t == 0x344 then Some(SubImm(f.d, f.n, Imm12(f)))
    else if t == 0x3C4 && f.d == 31 && Imm12(f) == 0 then Some(Cmp0(f.n))
    else if t == 0x3E5 && Imm12(f) == 0 then Some(Ldr(f.d, f.n))
    else if t == 0x3E4 && Imm12(f) == 0 then Some(Str(f.d, f.n))
    else if t == 0x0E5 && Imm12(f) == 0 then Some(Ldrb(f.d, f.n))
    else if t == 0x0E4 && Imm12(f) == 0 then Some(Strb(f.d, f.n))
    else DecodeRegs(f)
  }

  function DecodeBranches(f: Fields): Option<Instr> {
    if f.top / 32 == 5 then Some(B(SignField(Imm26(f), 0x200_0000)))
    else if f.top / 8 == 0xB4 && f.d == 0 then Some(Cbz(SignField(Imm19(f), 0x4_0000)))
    else if f.top / 8 == 0xB5 && f.d == 0 then Some(Cbnz(SignField(Imm19(f), 0x4_0000)))
    else if f.top / 8 == 0x54 && f.d < 16 then
      match DecodeCond(f.d) { case Some(c) => Some(Bcond(c, SignField(Imm19(f), 0x4_0000))) case None => None }
    else DecodeImms(f)
  }

  function DecodeFields(f: Fields): Option<Instr> {
    if f == Fields(0x7C0, 31, 3, 31, 0) then Some(Push)
    else if f == Fields(0x7C2, 1, 1, 31, f.d) then Some(Pop(f.d))
    else if f == Fields(0x54D, 31, 30, 31, 29) then Some(StpFrame)
    else if f == Fields(0x546, 1, 30, 31, 29) then Some(LdpFrame)
    else if f == Fields(0x6B2, 31, 0, 30, 0) then Some(Ret)
    else DecodeBranches(f)
  }

  function Decode(w: int): Option<Instr> { DecodeFields(Split(w)) }

  lemma SplitJoin(f: Fields)
    requires Sized(f)
    ensures Split(Join(f)) == f
  {
    assert Join(f) == (((f.top * 32 + f.m) * 64 + f.mid) * 32 + f.n) * 32 + f.d;
    assert Join(f) / 32 == ((f.top * 32 + f.m) * 64 + f.mid) * 32 + f.n;
    assert Join(f) / 32 / 32 == (f.top * 32 + f.m) * 64 + f.mid;
    assert Join(f) / 32 / 32 / 64 == f.top * 32 + f.m;
  }

  /** The fields each instruction is encoded with. */
  function FieldsOf(i: Instr): Fields
    requires Encodable(i)
  {
    match i
    case Push => Fields(0x7C0, 31, 3, 31, 0)
    case Pop(t) => Fields(0x7C2, 1, 1, 31, t)
    case AddRRR(d, n, m) => Fields(0x458, m, 0, n, d)
    case SubRRR(d, n, m) => Fields(0x658, m, 0, n, d)
    case Mul(d, n, m) => Fields(0x4D8, m, 31, n, d)
    case Sdiv(d, n, m) => Fields(0x4D6, m, 3, n, d)
    case Msub(d, n, m, a) => Fields(0x4D8, m, 32 + a, n, d)
    case AddImm(d, n, imm) => ImmFields(0x488, imm, n, d)
    case SubImm(d, n, imm) => ImmFields(0x688, imm, n, d)
    case CmpRR(n, m) => Fields(0x758, m, 0, n, 31)
    case Cmp0(n) => Fields(0x788, 0, 0, n, 31)
    case Cset(d, c) => Fields(0x4D4, 31, 4 * Inverted(CondCode(c)) + 1, 31, d)
    case Ldr(t, n) => Fields(0x7CA, 0, 0, n, t)
    case Str(t, n) => Fields(0x7C8, 0, 0, n, t)
    case Ldrb(t, n) => Fields(0x1CA, 0, 0, n, t)
    case Strb(t, n) => Fields(0x1C8, 0, 0, n, t)
    case Movz(d, imm) => MoveFields(0x694, imm, d)
    case Movk(d, hw, imm) => MoveFields(0x794 + hw, imm, d)
    case Blr(n) => Fields(0x6B1, 31, 0, n, 0)
    case Ret => Fields(0x6B2, 31, 0, 30, 0)
    case StpFrame => Fields(0x54D, 31, 30, 31, 29)
    case LdpFrame => Fields(0x546, 1, 30, 31, 29)
    case B(delta) => JumpFields(delta % 0x400_0000)
    case Cbz(delta) => BranchFields(0x5A0, delta % 0x8_0000, 0)
    case Cbnz(delta) => BranchFields(0x5A8, delta % 0x8_0000, 0)
    case Bcond(c, delta) => BranchFields(0x2A0, delta % 0x8_0000, CondCode(c))
  }

  function BranchFields(top: int, u: int, d: int): Fields {
    Fields(top + u / 0x1_0000, u / 0x800 % 32, u / 32 % 64, u % 32, d)
  }

  function JumpFields(u: int): Fields {
    Fields(0xA0 + u / 0x20_0000, u / 0x1_0000 % 32, u / 0x400 % 64, u / 32 % 32, u % 32)
  }

  function ImmFields(top: int, imm: int, n: int, d: int): Fields {
    Fields(top + imm / 0x800, imm / 64 % 32, imm % 64, n, d)
  }

  function MoveFields(top: int, imm: int, d: int): Fields {
    Fields(top, imm / 0x800, imm / 32 % 64, imm % 32, d)
  }

  predicate IsBranch(i: Instr) { i.B? || i.Cbz? || i.Cbnz? || i.Bcond? }
  predicate IsImm(i: Instr) { i.AddImm? || i.SubImm? }
  predicate IsMove(i: Instr) { i.Movz? || i.Movk? }

  lemma Digits19(u: int)
    requires 0 <= u < 0x8_0000
    ensures u == u / 0x1_0000 * 0x1_0000 + u / 0x800 % 32 * 0x800 + u / 32 % 64 * 32 + u % 32
    ensures u / 0x1_0000 < 8
  {
    assert u / 0x800 == u / 32 / 64 && u / 0x1_0000 == u / 0x800 / 32;
  }

  lemma Digits26(u: int)
    requires 0 <= u < 0x400_0000
    ensures u == u / 0x20_0000 * 0x20_0000 + u / 0x1_0000 % 32 * 0x1_0000 + u / 0x400 % 64 * 0x400 + u / 32 % 32 * 32
            + u % 32
    ensures u / 0x20_0000 < 32
  {
    assert u / 0x400 == u / 32 / 32 && u / 0x1_0000 == u / 0x400 / 64 && u / 0x20_0000 == u / 0x1_0000 / 32;
  }

  lemma Joins19(top: int, u: int, d: int)
    requires 0 <= u < 0x8_0000 && 0 <= d < 32 && top % 8 == 0
    ensures var f := BranchFields(top, u, d);
            Sized(f) && Join(f) == top * 0x20_0000 + u * 32 + d && Imm19(f) == u && top <= f.top < top + 8 && f.d == d
  {
    Digits19(u);
  }

  lemma Joins26(u: int)
    requires 0 <= u < 0x400_0000
    ensures var f := JumpFields(u);
            Sized(f) && Join(f) == 0x14000000 + u && Imm26(f) == u && 0xA0 <= f.top < 0xC0
  {
    Digits26(u);
  }

  lemma Joins12(top: int, imm: int, n: int, d: int)
    requires 0 <= imm < 0x1000 && Reg(n) && Reg(d) && top % 2 == 0
    ensures var f := ImmFields(top, imm, n, d);
            Sized(f) && Join(f) == top * 0x20_0000 + imm * 0x400 + n * 32 + d && Imm12(f) == imm
              && (f.top == top || f.top == top + 1) && f.n == n && f.d == d
  {
    var q := imm / 64;
    assert imm == 64 * q + imm % 64 && imm / 0x800 == q / 32;
  }

  lemma Joins16(top: int, imm: int, d: int)
    requires 0 <= imm < 0x1_0000 && Reg(d)
    ensures var f := MoveFields(top, imm, d);
            Sized(f) && Join(f) == top * 0x20_0000 + imm * 32 + d && Imm16(f) == imm && f.top == top && f.d == d
  {
    var q := imm / 32;
    assert imm == 32 * q + imm % 32 && imm / 0x800 == q / 64;
  }

  lemma BranchJoins(i: Instr)
    requires Encodable(i) && IsBranch(i)
    ensures Sized(FieldsOf(i)) && Encode(i) == Join(FieldsOf(i))
    ensures DecodeFields(FieldsOf(i)) == Some(i)
  {
    hide BranchFields, JumpFields, Imm19, Imm26, Join;
    match i
    case B(delta) => Joins26(delta % 0x400_0000);
    case Cbz(delta) => Joins19(0x5A0, delta % 0x8_0000, 0);
    case Cbnz(delta) => Joins19(0x5A8, delta % 0x8_0000, 0);
    case Bcond(c, delta) => Joins19(0x2A0, delta % 0x8_0000, CondCode(c));
  }

  lemma ImmJoins(i: Instr)
    requires Encodable(i) && IsImm(i)
    ensures Sized(FieldsOf(i)) && Encode(i) == Join(FieldsOf(i))
    ensures DecodeFields(FieldsOf(i)) == Some(i)
  {
    hide ImmFields, Imm12, Imm16, Join;
    if i.AddImm? { Joins12(0x488, i.imm, i.n, i.d); } else { Joins12(0x688, i.imm, i.n, i.d); }
  }

  lemma MoveJoins(i: Instr)
    requires Encodable(i) && IsMove(i)
    ensures Sized(FieldsOf(i)) && Encode(i) == Join(FieldsOf(i))
    ensures DecodeFields(FieldsOf(i)) == Some(i)
  {
    hide ImmFields, Imm12, Imm16, Join;
    if i.Movz? { Joins16(0x694, i.imm, i.d); } else { Joins16(0x794 + i.hw, i.imm, i.d); }
  }

  predicate IsPlain(i: Instr) { i.AddRRR? || i.SubRRR? || i.Mul? || i.Sdiv? || i.Msub? || i.CmpRR? || i.Cset? }

  lemma PlainJoins(i: Instr)
    requires Encodable(i) && IsPlain(i)
    ensures Sized(FieldsOf(i)) && Encode(i) == Join(FieldsOf(i))
    ensures DecodeFields(FieldsOf(i)) == Some(i)
  {
    hide Encode, Join, FieldsOf, DecodeFields, Sized;
    if i.AddRRR? || i.SubRRR? || i.CmpRR? { SumJoins(i); } else { ProductJoins(i); }
  }

  lemma SumJoins(i: Instr)
    requires Encodable(i) && (i.AddRRR? || i.SubRRR? || i.CmpRR?)
    ensures Sized(FieldsOf(i)) && Encode(i) == Join(FieldsOf(i))
    ensures DecodeFields(FieldsOf(i)) == Some(i)
  {
    var f := FieldsOf(i);
    assert DecodeFields(f) == DecodeRegs(f);
  }

  lemma ProductJoins(i: Instr)
    requires Encodable(i) && (i.Mul? || i.Sdiv? || i.Msub? || i.Cset?)
    ensures Sized(FieldsOf(i)) && Encode(i) == Join(FieldsOf(i))
    ensures DecodeFields(FieldsOf(i)) == Some(i)
  {
    var f := FieldsOf(i);
    assert DecodeFields(f) == DecodeRegs(f);
  }

  lemma OtherJoins(i: Instr)
    requires Encodable(i) && !IsPlain(i) && !IsBranch(i) && !IsImm(i) && !IsMove(i)
    ensures Sized(FieldsOf(i)) && Encode(i) == Join(FieldsOf(i))
    ensures DecodeFields(FieldsOf(i)) == Some(i)
  {
    hide ImmFields, MoveFields, JumpFields, BranchFields;
  }

  /** Decoding an emitted word gives the instruction back, negative branch distances
      included: no two emitted forms collide. */
  lemma DecodeEncode(i: Instr)
    requires Encodable(i)
    ensures Decode(Encode(i)) == Some(i)
  {
    hide FieldsOf, DecodeFields, Join, Split, Encode, Encodable;
    if IsBranch(i) {
      BranchJoins(i);
    } else if IsImm(i) {
      ImmJoins(i);
    } else if IsMove(i) {
      MoveJoins(i);
    } else if IsPlain(i) {
      PlainJoins(i);
    } else {
      OtherJoins(i);
    }
    SplitJoin(FieldsOf(i));
  }
}
