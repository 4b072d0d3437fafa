/** A machine that fetches, decodes and executes the words of a code buffer. */
module Cpu {
  import opened Word
  import opened Mem
  import opened Options
  import opened Arm
  import Run

  /** x0..x30. */
  type Regs = s: seq<u64> | |s| == 31 witness seq(31, _ => 0)

  /** A completed call of a kernel builtin: its address and the arguments it read. */
  datatype Event = Event(addr: int, args: seq<u64>)

  /** The builtins are uninterpreted: `arity` says how many argument registers the one at
      an address reads, `sees` which bytes of memory the last call of a history depends on;
      given these, `puts` says what it stores and `answer` what it returns. */
  datatype World = World(arity: map<int, nat>, sees: seq<Event> -> set<int>, puts: (seq<Event>, Memory) -> Memory,
      answer: (seq<Event>, Memory) -> u64)

  /** `junk` is what a builtin leaves in the registers the procedure call standard
      (AAPCS64, section 6.1.1) lets it clobber. */
  datatype Machine = Machine(code: seq<int>, base: int, world: World, junk: seq<Event> -> Regs)

  datatype State = State(x: Regs, sp: int, pc: int, fl: Flags, mem: Memory, hist: seq<Event>)

  function Get(st: State, r: int): u64
    requires 0 <= r < 32
  {
    if r == 31 then 0 else st.x[r]
  }

  function GetSP(st: State, r: int): int
    requires 0 <= r < 32
  {
    if r == 31 then st.sp else st.x[r]
  }

  function Put(st: State, r: int, v: u64): State
    requires 0 <= r < 32
  {
    if r == 31 then st else st.(x := st.x[r := v])
  }

  function PutSP(st: State, r: int, v: int): State
    requires 0 <= r < 32 && 0 <= v < M64
  {
    if r == 31 then st.(sp := v) else st.(x := st.x[r := v])
  }

  predicate Holds(fl: Flags, c: Cond) {
    match c
    case EQ => fl.z
    case NE => !fl.z
    case LT => fl.n != fl.v
    case LE => fl.z || fl.n != fl.v
  }

  function Hw(hw: int): int {
    if hw == 0 then 1 else if hw == 1 then 0x1_0000 else if hw == 2 then 0x1_0000_0000 else 0x1_0000_0000_0000
  }

  /** Replace one 16-bit field. */
  function SetHw(v: u64, hw: int, imm: int): int {
    v + (imm - (v / Hw(hw)) % 0x1_0000) * Hw(hw)
  }

  function Next(st: State): State { st.(pc := st.pc + 4) }

  /** Doubleword accesses must be aligned: the MMU attributes of the JIT heap give no
      unaligned support, and SP-based accesses check SP for 16-byte alignment. */
  predicate CanAccess(st: State, a: int) { a % 8 == 0 && Has(st.mem, a, 8) }

  predicate InCode(m: Machine, a: int) {
    m.base <= a < m.base + 4 * |m.code| && (a - m.base) % 4 == 0
  }

  function CallBuiltin(m: Machine, st: State, a: int): Option<State> {
    if a !in m.world.arity || m.world.arity[a] > 8 then None
    else
      var h := st.hist + [Event(a, st.x[..m.world.arity[a]])];
      var j := m.junk(h);
      var seen := View(st.mem, m.world.sees(h));
      var out := m.world.puts(h, seen);
      if !(m.world.sees(h) <= st.mem.Keys && out.Keys <= st.mem.Keys) then None
      else Some(st.(x := [m.world.answer(h, seen)] + j[1..19] + st.x[19..30] + j[30..], hist := h, mem := st.mem + out))
  }

  /** One instruction; None is a fault. */
  function Exec(m: Machine, i: Instr, st: State): Option<State>
    requires Encodable(i)
  {
    match i
    case Push =>
      if st.sp % 16 == 0 && CanAccess(st, st.sp - 16)
      then Some(Next(st.(mem := Store8(st.mem, st.sp - 16, st.x[0]), sp := st.sp - 16))) else None
    case Pop(t) =>
      if st.sp % 16 == 0 && CanAccess(st, st.sp)
      then Some(Next(Put(st, t, Load8(st.mem, st.sp)).(sp := st.sp + 16))) else None
    case AddRRR(d, n, r) => Some(Next(Put(st, d, RAdd(Get(st, n), Get(st, r)))))
    case SubRRR(d, n, r) => Some(Next(Put(st, d, RSub(Get(st, n), Get(st, r)))))
    case Mul(d, n, r) => Some(Next(Put(st, d, RMul(Get(st, n), Get(st, r)))))
    case Sdiv(d, n, r) => Some(Next(Put(st, d, RSdiv(Get(st, n), Get(st, r)))))
    case Msub(d, n, r, a) => Some(Next(Put(st, d, RMsub(Get(st, a), Get(st, n), Get(st, r)))))
    case AddImm(d, n, imm) => Some(Next(PutSP(st, d, (GetSP(st, n) + imm) % M64)))
    case SubImm(d, n, imm) => Some(Next(PutSP(st, d, (GetSP(st, n) - imm) % M64)))
    case CmpRR(n, r) => Some(Next(st.(fl := SubFlags(Get(st, n), Get(st, r)))))
    case Cmp0(n) => Some(Next(st.(fl := SubFlags(Get(st, n), 0))))
    case Cset(d, c) => Some(Next(Put(st, d, if Holds(st.fl, c) then 1 else 0)))
    case Ldr(t, n) =>
      if CanAccess(st, GetSP(st, n)) then Some(Next(Put(st, t, Load8(st.mem, GetSP(st, n))))) else None
    case Str(t, n) =>
      if CanAccess(st, GetSP(st, n)) then Some(Next(st.(mem := Store8(st.mem, GetSP(st, n), Get(st, t))))) else None
    case Ldrb(t, n) =>
      if GetSP(st, n) in st.mem then Some(Next(Put(st, t, st.mem[GetSP(st, n)]))) else None
    case Strb(t, n) =>
      if GetSP(st, n) in st.mem then Some(Next(st.(mem := st.mem[GetSP(st, n) := Get(st, t) % 256]))) else None
    case Movz(d, imm) => Some(Next(Put(st, d, imm)))
    case Movk(d, hw, imm) => Some(Next(Put(st, d, SetHw(Get(st, d), hw, imm) % M64)))
    case Blr(n) =>
      if InCode(m, Get(st, n)) then Some(Put(st, 30, (st.pc + 4) % M64).(pc := Get(st, n)))
      else (match CallBuiltin(m, st, Get(st, n)) case Some(s) => Some(Next(s)) case None => None)
    case Ret => Some(st.(pc := st.x[30]))
    case StpFrame =>
      if st.sp % 16 == 0 && CanAccess(st, st.sp - 16) && CanAccess(st, st.sp - 8)
      then Some(Next(st.(mem := Store8(Store8(st.mem, st.sp - 16, st.x[29]), st.sp - 8, st.x[30]), sp := st.sp - 16)))
      else None
    case LdpFrame =>
      if st.sp % 16 == 0 && CanAccess(st, st.sp) && CanAccess(st, st.sp + 8)
      then Some(Next(Put(Put(st, 29, Load8(st.mem, st.sp)), 30, Load8(st.mem, st.sp + 8)).(sp := st.sp + 16)))
      else None
    case B(delta) => Some(st.(pc := st.pc + 4 * delta))
    case Cbz(delta) => Some(if st.x[0] == 0 then st.(pc := st.pc + 4 * delta) else Next(st))
    case Cbnz(delta) => Some(if st.x[0] != 0 then st.(pc := st.pc + 4 * delta) else Next(st))
    case Bcond(c, delta) => Some(if Holds(st.fl, c) then st.(pc := st.pc + 4 * delta) else Next(st))
  }

  lemma ExecPush(m: Machine, st: State)
    requires st.sp % 16 == 0 && CanAccess(st, st.sp - 16)
    ensures Exec(m, Push, st) == Some(Next(st.(mem := Store8(st.mem, st.sp - 16, st.x[0]), sp := st.sp - 16)))
  {
    hide Store8, Load8, CanAccess;
  }

  lemma ExecPop(m: Machine, st: State, r: int)
    requires 0 <= r < 31 && st.sp % 16 == 0 && CanAccess(st, st.sp)
    ensures Exec(m, Pop(r), st) == Some(Next(st.(x := st.x[r := Load8(st.mem, st.sp)], sp := st.sp + 16)))
  {
    hide Store8, Load8, CanAccess;
  }

  function Step(m: Machine, st: State): Option<State> {
    if InCode(m, st.pc) then
      match Decode(m.code[(st.pc - m.base) / 4])
      case Some(i) => if Encodable(i) then Exec(m, i, st) else None
      case None => None
    else None
  }

  ghost function Stepper(m: Machine): State -> Option<State> { (st: State) => Step(m, st) }

  ghost predicate Reaches(m: Machine, a: State, b: State) { Run.Reaches(Stepper(m), a, b) }

  lemma ReachSelf(m: Machine, a: State)
    ensures Reaches(m, a, a)
  {
    Run.ReachSelf(Stepper(m), a);
  }

  lemma ReachStep(m: Machine, a: State, b: State)
    requires Step(m, a) == Some(b)
    ensures Reaches(m, a, b)
  {
    Run.ReachStep(Stepper(m), a, b);
  }

  lemma ReachTrans(m: Machine, a: State, b: State, c: State)
    requires Reaches(m, a, b) && Reaches(m, b, c)
    ensures Reaches(m, a, c)
  {
    Run.ReachTrans(Stepper(m), a, b, c);
  }
}
