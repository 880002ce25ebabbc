/**
 * What one handler of src/core/cpu.cpp does to the registers and to memory,
 * and how many cycles it returns. The CPU sees memory through IMmu
 * (read_byte, read_word, write_byte, write_word); as in the unit test's mock,
 * that memory is a 64K byte map whose words are little-endian. The imperative
 * Cpu class (cpu.dfy) is proved to do what these functions say.
 *
 * A handler starts after `execute` has fetched its opcode, so pc already
 * points at the first operand byte.
 */
module Machine {
  import opened Bytes
  import opened Alu
  import opened Opcodes

  /** ICpu::Registers. f is held as the Flags it stands for (see FlagsOfByte). */
  datatype Registers = Registers(
    a: byte, b: byte, c: byte, d: byte, e: byte, h: byte, l: byte, f: Flags,
    pc: word, sp: word)

  /** The registers of a value-initialised ICpu::Registers{}. */
  const ZeroRegisters := Registers(0, 0, 0, 0, 0, 0, 0, Cleared, 0, 0)

  /** The 64K address space as the CPU sees it. */
  type Memory = m: seq<byte> | |m| == 0x1_0000 witness seq(0x1_0000, _ => 0)

  datatype State = State(regs: Registers, mem: Memory)

  /** What a handler leaves behind, and the cycle count it returns. */
  datatype Outcome = Outcome(state: State, cycles: int)

  // ---------------------------------------------------------------------
  // Memory (IMmu)
  // ---------------------------------------------------------------------

  function ReadByte(m: Memory, addr: word): byte {
    m[addr]
  }

  /** Little-endian: the low byte at addr, the high byte at addr + 1. */
  function ReadWord(m: Memory, addr: word): word {
    WordOf(m[Wrap16(addr + 1)], m[addr])
  }

  function WriteByte(m: Memory, addr: word, v: byte): Memory {
    m[addr := v]
  }

  /** A byte written is read back, and no other byte changes. */
  lemma ReadWriteByte(m: Memory, addr: word, v: byte, a: word)
    ensures ReadByte(WriteByte(m, addr, v), a) == if a == addr then v else ReadByte(m, a)
  {
  }

  function WriteWord(m: Memory, addr: word, v: word): Memory {
    WriteByte(WriteByte(m, addr, Low(v)), Wrap16(addr + 1), High(v))
  }

  /** A word written is read back, and only its two bytes change. */
  lemma ReadWriteWord(m: Memory, addr: word, v: word)
    ensures ReadWord(WriteWord(m, addr, v), addr) == v
    ensures forall a: word | a != addr && a != Wrap16(addr + 1) ::
      ReadByte(WriteWord(m, addr, v), a) == ReadByte(m, a)
  {
    WordOfParts(v);
    Wrap16Once(addr + 1);
  }

  // ---------------------------------------------------------------------
  // Registers
  // ---------------------------------------------------------------------

  function Get(r: Registers, x: Reg8): byte {
    match x
    case A => r.a
    case B => r.b
    case C => r.c
    case D => r.d
    case E => r.e
    case H => r.h
    case L => r.l
  }

  function Set(r: Registers, x: Reg8, v: byte): (r': Registers)
    ensures Get(r', x) == v
    ensures r'.f == r.f && r'.pc == r.pc && r'.sp == r.sp
  {
    match x
    case A => r.(a := v)
    case B => r.(b := v)
    case C => r.(c := v)
    case D => r.(d := v)
    case E => r.(e := v)
    case H => r.(h := v)
    case L => r.(l := v)
  }

  /** `(h << 8) + l`. */
  function Hl(r: Registers): word {
    WordOf(r.h, r.l)
  }

  /**
   * The high and low byte of a pair: f as its byte in af, and
   * `static_cast<uint8_t>(sp >> 8)`, `static_cast<uint8_t>(sp)` for sp.
   */
  function PairHigh(r: Registers, p: Pair): byte {
    match p
    case BC => r.b
    case DE => r.d
    case HL => r.h
    case SP => High(r.sp)
    case AF => r.a
  }

  function PairLow(r: Registers, p: Pair): byte {
    match p
    case BC => r.c
    case DE => r.e
    case HL => r.l
    case SP => Low(r.sp)
    case AF => FlagsByte(r.f)
  }

  /** Stores high and low into a pair (`pop_r16`'s by-reference pair); into af, low is read as flags. */
  function SetPair(r: Registers, p: Pair, high: byte, low: byte): (r': Registers)
    ensures r'.pc == r.pc
    ensures p != SP ==> r'.sp == r.sp
  {
    match p
    case BC => r.(b := high, c := low)
    case DE => r.(d := high, e := low)
    case HL => r.(h := high, l := low)
    case SP => r.(sp := WordOf(high, low))
    case AF => r.(a := high, f := FlagsOfByte(low))
  }

  /** A pair reads back what was stored into it; for af this needs the flags round trip. */
  lemma SetPairGet(r: Registers, p: Pair, high: byte, low: byte)
    ensures PairHigh(SetPair(r, p, high, low), p) == high
    ensures PairLow(SetPair(r, p, high, low), p) == low
  {
    if p == AF {
      ByteFlagsRoundTrip(low);
    } else if p == SP {
      PartsOfWord(high, low);
    }
  }

  /** The pair as a word: `(b << 8) + c` and so on. */
  function PairWord(r: Registers, p: Pair): word {
    WordOf(PairHigh(r, p), PairLow(r, p))
  }

  function Holds(cond: Cond, f: Flags): bool {
    match cond
    case NZ => !f.z
    case Z => f.z
    case NC => !f.c
    case CY => f.c
  }

  // ---------------------------------------------------------------------
  // Operand fetch
  // ---------------------------------------------------------------------

  /** `mmu.read_byte(pc++)`. */
  function Fetched(s: State): byte {
    ReadByte(s.mem, s.regs.pc)
  }

  function AfterFetch(s: State): State {
    s.(regs := s.regs.(pc := Wrap16(s.regs.pc + 1)))
  }

  /** `mmu.read_word(pc)`, the operand word of a three-byte instruction. */
  function ImmWord(s: State): word {
    ReadWord(s.mem, s.regs.pc)
  }

  /** `pc += 2` after an operand word. */
  function SkipWord(r: Registers): Registers {
    r.(pc := Wrap16(r.pc + 2))
  }

  // ---------------------------------------------------------------------
  // cpu.h helpers lifted to the machine: push_r16, pop_r16, rst, ALU ops
  // ---------------------------------------------------------------------

  /** push_r16: `write_byte(--sp, high); write_byte(--sp, low)`. */
  function PushBytes(s: State, high: byte, low: byte): (s': State)
    ensures s'.regs == s.regs.(sp := Wrap16(s.regs.sp - 2))
    ensures ReadByte(s'.mem, Wrap16(s.regs.sp - 1)) == high
    ensures ReadByte(s'.mem, Wrap16(s.regs.sp - 2)) == low
    ensures forall a: word | a != Wrap16(s.regs.sp - 1) && a != Wrap16(s.regs.sp - 2) ::
      ReadByte(s'.mem, a) == ReadByte(s.mem, a)
  {
    var sp1 := Wrap16(s.regs.sp - 1);
    var m1 := WriteByte(s.mem, sp1, high);
    var sp2 := Wrap16(sp1 - 1);
    State(s.regs.(sp := sp2), WriteByte(m1, sp2, low))
  }

  /** pop_r16: `low = read_byte(sp++); high = read_byte(sp++)`; returns (high, low). */
  function PopBytes(s: State): (byte, byte) {
    (ReadByte(s.mem, Wrap16(s.regs.sp + 1)), ReadByte(s.mem, s.regs.sp))
  }

  function PopSp(r: Registers): Registers {
    r.(sp := Wrap16(Wrap16(r.sp + 1) + 1))
  }

  /** `write_word(sp - 2, v); sp -= 2`, as rst and call do it. */
  function PushWord(s: State, v: word): (s': State)
    ensures s'.regs == s.regs.(sp := Wrap16(s.regs.sp - 2))
    ensures ReadWord(s'.mem, s'.regs.sp) == v
    ensures forall a: word | a != Wrap16(s.regs.sp - 1) && a != Wrap16(s.regs.sp - 2) ::
      ReadByte(s'.mem, a) == ReadByte(s.mem, a)
  {
    var sp' := Wrap16(s.regs.sp - 2);
    ReadWriteWord(s.mem, sp', v);
    State(s.regs.(sp := sp'), WriteWord(s.mem, sp', v))
  }

  /** The eight accumulator operations applied to a and f. */
  function AluResult(op: AluOp, a: byte, v: byte, f: Flags): ByteResult {
    match op
    case AddA => AddR8(a, v)
    case AdcA => AdcR8(a, v, f)
    case SubA => SubR8(a, v)
    case SbcA => SbcR8(a, v, f)
    case AndA => AndR8(a, v)
    case XorA => XorR8(a, v)
    case OrA => OrR8(a, v)
    case CpA => CpR8(a, v)
  }

  function AccResult(op: AccOp, a: byte, f: Flags): ByteResult {
    match op
    case Rlca => Alu.Rlca(a)
    case Rrca => Alu.Rrca(a)
    case Rla => Alu.Rla(a, f)
    case Rra => Alu.Rra(a, f)
    case Daa => Alu.Daa(a, f)
    case Cpl => Alu.Cpl(a, f)
    case Scf => ByteResult(a, Alu.Scf(f))
    case Ccf => ByteResult(a, Alu.Ccf(f))
  }

  function ShiftResult(op: ShiftOp, v: byte, f: Flags): ByteResult {
    match op
    case Rlc => RlcR8(v)
    case Rrc => RrcR8(v)
    case Rl => RlR8(v, f)
    case Rr => RrR8(v, f)
    case Sla => SlaR8(v)
    case Sra => SraR8(v)
    case Swap => SwapR8(v)
    case Srl => SrlR8(v)
  }

  /** `int offset = int8_t(read_byte(pc)) + 2; pc += offset - 1`. */
  function RelativeTarget(s: State): word {
    var offset := Int8(Fetched(s)) + 2;
    Wrap16(s.regs.pc + offset - 1)
  }

  /** jr_c_r8: the same, but `int8_t offset`, so the + 2 wraps at 0x7F. */
  function CarryRelativeTarget(s: State): word {
    var offset := WrapInt8(Int8(Fetched(s)) + 2);
    Wrap16(s.regs.pc + offset - 1)
  }

  /** `f &= 0x30`: H and C stay, Z, N and the low nibble clear. */
  function KeepHC(f: Flags): Flags {
    Cleared.(h := f.h, c := f.c)
  }

  // ---------------------------------------------------------------------
  // The handlers, by family
  // ---------------------------------------------------------------------

  /** Handlers that touch no memory and move nothing but pc and sp. */
  function ExecControl(s: State, h: ControlOp): (o: Outcome)
    ensures o.state.mem == s.mem
    ensures 0 <= o.cycles <= 4 && (o.cycles == 0 <==> h.Unimplemented?)
  {
    var r := s.regs;
    match h
    case Nop => Outcome(s, 1)
    case Stop => Outcome(State(r.(pc := Wrap16(r.pc + 1)), s.mem), 1)
    case Halt => Outcome(s, 1)
    case Di => Outcome(s, 1)
    case Ei => Outcome(s, 1)
    case Reti => Outcome(s, 4)
    case Unimplemented => Outcome(s, 0)
    case Jr => Outcome(State(r.(pc := RelativeTarget(s)), s.mem), 3)
    case JrIf(cond) =>
      if Holds(cond, r.f) then Outcome(State(r.(pc := RelativeTarget(s)), s.mem), 3)
      else Outcome(State(r.(pc := Wrap16(r.pc + 1)), s.mem), 2)
    case JrIfCarry =>
      if r.f.c then Outcome(State(r.(pc := CarryRelativeTarget(s)), s.mem), 3)
      else Outcome(State(r.(pc := Wrap16(r.pc + 1)), s.mem), 2)
    case JpIf(cond) =>
      if Holds(cond, r.f) then Outcome(State(r.(pc := ImmWord(s)), s.mem), 4)
      else Outcome(s, 3)
    case Jp => Outcome(State(r.(pc := ImmWord(s)), s.mem), 4)
    case JpAtHl => Outcome(State(r.(pc := r.h / 0x100 + r.l), s.mem), 1)
  }

  /** Calls, returns, rst, push and pop. */
  function ExecStack(s: State, h: StackOp): (o: Outcome)
    ensures 2 <= o.cycles <= 6
  {
    var r := s.regs;
    match h
    case RetIf(cond) =>
      if Holds(cond, r.f) then
        Outcome(State(r.(pc := ReadWord(s.mem, r.sp), sp := Wrap16(r.sp + 2)), s.mem), 5)
      else Outcome(s, 2)
    case Ret => Outcome(State(r.(pc := ReadWord(s.mem, r.sp), sp := Wrap16(r.sp + 2)), s.mem), 4)
    case CallIf(cond) =>
      if Holds(cond, r.f) then
        var s1 := PushWord(s, Wrap16(r.pc + 2));
        Outcome(s1.(regs := s1.regs.(pc := ReadWord(s1.mem, r.pc))), 6)
      else Outcome(State(SkipWord(r), s.mem), 3)
    case Call =>
      var s1 := PushWord(s, Wrap16(r.pc + 2));
      Outcome(s1.(regs := s1.regs.(pc := ReadWord(s1.mem, r.pc))), 6)
    case Rst(vector) =>
      var s1 := PushWord(s, r.pc);
      Outcome(s1.(regs := s1.regs.(pc := vector)), 4)
    case Push(p) => Outcome(PushBytes(s, PairHigh(r, p), PairLow(r, p)), 4)
    case Pop(p) =>
      var (high, low) := PopBytes(s);
      Outcome(State(SetPair(PopSp(r), p, high, low), s.mem), 3)
  }

  /** 16-bit loads and arithmetic on register pairs and sp. */
  function ExecWide(s: State, h: WideOp): (o: Outcome)
    ensures h.LdAtImmSp? || o.state.mem == s.mem
    ensures 2 <= o.cycles <= 5
  {
    var r := s.regs;
    match h
    case LdPairImm(p) =>
      var v := ImmWord(s);
      var r1 := if p == SP then r.(sp := v) else SetPair(r, p, High(v), Low(v));
      Outcome(State(SkipWord(r1), s.mem), 3)
    case IncPair(p) =>
      if p == SP then Outcome(State(r.(sp := Wrap16(r.sp + 1)), s.mem), 2)
      else
        var res := IncR16(PairHigh(r, p), PairLow(r, p));
        Outcome(State(SetPair(r, p, res.high, res.low), s.mem), 2)
    case DecPair(p) =>
      if p == SP then Outcome(State(r.(sp := Wrap16(r.sp - 1)), s.mem), 2)
      else
        var res := DecR16(PairHigh(r, p), PairLow(r, p));
        Outcome(State(SetPair(r, p, res.high, res.low), s.mem), 2)
    case AddHl(p) =>
      var res := AddHlR16(r.h, r.l, r.f, PairHigh(r, p), PairLow(r, p));
      Outcome(State(r.(h := res.h, l := res.l, f := res.flags), s.mem), 2)
    case LdAtImmSp =>
      var addr := ImmWord(s);
      Outcome(State(SkipWord(r), WriteWord(s.mem, addr, r.sp)), 5)
    case LdSpHl => Outcome(State(r.(sp := Hl(r)), s.mem), 2)
    case AddSpImm =>
      var v := Fetched(s);
      Outcome(State(r.(f := KeepHC(r.f), pc := Wrap16(r.pc + 1), sp := Wrap16(r.sp + Int8(v))), s.mem), 4)
    case LdhlSpImm =>
      var v := Fetched(s);
      var w := Wrap16(r.sp + Int8(v));
      Outcome(State(r.(f := KeepHC(r.f), pc := Wrap16(r.pc + 1), h := High(w), l := Low(w)), s.mem), 3)
  }

  /** 8-bit loads: between registers, immediates and memory. */
  function ExecLoad(s: State, h: LoadOp): (o: Outcome)
    ensures 1 <= o.cycles <= 4
  {
    var r := s.regs;
    match h
    case LdAtPairA(p) => Outcome(State(r, WriteByte(s.mem, PairWord(r, p), r.a)), 2)
    case LdAAtPair(p) => Outcome(State(r.(a := ReadByte(s.mem, PairWord(r, p))), s.mem), 2)
    case LdRegImm(x) => Outcome(State(Set(AfterFetch(s).regs, x, Fetched(s)), s.mem), 2)
    case LdAtHlImm => Outcome(State(AfterFetch(s).regs, WriteByte(s.mem, Hl(r), Fetched(s))), 3)
    case LdiAtHlA =>
      var hl := IncR16(r.h, r.l);
      Outcome(State(r.(h := hl.high, l := hl.low), WriteByte(s.mem, Hl(r), r.a)), 2)
    case LdiAAtHl =>
      var hl := IncR16(r.h, r.l);
      Outcome(State(r.(a := ReadByte(s.mem, Hl(r)), h := hl.high, l := hl.low), s.mem), 2)
    case LddAtHlA =>
      var hl := DecR16(r.h, r.l);
      Outcome(State(r.(h := hl.high, l := hl.low), WriteByte(s.mem, Hl(r), r.a)), 2)
    case LddAAtHl =>
      var hl := DecR16(r.h, r.l);
      Outcome(State(r.(a := ReadByte(s.mem, Hl(r)), h := hl.high, l := hl.low), s.mem), 2)
    case LdRegReg(dst, src) => Outcome(State(Set(r, dst, Get(r, src)), s.mem), 1)
    case LdRegAtHl(dst) => Outcome(State(Set(r, dst, ReadByte(s.mem, Hl(r))), s.mem), 2)
    case LdAtHlReg(src) => Outcome(State(r, WriteByte(s.mem, Hl(r), Get(r, src))), 2)
    case LdhAtImmA =>
      Outcome(State(AfterFetch(s).regs, WriteByte(s.mem, 0xFF00 + Fetched(s), r.a)), 3)
    case LdAtCA => Outcome(State(r, WriteByte(s.mem, 0xFF00 + r.c, r.a)), 3)
    case LdAtImmWordA => Outcome(State(SkipWord(r), WriteByte(s.mem, ImmWord(s), r.a)), 4)
    case LdhAAtImm =>
      Outcome(State(AfterFetch(s).regs.(a := ReadByte(s.mem, 0xFF00 + Fetched(s))), s.mem), 3)
    case LdAAtC => Outcome(State(r.(a := ReadByte(s.mem, 0xFF00 + r.c)), s.mem), 2)
    case LdAAtImmWord =>
      Outcome(State(SkipWord(r).(a := ReadByte(s.mem, ImmWord(s))), s.mem), 4)
  }

  /** 8-bit arithmetic: inc, dec, the accumulator handlers and the ALU block. */
  function ExecArith(s: State, h: ArithOp): (o: Outcome)
    ensures 1 <= o.cycles <= 3
  {
    var r := s.regs;
    match h
    case IncReg(x) =>
      var res := IncR8(Get(r, x), r.f);
      Outcome(State(Set(r, x, res.value).(f := res.flags), s.mem), 1)
    case DecReg(x) =>
      var res := DecR8(Get(r, x), r.f);
      Outcome(State(Set(r, x, res.value).(f := res.flags), s.mem), 1)
    case IncAtHl =>
      var res := IncR8(ReadByte(s.mem, Hl(r)), r.f);
      Outcome(State(r.(f := res.flags), WriteByte(s.mem, Hl(r), res.value)), 3)
    case DecAtHl =>
      var res := DecR8(ReadByte(s.mem, Hl(r)), r.f);
      Outcome(State(r.(f := res.flags), WriteByte(s.mem, Hl(r), res.value)), 3)
    case Acc(op) =>
      var res := AccResult(op, r.a, r.f);
      Outcome(State(r.(a := res.value, f := res.flags), s.mem), 1)
    case Alu(op, src) =>
      var v := match src
        case Reg(x) => Get(r, x)
        case AtHl => ReadByte(s.mem, Hl(r))
        case Imm => Fetched(s);
      var r1 := if src.Imm? then AfterFetch(s).regs else r;
      var res := AluResult(op, r.a, v, r.f);
      Outcome(State(r1.(a := res.value, f := res.flags), s.mem), if src.Reg? then 1 else 2)
  }

  /** The CB page: 2 cycles on a register, 4 on (hl), which is always written back. */
  function ExecCb(s: State, h: CbOp): (o: Outcome)
    ensures o.state.regs.pc == s.regs.pc && o.state.regs.sp == s.regs.sp
    ensures o.cycles == if h.target.InHl? then 4 else 2
  {
    var r := s.regs;
    var v := if h.target.InReg? then Get(r, h.target.r) else ReadByte(s.mem, Hl(r));
    var res := match h
      case Shift(op, _) => ShiftResult(op, v, r.f)
      case BitTest(b, _) => ByteResult(v, BitR8(b, v, r.f))
      case ResBit(b, _) => ByteResult(ResR8(b, v), r.f)
      case SetBitOf(b, _) => ByteResult(SetR8(b, v), r.f);
    if h.target.InReg? then Outcome(State(Set(r, h.target.r, res.value).(f := res.flags), s.mem), 2)
    else Outcome(State(r.(f := res.flags), WriteByte(s.mem, Hl(r), res.value)), 4)
  }

  /**
   * Runs handler h: `instructions[i]()`. prefix_cb fetches the next byte and
   * runs the CB entry for it.
   */
  function Exec(s: State, h: Handler): (o: Outcome)
    ensures 0 <= o.cycles <= 6 && (o.cycles == 0 <==> h == Control(Unimplemented))
  {
    match h
    case Control(c) => ExecControl(s, c)
    case Stack(c) => ExecStack(s, c)
    case Wide(c) => ExecWide(s, c)
    case Load(c) => ExecLoad(s, c)
    case Arith(c) => ExecArith(s, c)
    case Cb(c) => ExecCb(s, c)
    case PrefixCb => ExecCb(AfterFetch(s), CbTable(Fetched(s)))
  }

  /** `execute`: `instructions[read_byte(pc++)]()`. */
  function Step(s: State): (o: Outcome)
    ensures 0 <= o.cycles <= 6
    ensures o.cycles == 0 <==> Fetched(s) in UnimplementedOpcodes
  {
    var op := Fetched(s);
    UnimplementedSlots(op);
    Exec(AfterFetch(s), BaseTable(op))
  }
}
