/**
 * The instruction table of the CPU (src/core/cpu.cpp, the `instructions`
 * vector built in the constructor). Each entry of the C++ table is a bound
 * member function; here it is a Handler value saying which handler body runs
 * and on which registers. Entry 0x00-0xFF is the base page, entry
 * 0x100 + n the handler `prefix_cb` runs for the byte n after 0xCB.
 */
module Opcodes {
  import opened Bytes

  /** The 8-bit registers a handler can name as an operand. */
  datatype Reg8 = A | B | C | D | E | H | L

  /** The register pairs: bc, de and hl, and sp or af depending on the opcode. */
  datatype Pair = BC | DE | HL | SP | AF

  /** The tested condition of a conditional jump, call or return. */
  datatype Cond = NZ | Z | NC | CY

  /** Where an 8-bit operand lives: a register or the byte at (hl). */
  datatype Location = InReg(r: Reg8) | InHl

  /** An 8-bit ALU operand: a register, the byte at (hl), or the byte after the opcode. */
  datatype Operand = Reg(r: Reg8) | AtHl | Imm

  datatype AluOp = AddA | AdcA | SubA | SbcA | AndA | XorA | OrA | CpA

  /** The rotates and shifts of the CB page, in table order. */
  datatype ShiftOp = Rlc | Rrc | Rl | Rr | Sla | Sra | Swap | Srl

  /** The handlers that work on a and f only. */
  datatype AccOp = Rlca | Rrca | Rla | Rra | Daa | Cpl | Scf | Ccf

  /** Handlers that touch no memory and change nothing but pc. */
  datatype ControlOp =
    | Nop
    | Stop
    | Halt
    | Di
    | Ei
    | Reti
    | Unimplemented
    | Jr                          // jr_r8
    | JrIf(cond: Cond)            // jr_nz_r8, jr_z_r8, jr_nc_r8
    | JrIfCarry                   // jr_c_r8, whose offset is an int8_t
    | JpIf(cond: Cond)
    | Jp
    | JpAtHl                      // jp_mhl

  /** Calls, returns, rst, push and pop. */
  datatype StackOp =
    | RetIf(cond: Cond)
    | Ret
    | CallIf(cond: Cond)
    | Call
    | Rst(vector: byte)
    | Push(p: Pair)               // push_bc, push_de, push_hl, push_af
    | Pop(p: Pair)                // pop_bc, pop_de, pop_hl, pop_af

  /** 16-bit loads and arithmetic. */
  datatype WideOp =
    | LdPairImm(p: Pair)          // ld_bc_d16, ld_de_d16, ld_hl_d16, ld_sp_d16
    | IncPair(p: Pair)            // inc_bc ... inc_sp
    | DecPair(p: Pair)            // dec_bc ... dec_sp
    | AddHl(p: Pair)              // add_hl_bc ... add_hl_sp
    | LdAtImmSp                   // ld_ma16_sp
    | LdSpHl
    | AddSpImm                    // add_sp_r8
    | LdhlSpImm                   // ldhl_sp_r8

  /** 8-bit loads. */
  datatype LoadOp =
    | LdAtPairA(p: Pair)          // ld_mbc_a, ld_mde_a
    | LdAAtPair(p: Pair)          // ld_a_mbc, ld_a_mde
    | LdRegImm(r: Reg8)           // ld_b_d8 ...
    | LdAtHlImm                   // ld_mhl_d8
    | LdiAtHlA
    | LdiAAtHl
    | LddAtHlA
    | LddAAtHl
    | LdRegReg(dst: Reg8, src: Reg8)
    | LdRegAtHl(dst: Reg8)
    | LdAtHlReg(src: Reg8)
    | LdhAtImmA                   // ldh_ma8_a
    | LdAtCA                      // ld_mc_a
    | LdAtImmWordA                // ld_ma16_a
    | LdhAAtImm                   // ldh_a_ma8
    | LdAAtC                      // ld_a_mc
    | LdAAtImmWord                // ld_a_ma16

  /** 8-bit arithmetic. */
  datatype ArithOp =
    | IncReg(r: Reg8)             // inc_b, and the body of inc_c and inc_d
    | DecReg(r: Reg8)
    | IncAtHl
    | DecAtHl
    | Acc(acc: AccOp)
    | Alu(alu: AluOp, operand: Operand)

  /** The handlers of the CB page. */
  datatype CbOp =
    | Shift(shift: ShiftOp, target: Location)
    | BitTest(bit: bitIndex, target: Location)
    | ResBit(bit: bitIndex, target: Location)
    | SetBitOf(bit: bitIndex, target: Location)

  /** An entry of the table: a handler of one of the families, or `prefix_cb`. */
  datatype Handler =
    | Control(control: ControlOp)
    | Stack(stack: StackOp)
    | Wide(wide: WideOp)
    | Load(load: LoadOp)
    | Arith(arith: ArithOp)
    | Cb(cb: CbOp)
    | PrefixCb

  /** The location encoded in three bits of an opcode: b, c, d, e, h, l, (hl), a. */
  function LocationOf(i: int): (x: Location)
    requires 0 <= i < 8
    ensures x.InHl? <==> i == 6
  {
    match i
    case 0 => InReg(B)
    case 1 => InReg(C)
    case 2 => InReg(D)
    case 3 => InReg(E)
    case 4 => InReg(H)
    case 5 => InReg(L)
    case 6 => InHl
    case _ => InReg(A)
  }

  /** The same encoding as the source operand of the ALU block. */
  function OperandOf(i: int): (o: Operand)
    requires 0 <= i < 8
    ensures o.AtHl? <==> i == 6
    ensures !o.Imm?
  {
    match LocationOf(i)
    case InReg(r) => Reg(r)
    case InHl => AtHl
  }

  function AluOpOf(i: int): AluOp
    requires 0 <= i < 8
  {
    match i
    case 0 => AddA
    case 1 => AdcA
    case 2 => SubA
    case 3 => SbcA
    case 4 => AndA
    case 5 => XorA
    case 6 => OrA
    case _ => CpA
  }

  function ShiftOpOf(i: int): ShiftOp
    requires 0 <= i < 8
  {
    match i
    case 0 => Rlc
    case 1 => Rrc
    case 2 => Rl
    case 3 => Rr
    case 4 => Sla
    case 5 => Sra
    case 6 => Swap
    case _ => Srl
  }

  /** Entries 0x00-0x3F. */
  function Page0(op: int): Handler
    requires 0 <= op < 0x40
  {
    match op
    case 0x00 => Control(Nop)
    case 0x01 => Wide(LdPairImm(BC))
    case 0x02 => Load(LdAtPairA(BC))
    case 0x03 => Wide(IncPair(BC))
    case 0x04 => Arith(IncReg(B))
    case 0x05 => Arith(DecReg(B))
    case 0x06 => Load(LdRegImm(B))
    case 0x07 => Arith(Acc(Rlca))
    case 0x08 => Wide(LdAtImmSp)
    case 0x09 => Wide(AddHl(BC))
    case 0x0A => Load(LdAAtPair(BC))
    case 0x0B => Wide(DecPair(BC))
    case 0x0C => Arith(IncReg(B))        // inc_c: its body increments b
    case 0x0D => Arith(DecReg(C))
    case 0x0E => Load(LdRegImm(C))
    case 0x0F => Arith(Acc(Rrca))
    case 0x10 => Control(Stop)
    case 0x11 => Wide(LdPairImm(DE))
    case 0x12 => Load(LdAtPairA(DE))
    case 0x13 => Wide(IncPair(DE))
    case 0x14 => Arith(IncReg(B))        // inc_d: its body increments b
    case 0x15 => Arith(DecReg(D))
    case 0x16 => Load(LdRegImm(D))
    case 0x17 => Arith(Acc(Rla))
    case 0x18 => Control(Jr)
    case 0x19 => Wide(AddHl(DE))
    case 0x1A => Load(LdAAtPair(DE))
    case 0x1B => Wide(DecPair(DE))
    case 0x1C => Arith(IncReg(E))
    case 0x1D => Arith(DecReg(E))
    case 0x1E => Load(LdRegImm(E))
    case 0x1F => Arith(Acc(Rra))
    case 0x20 => Control(JrIf(NZ))
    case 0x21 => Wide(LdPairImm(HL))
    case 0x22 => Load(LdiAtHlA)
    case 0x23 => Wide(IncPair(HL))
    case 0x24 => Arith(IncReg(H))
    case 0x25 => Arith(DecReg(H))
    case 0x26 => Load(LdRegImm(H))
    case 0x27 => Arith(Acc(Daa))
    case 0x28 => Control(JrIf(Z))
    case 0x29 => Wide(AddHl(HL))
    case 0x2A => Load(LdiAAtHl)
    case 0x2B => Wide(DecPair(HL))
    case 0x2C => Arith(IncReg(L))
    case 0x2D => Arith(DecReg(L))
    case 0x2E => Load(LdRegImm(L))
    case 0x2F => Arith(Acc(Cpl))
    case 0x30 => Control(JrIf(NC))
    case 0x31 => Wide(LdPairImm(SP))
    case 0x32 => Load(LddAtHlA)
    case 0x33 => Wide(IncPair(SP))
    case 0x34 => Arith(IncAtHl)
    case 0x35 => Arith(DecAtHl)
    case 0x36 => Load(LdAtHlImm)
    case 0x37 => Arith(Acc(Scf))
    case 0x38 => Control(JrIfCarry)
    case 0x39 => Wide(AddHl(SP))
    case 0x3A => Load(LddAAtHl)
    case 0x3B => Wide(DecPair(SP))
    case 0x3C => Arith(IncReg(A))
    case 0x3D => Arith(DecReg(A))
    case 0x3E => Load(LdRegImm(A))
    case _ => Arith(Acc(Ccf))
  }

  /** Entries 0x40-0x7F: ld r, r' with (hl) at code 6, and halt at 0x76. */
  function LoadBlock(op: int): Handler
    requires 0x40 <= op < 0x80
  {
    var dst, src := LocationOf((op - 0x40) / 8), LocationOf(op % 8);
    if op == 0x76 then Control(Halt)
    else if dst.InHl? then Load(LdAtHlReg(src.r))
    else if src.InHl? then Load(LdRegAtHl(dst.r))
    else Load(LdRegReg(dst.r, src.r))
  }

  /** Entries 0xC0-0xFF. */
  function Page3(op: int): Handler
    requires 0xC0 <= op < 0x100
  {
    match op
    case 0xC0 => Stack(RetIf(NZ))
    case 0xC1 => Stack(Pop(BC))
    case 0xC2 => Control(JpIf(NZ))
    case 0xC3 => Control(Jp)
    case 0xC4 => Stack(CallIf(NZ))
    case 0xC5 => Stack(Push(BC))
    case 0xC6 => Arith(Alu(AddA, Imm))
    case 0xC7 => Stack(Rst(0x00))
    case 0xC8 => Stack(RetIf(Z))
    case 0xC9 => Stack(Ret)
    case 0xCA => Control(JpIf(Z))
    case 0xCB => PrefixCb
    case 0xCC => Stack(CallIf(Z))
    case 0xCD => Stack(Call)
    case 0xCE => Arith(Alu(AdcA, Imm))
    case 0xCF => Stack(Rst(0x08))
    case 0xD0 => Stack(RetIf(NC))
    case 0xD1 => Stack(Pop(DE))
    case 0xD2 => Control(JpIf(NC))
    case 0xD3 => Control(Unimplemented)
    case 0xD4 => Stack(CallIf(NC))
    case 0xD5 => Stack(Push(DE))
    case 0xD6 => Arith(Alu(SubA, Imm))
    case 0xD7 => Stack(Rst(0x10))
    case 0xD8 => Stack(RetIf(CY))
    case 0xD9 => Control(Reti)
    case 0xDA => Control(JpIf(CY))
    case 0xDB => Control(Unimplemented)
    case 0xDC => Stack(CallIf(CY))
    case 0xDD => Control(Unimplemented)
    case 0xDE => Arith(Alu(SbcA, Imm))
    case 0xDF => Stack(Rst(0x18))
    case 0xE0 => Load(LdhAtImmA)
    case 0xE1 => Stack(Pop(HL))
    case 0xE2 => Load(LdAtCA)
    case 0xE3 => Control(Unimplemented)
    case 0xE4 => Control(Unimplemented)
    case 0xE5 => Stack(Push(HL))
    case 0xE6 => Arith(Alu(AndA, Imm))
    case 0xE7 => Stack(Rst(0x20))
    case 0xE8 => Wide(AddSpImm)
    case 0xE9 => Control(JpAtHl)
    case 0xEA => Load(LdAtImmWordA)
    case 0xEB => Control(Unimplemented)
    case 0xEC => Control(Unimplemented)
    case 0xED => Control(Unimplemented)
    case 0xEE => Arith(Alu(XorA, Imm))
    case 0xEF => Stack(Rst(0x28))
    case 0xF0 => Load(LdhAAtImm)
    case 0xF1 => Stack(Pop(AF))
    case 0xF2 => Load(LdAAtC)
    case 0xF3 => Control(Di)
    case 0xF4 => Control(Unimplemented)
    case 0xF5 => Stack(Push(AF))
    case 0xF6 => Arith(Alu(OrA, Imm))
    case 0xF7 => Stack(Rst(0x30))
    case 0xF8 => Wide(LdhlSpImm)
    case 0xF9 => Wide(LdSpHl)
    case 0xFA => Load(LdAAtImmWord)
    case 0xFB => Control(Ei)
    case 0xFC => Control(Unimplemented)
    case 0xFD => Control(Unimplemented)
    case 0xFE => Arith(Alu(CpA, Imm))
    case _ => Stack(Rst(0x38))
  }

  /** `instructions[op]` for a base opcode. */
  function BaseTable(op: byte): Handler {
    if op < 0x40 then Page0(op)
    else if op < 0x80 then LoadBlock(op)
    else if op < 0xC0 then Arith(Alu(AluOpOf((op - 0x80) / 8), OperandOf(op % 8)))
    else Page3(op)
  }

  /** `instructions[0x100 + op]`: eight shifts, then bit, res and set for bits 0 to 7. */
  function CbTable(op: byte): CbOp {
    var group, target := op / 8, LocationOf(op % 8);
    if group < 8 then Shift(ShiftOpOf(group), target)
    else if group < 16 then BitTest(group - 8, target)
    else if group < 24 then ResBit(group - 16, target)
    else SetBitOf(group - 24, target)
  }

  /** The 512-entry table: the index is below 0x200 or the vector has no such entry. */
  function Table(i: int): Handler
    requires 0 <= i < 0x200
  {
    if i < 0x100 then BaseTable(i) else Cb(CbTable(i - 0x100))
  }

  /** The eleven opcodes whose entry is `unimplemented`. */
  const UnimplementedOpcodes: set<int> :=
    {0xD3, 0xDB, 0xDD, 0xE3, 0xE4, 0xEB, 0xEC, 0xED, 0xF4, 0xFC, 0xFD}

  /** Exactly the eleven listed slots hold `unimplemented`; the CB page has none. */
  lemma UnimplementedSlots(i: int)
    requires 0 <= i < 0x200
    ensures Table(i) == Control(Unimplemented) <==> i in UnimplementedOpcodes
  {
  }

  /** Only `prefix_cb`, at 0xCB, leads to the CB page. */
  lemma PrefixSlot(op: byte)
    ensures BaseTable(op) == PrefixCb <==> op == 0xCB
    ensures !BaseTable(op).Cb?
  {
  }

  /** The eight rst handlers sit at 0xC7, 0xCF, ..., 0xFF and jump to opcode - 0xC7. */
  lemma RstVectors(op: byte)
    ensures BaseTable(op).Stack? && BaseTable(op).stack.Rst? <==> op >= 0xC0 && op % 8 == 7
    ensures BaseTable(op).Stack? && BaseTable(op).stack.Rst? ==> BaseTable(op).stack.vector == op - 0xC7
  {
  }

  /** inc_c and inc_d run the body of inc_b. */
  lemma IncCAndIncDIncrementB()
    ensures BaseTable(0x0C) == Arith(IncReg(B)) && BaseTable(0x14) == Arith(IncReg(B))
    ensures BaseTable(0x04) == Arith(IncReg(B))
    ensures forall op: byte :: BaseTable(op) != Arith(IncReg(C)) && BaseTable(op) != Arith(IncReg(D))
  {
  }
}
