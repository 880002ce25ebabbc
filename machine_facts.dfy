/**
 * What the handlers of src/core/cpu.cpp promise when they are run one after
 * another: the stack is a stack, relative jumps land relative to the next
 * instruction, and the places where the code as written differs from the
 * instruction its name suggests.
 */
module MachineFacts {
  import opened Bytes
  import opened Alu
  import opened Opcodes
  import opened Machine

  // ---------------------------------------------------------------------
  // The stack
  // ---------------------------------------------------------------------

  /** pop_r16 reads back what push_r16 wrote, and puts sp back. */
  lemma PopAfterPush(s: State, high: byte, low: byte)
    ensures PopBytes(PushBytes(s, high, low)) == (high, low)
    ensures PopSp(PushBytes(s, high, low).regs) == s.regs
  {
    var sp1: int := Wrap16(s.regs.sp - 2);
    Wrap16Once(s.regs.sp - 2);
    Wrap16Once(s.regs.sp - 1);
    Wrap16Once(sp1 + 1);
  }

  /** push rr then pop rr gives back every register, for all four pairs (af by the flags round trip). */
  lemma PushThenPop(s: State, p: Pair)
    ensures Exec(Exec(s, Stack(Push(p))).state, Stack(Pop(p))).state.regs == s.regs
  {
    var r := s.regs;
    var high, low := PairHigh(r, p), PairLow(r, p);
    var s1 := PushBytes(s, high, low);
    assert Exec(s, Stack(Push(p))).state == s1;
    PopAfterPush(s, high, low);
    assert Exec(s1, Stack(Pop(p))).state.regs == SetPair(r, p, high, low);
    match p
    case AF => FlagsByteRoundTrip(r.f);
    case SP => WordOfParts(r.sp);
    case _ =>
  }

  /** ret after call goes back to the instruction after the call's operand word, with sp restored. */
  lemma CallThenRet(s: State)
    ensures Exec(Exec(s, Stack(Call)).state, Stack(Ret)).state.regs == SkipWord(s.regs)
  {
    var r := s.regs;
    var s1 := PushWord(s, Wrap16(r.pc + 2));
    var o1 := Exec(s, Stack(Call));
    assert o1.state == s1.(regs := s1.regs.(pc := ReadWord(s1.mem, r.pc)));
    StackRestored(r.sp);
  }

  /** sp - 2 + 2 is sp again, in 16 bits. */
  lemma StackRestored(sp: word)
    ensures Wrap16(Wrap16(sp - 2) + 2) == sp
  {
    Wrap16Once(sp - 2);
    Wrap16Once(Wrap16(sp - 2) + 2);
  }

  /**
   * call reads its target after pushing the return address: it is the operand
   * word when the two bytes pushed lie apart from it ...
   */
  lemma CallTarget(s: State)
    requires var a := Wrap16(s.regs.sp - 2); var b := Wrap16(s.regs.sp - 1);
      a != s.regs.pc && a != Wrap16(s.regs.pc + 1) && b != s.regs.pc && b != Wrap16(s.regs.pc + 1)
    ensures Exec(s, Stack(Call)).state.regs.pc == ImmWord(s)
  {
    var r := s.regs;
    var sp': int := Wrap16(r.sp - 2);
    assert Wrap16(sp' + 1) == Wrap16(r.sp - 1);
    var m := WriteWord(s.mem, sp', Wrap16(r.pc + 2));
    assert ReadByte(m, r.pc) == ReadByte(s.mem, r.pc);
    assert ReadByte(m, Wrap16(r.pc + 1)) == ReadByte(s.mem, Wrap16(r.pc + 1));
  }

  /** ... and when sp - 2 is the operand's address, call jumps to its own return address. */
  lemma CallOverOwnOperand(s: State)
    requires Wrap16(s.regs.sp - 2) == s.regs.pc
    ensures Exec(s, Stack(Call)).state.regs.pc == Wrap16(s.regs.pc + 2)
  {
    var r := s.regs;
    var m := WriteWord(s.mem, r.pc, Wrap16(r.pc + 2));
    ReadWriteWord(s.mem, r.pc, Wrap16(r.pc + 2));
    assert Exec(s, Stack(Call)).state.regs.pc == ReadWord(m, r.pc);
  }

  /** rst jumps to its vector; ret then resumes at the byte after the rst with sp restored. */
  lemma RstThenRet(s: State, vector: byte)
    ensures Exec(s, Stack(Rst(vector))).state.regs.pc == vector
    ensures Exec(Exec(s, Stack(Rst(vector))).state, Stack(Ret)).state.regs == s.regs
  {
    var r := s.regs;
    var o1 := Exec(s, Stack(Rst(vector)));
    assert o1.state == PushWord(s, r.pc).(regs := PushWord(s, r.pc).regs.(pc := vector));
    StackRestored(r.sp);
  }

  /** An rst opcode at pc pushes pc + 1 and jumps to opcode - 0xC7. */
  lemma StepRst(s: State)
    requires Fetched(s) >= 0xC0 && Fetched(s) % 8 == 7
    ensures Step(s).state.regs.pc == Fetched(s) - 0xC7
    ensures ReadWord(Step(s).state.mem, Step(s).state.regs.sp) == Wrap16(s.regs.pc + 1)
    ensures Step(s).state.regs.sp == Wrap16(s.regs.sp - 2) && Step(s).cycles == 4
  {
    RstVectors(Fetched(s));
    RstThenRet(AfterFetch(s), Fetched(s) - 0xC7);
  }

  // ---------------------------------------------------------------------
  // Jumps
  // ---------------------------------------------------------------------

  /** The byte after the opcode. */
  function Operand1(s: State): byte {
    ReadByte(s.mem, Wrap16(s.regs.pc + 1))
  }

  /** The relative target, seen from the opcode: pc + 2 + e. */
  lemma RelativeFromOpcode(s: State)
    ensures RelativeTarget(AfterFetch(s)) == Wrap16(s.regs.pc + 2 + Int8(Operand1(s)))
  {
    Wrap16Once(s.regs.pc + 1);
    Wrap16IsMod(s.regs.pc + 1);
    Wrap16IsMod(AfterFetch(s).regs.pc + Int8(Operand1(s)) + 1);
    Wrap16IsMod(s.regs.pc + 2 + Int8(Operand1(s)));
  }

  /** jr e at pc lands at pc + 2 + e: relative to the next instruction. */
  lemma StepJr(s: State)
    requires Fetched(s) == 0x18
    ensures Step(s).state.regs.pc == Wrap16(s.regs.pc + 2 + Int8(Operand1(s)))
    ensures Step(s).cycles == 3
  {
    var s1 := AfterFetch(s);
    assert BaseTable(Fetched(s)) == Control(Jr);
    assert Step(s) == Outcome(State(s1.regs.(pc := RelativeTarget(s1)), s.mem), 3);
    RelativeFromOpcode(s);
  }

  /** The condition in bits 3 and 4 of a conditional opcode: nz, z, nc, c. */
  function CondBits(op: byte): Cond {
    match (op / 8) % 4
    case 0 => NZ
    case 1 => Z
    case 2 => NC
    case _ => CY
  }

  /** jr nz/z/nc e: taken, as jr e; not taken, on to pc + 2. */
  lemma StepJrIf(s: State)
    requires Fetched(s) in {0x20, 0x28, 0x30}
    ensures var taken := Holds(CondBits(Fetched(s)), s.regs.f);
      Step(s).state.regs.pc
        == (if taken then Wrap16(s.regs.pc + 2 + Int8(Operand1(s))) else Wrap16(s.regs.pc + 2))
      && Step(s).cycles == (if taken then 3 else 2)
  {
    ConditionalDecoding(Fetched(s));
    RelativeFromOpcode(s);
    Wrap16Once(s.regs.pc + 1);
  }

  /**
   * jr c e: `int8_t offset = e + 2` wraps for e = 0x7E and 0x7F, which then
   * land 256 bytes before pc + 2 + e; every other offset lands where jr e does.
   */
  lemma StepJrCarry(s: State)
    requires Fetched(s) == 0x38 && s.regs.f.c
    ensures Step(s).cycles == 3
    ensures Step(s).state.regs.pc == Wrap16(s.regs.pc + 2 + Int8(Operand1(s))
      - (if Operand1(s) in {0x7E, 0x7F} then 0x100 else 0))
  {
    var e := Operand1(s);
    var s1 := AfterFetch(s);
    assert Fetched(s1) == e;
    Wrap8Once(Int8(e) + 2);
    var offset := Int8(e) + 2 - (if e in {0x7E, 0x7F} then 0x100 else 0);
    assert WrapInt8(Int8(e) + 2) == offset;
    assert CarryRelativeTarget(s1) == Wrap16(s1.regs.pc + offset - 1);
    Wrap16IsMod(s.regs.pc + 1);
    Wrap16IsMod(s1.regs.pc + offset - 1);
    Wrap16IsMod(s.regs.pc + 2 + Int8(e) - (if e in {0x7E, 0x7F} then 0x100 else 0));
  }

  /**
   * The conditional opcodes carry their condition in bits 3 and 4, except
   * jr c, whose handler is the separate jr_c_r8.
   */
  lemma ConditionalDecoding(op: byte)
    ensures op in {0x20, 0x28, 0x30} ==> BaseTable(op) == Control(JrIf(CondBits(op)))
    ensures op in {0xC2, 0xCA, 0xD2, 0xDA} ==> BaseTable(op) == Control(JpIf(CondBits(op)))
    ensures op in {0xC4, 0xCC, 0xD4, 0xDC} ==> BaseTable(op) == Stack(CallIf(CondBits(op)))
    ensures op in {0xC0, 0xC8, 0xD0, 0xD8} ==> BaseTable(op) == Stack(RetIf(CondBits(op)))
    ensures op == 0x38 ==> BaseTable(op) == Control(JrIfCarry)
  {
  }

  /** jp cc, a16 not taken leaves pc at the operand word, which is then run as code. */
  lemma StepJpIfNotTaken(s: State)
    requires Fetched(s) in {0xC2, 0xCA, 0xD2, 0xDA}
    requires !Holds(CondBits(Fetched(s)), s.regs.f)
    ensures Step(s) == Outcome(AfterFetch(s), 3)
  {
    ConditionalDecoding(Fetched(s));
  }

  /** call cc, a16 not taken steps over its operand word. */
  lemma StepCallIfNotTaken(s: State)
    requires Fetched(s) in {0xC4, 0xCC, 0xD4, 0xDC}
    requires !Holds(CondBits(Fetched(s)), s.regs.f)
    ensures Step(s) == Outcome(State(s.regs.(pc := Wrap16(s.regs.pc + 3)), s.mem), 3)
  {
    ConditionalDecoding(Fetched(s));
    Wrap16Once(s.regs.pc + 1);
  }

  /** ret cc: taken, pc is popped; not taken, nothing but pc moves. */
  lemma StepRetIf(s: State)
    requires Fetched(s) in {0xC0, 0xC8, 0xD0, 0xD8}
    ensures Step(s) == if Holds(CondBits(Fetched(s)), s.regs.f) then
        Outcome(State(s.regs.(pc := ReadWord(s.mem, s.regs.sp), sp := Wrap16(s.regs.sp + 2)), s.mem), 5)
      else Outcome(AfterFetch(s), 2)
  {
    ConditionalDecoding(Fetched(s));
  }

  /** jp (hl) as written, `pc = (h >> 8) + l`: it jumps to l, which is hl only when h is 0. */
  lemma JpAtHlJumpsToL(s: State)
    ensures Exec(s, Control(JpAtHl)).state.regs.pc == s.regs.l
    ensures Exec(s, Control(JpAtHl)).state.regs.pc == Hl(s.regs) <==> s.regs.h == 0
  {
  }

  // ---------------------------------------------------------------------
  // Loads and increments
  // ---------------------------------------------------------------------

  /** ldi/ldd (hl), a: a goes to the old hl, then hl moves by one. */
  lemma LdiLddStore(s: State)
    ensures Exec(s, Load(LdiAtHlA)).state.mem == WriteByte(s.mem, Hl(s.regs), s.regs.a)
    ensures Hl(Exec(s, Load(LdiAtHlA)).state.regs) == Wrap16(Hl(s.regs) + 1)
    ensures Exec(s, Load(LddAtHlA)).state.mem == WriteByte(s.mem, Hl(s.regs), s.regs.a)
    ensures Hl(Exec(s, Load(LddAtHlA)).state.regs) == Wrap16(Hl(s.regs) - 1)
  {
  }

  /** ldi/ldd a, (hl): a is read from the old hl, then hl moves by one. */
  lemma LdiLddLoad(s: State)
    ensures Exec(s, Load(LdiAAtHl)).state.regs.a == ReadByte(s.mem, Hl(s.regs))
    ensures Hl(Exec(s, Load(LdiAAtHl)).state.regs) == Wrap16(Hl(s.regs) + 1)
    ensures Exec(s, Load(LddAAtHl)).state.regs.a == ReadByte(s.mem, Hl(s.regs))
    ensures Hl(Exec(s, Load(LddAAtHl)).state.regs) == Wrap16(Hl(s.regs) - 1)
  {
  }

  /** ldh (n), a and ld (c), a write a into the high page 0xFF00 + n. */
  lemma HighPageStores(s: State)
    ensures Exec(s, Load(LdhAtImmA)).state.mem == WriteByte(s.mem, 0xFF00 + Fetched(s), s.regs.a)
    ensures Exec(s, Load(LdhAtImmA)).state.regs == AfterFetch(s).regs
    ensures Exec(s, Load(LdAtCA)).state.mem == WriteByte(s.mem, 0xFF00 + s.regs.c, s.regs.a)
  {
  }

  /** Opcode 0x0C (inc c) increments b and leaves c alone. */
  lemma StepIncC(s: State)
    requires Fetched(s) == 0x0C
    ensures Step(s).state.regs.b == Wrap8(s.regs.b + 1)
    ensures Step(s).state.regs.c == s.regs.c
    ensures Step(s).state.regs.f == IncR8(s.regs.b, s.regs.f).flags
  {
    IncCAndIncDIncrementB();
    var r := AfterFetch(s).regs;
    var res := IncR8(r.b, r.f);
    assert Step(s).state.regs == Set(r, B, res.value).(f := res.flags);
  }

  /** A CB instruction takes two fetches, and 2 cycles on a register or 4 on (hl). */
  lemma StepCb(s: State)
    requires Fetched(s) == 0xCB
    ensures Step(s).state.regs.pc == Wrap16(s.regs.pc + 2)
    ensures Step(s).cycles == if Operand1(s) % 8 == 6 then 4 else 2
  {
    Wrap16Once(s.regs.pc + 1);
  }

  // ---------------------------------------------------------------------
  // The unit test's two cases, from a machine whose registers are all zero
  // ---------------------------------------------------------------------

  /** nop at 0: pc 1, one cycle. */
  lemma NopExample(m: Memory)
    requires m[0] == 0x00
    ensures Step(State(ZeroRegisters, m)) == Outcome(State(ZeroRegisters.(pc := 1), m), 1)
  {
  }

  /** ld bc, 0x3344 at 0: b = 0x33, c = 0x44, pc 3, three cycles. */
  lemma LdBcExample(m: Memory)
    requires m[0] == 0x01 && m[1] == 0x44 && m[2] == 0x33
    ensures var o := Step(State(ZeroRegisters, m));
      o.state.regs == ZeroRegisters.(b := 0x33, c := 0x44, pc := 3) && o.cycles == 3
  {
  }
}
