/**
 * The CPU object of src/core/cpu.cpp: registers that the handlers update in
 * place, and the memory it reaches through IMmu. Each method does what the
 * C++ handler does, statement by statement, and is proved to leave the
 * state and return the cycle count that Machine.Exec gives for it.
 */
module Processor {
  import opened Bytes
  import opened Alu
  import opened Opcodes
  import opened Machine

  class Cpu {
    /** ICpu::Registers. */
    var regs: Registers
    /** The address space behind IMmu. */
    var mem: Memory

    /** The registers and memory as one value. */
    function Snapshot(): State
      reads this
    {
      State(regs, mem)
    }

    /** `CPU(IMmu& mmu, Registers& regs)`: the caller's registers over the given memory. */
    constructor (m: Memory, r: Registers)
      ensures regs == r && mem == m
    {
      regs := r;
      mem := m;
    }

    // -------------------------------------------------------------------
    // IMmu calls and the stack helpers of cpu.h
    // -------------------------------------------------------------------

    /** `mmu.read_byte(pc++)`. */
    method FetchByte() returns (v: byte)
      modifies this
      ensures v == Fetched(old(Snapshot()))
      ensures Snapshot() == AfterFetch(old(Snapshot()))
    {
      v := mem[regs.pc];
      regs := regs.(pc := Wrap16(regs.pc + 1));
    }

    /** `mmu.write_byte(addr, v)`. */
    method WriteByteAt(addr: word, v: byte)
      modifies this
      ensures mem == WriteByte(old(mem), addr, v) && regs == old(regs)
    {
      mem := mem[addr := v];
    }

    /** `mmu.write_word(addr, v)`: the low byte at addr, the high byte after it. */
    method WriteWordAt(addr: word, v: word)
      modifies this
      ensures mem == WriteWord(old(mem), addr, v) && regs == old(regs)
    {
      WriteByteAt(addr, Low(v));
      WriteByteAt(Wrap16(addr + 1), High(v));
    }

    /** push_r16: `write_byte(--sp, high); write_byte(--sp, low)`. */
    method PushPair(high: byte, low: byte)
      modifies this
      ensures Snapshot() == PushBytes(old(Snapshot()), high, low)
    {
      regs := regs.(sp := Wrap16(regs.sp - 1));
      WriteByteAt(regs.sp, high);
      regs := regs.(sp := Wrap16(regs.sp - 1));
      WriteByteAt(regs.sp, low);
    }

    /** pop_r16: `low = read_byte(sp++); high = read_byte(sp++)`. */
    method PopPair() returns (high: byte, low: byte)
      modifies this
      ensures (high, low) == PopBytes(old(Snapshot()))
      ensures regs == PopSp(old(regs)) && mem == old(mem)
    {
      low := mem[regs.sp];
      regs := regs.(sp := Wrap16(regs.sp + 1));
      high := mem[regs.sp];
      regs := regs.(sp := Wrap16(regs.sp + 1));
    }

    /** `write_word(sp - 2, v); sp -= 2`, the first half of call and rst. */
    method PushReturn(v: word)
      modifies this
      ensures Snapshot() == PushWord(old(Snapshot()), v)
    {
      WriteWordAt(Wrap16(regs.sp - 2), v);
      regs := regs.(sp := Wrap16(regs.sp - 2));
    }

    // -------------------------------------------------------------------
    // The handlers, by family
    // -------------------------------------------------------------------

    method RunControl(op: ControlOp) returns (cycles: int)
      modifies this
      ensures Outcome(Snapshot(), cycles) == ExecControl(old(Snapshot()), op)
    {
      match op
      case Nop => cycles := 1;
      case Stop =>
        regs := regs.(pc := Wrap16(regs.pc + 1));
        cycles := 1;
      case Halt => cycles := 1;
      case Di => cycles := 1;
      case Ei => cycles := 1;
      case Reti => cycles := 4;
      case Unimplemented => cycles := 0;
      case Jr =>
        var offset := Int8(mem[regs.pc]) + 2;
        regs := regs.(pc := Wrap16(regs.pc + offset - 1));
        cycles := 3;
      case JrIf(cond) =>
        if Holds(cond, regs.f) {
          var offset := Int8(mem[regs.pc]) + 2;
          regs := regs.(pc := Wrap16(regs.pc + offset - 1));
          cycles := 3;
        } else {
          regs := regs.(pc := Wrap16(regs.pc + 1));
          cycles := 2;
        }
      case JrIfCarry =>
        if regs.f.c {
          var offset := WrapInt8(Int8(mem[regs.pc]) + 2);
          regs := regs.(pc := Wrap16(regs.pc + offset - 1));
          cycles := 3;
        } else {
          regs := regs.(pc := Wrap16(regs.pc + 1));
          cycles := 2;
        }
      case JpIf(cond) =>
        if Holds(cond, regs.f) {
          regs := regs.(pc := ReadWord(mem, regs.pc));
          cycles := 4;
        } else {
          cycles := 3;
        }
      case Jp =>
        regs := regs.(pc := ReadWord(mem, regs.pc));
        cycles := 4;
      case JpAtHl =>
        regs := regs.(pc := regs.h / 0x100 + regs.l);
        cycles := 1;
    }

    /** `pc = mmu.read_word(sp); sp += 2`. */
    method Return()
      modifies this
      ensures regs == old(regs).(pc := ReadWord(mem, old(regs).sp), sp := Wrap16(old(regs).sp + 2))
      ensures mem == old(mem)
    {
      regs := regs.(pc := ReadWord(mem, regs.sp));
      regs := regs.(sp := Wrap16(regs.sp + 2));
    }

    /** call: push pc + 2, then jump to the word at pc, read after the push. */
    method CallTo()
      modifies this
      ensures var s := old(Snapshot()); var s1 := PushWord(s, Wrap16(s.regs.pc + 2));
        Snapshot() == s1.(regs := s1.regs.(pc := ReadWord(s1.mem, s.regs.pc)))
    {
      PushReturn(Wrap16(regs.pc + 2));
      regs := regs.(pc := ReadWord(mem, regs.pc));
    }

    method RunStack(op: StackOp) returns (cycles: int)
      modifies this
      ensures Outcome(Snapshot(), cycles) == ExecStack(old(Snapshot()), op)
    {
      match op
      case RetIf(cond) =>
        if Holds(cond, regs.f) {
          Return();
          cycles := 5;
        } else {
          cycles := 2;
        }
      case Ret =>
        Return();
        cycles := 4;
      case CallIf(cond) =>
        if Holds(cond, regs.f) {
          CallTo();
          cycles := 6;
        } else {
          regs := regs.(pc := Wrap16(regs.pc + 2));
          cycles := 3;
        }
      case Call =>
        CallTo();
        cycles := 6;
      case Rst(vector) =>
        PushReturn(regs.pc);
        regs := regs.(pc := vector);
        cycles := 4;
      case Push(p) =>
        PushPair(PairHigh(regs, p), PairLow(regs, p));
        cycles := 4;
      case Pop(p) =>
        var high, low := PopPair();
        regs := SetPair(regs, p, high, low);
        cycles := 3;
    }

    method RunWide(op: WideOp) returns (cycles: int)
      modifies this
      ensures Outcome(Snapshot(), cycles) == ExecWide(old(Snapshot()), op)
    {
      match op
      case LdPairImm(p) =>
        var v := ReadWord(mem, regs.pc);
        if p == SP {
          regs := regs.(sp := v);
        } else {
          regs := SetPair(regs, p, High(v), Low(v));
        }
        regs := regs.(pc := Wrap16(regs.pc + 2));
        cycles := 3;
      case IncPair(p) =>
        if p == SP {
          regs := regs.(sp := Wrap16(regs.sp + 1));
        } else {
          var res := IncR16(PairHigh(regs, p), PairLow(regs, p));
          regs := SetPair(regs, p, res.high, res.low);
        }
        cycles := 2;
      case DecPair(p) =>
        if p == SP {
          regs := regs.(sp := Wrap16(regs.sp - 1));
        } else {
          var res := DecR16(PairHigh(regs, p), PairLow(regs, p));
          regs := SetPair(regs, p, res.high, res.low);
        }
        cycles := 2;
      case AddHl(p) =>
        var res := AddHlR16(regs.h, regs.l, regs.f, PairHigh(regs, p), PairLow(regs, p));
        regs := regs.(h := res.h, l := res.l, f := res.flags);
        cycles := 2;
      case LdAtImmSp =>
        var addr := ReadWord(mem, regs.pc);
        regs := regs.(pc := Wrap16(regs.pc + 2));
        WriteWordAt(addr, regs.sp);
        cycles := 5;
      case LdSpHl =>
        regs := regs.(sp := Hl(regs));
        cycles := 2;
      case AddSpImm =>
        regs := regs.(f := KeepHC(regs.f));
        var v := FetchByte();
        regs := regs.(sp := Wrap16(regs.sp + Int8(v)));
        cycles := 4;
      case LdhlSpImm =>
        regs := regs.(f := KeepHC(regs.f));
        var v := FetchByte();
        var w := Wrap16(regs.sp + Int8(v));
        regs := regs.(h := High(w), l := Low(w));
        cycles := 3;
    }

    method RunLoad(op: LoadOp) returns (cycles: int)
      modifies this
      ensures Outcome(Snapshot(), cycles) == ExecLoad(old(Snapshot()), op)
    {
      match op
      case LdAtPairA(p) =>
        WriteByteAt(PairWord(regs, p), regs.a);
        cycles := 2;
      case LdAAtPair(p) =>
        regs := regs.(a := mem[PairWord(regs, p)]);
        cycles := 2;
      case LdRegImm(x) =>
        var v := FetchByte();
        regs := Set(regs, x, v);
        cycles := 2;
      case LdAtHlImm =>
        var addr := Hl(regs);
        var v := FetchByte();
        WriteByteAt(addr, v);
        cycles := 3;
      case LdiAtHlA =>
        WriteByteAt(Hl(regs), regs.a);
        var hl := IncR16(regs.h, regs.l);
        regs := regs.(h := hl.high, l := hl.low);
        cycles := 2;
      case LdiAAtHl =>
        regs := regs.(a := mem[Hl(regs)]);
        var hl := IncR16(regs.h, regs.l);
        regs := regs.(h := hl.high, l := hl.low);
        cycles := 2;
      case LddAtHlA =>
        WriteByteAt(Hl(regs), regs.a);
        var hl := DecR16(regs.h, regs.l);
        regs := regs.(h := hl.high, l := hl.low);
        cycles := 2;
      case LddAAtHl =>
        regs := regs.(a := mem[Hl(regs)]);
        var hl := DecR16(regs.h, regs.l);
        regs := regs.(h := hl.high, l := hl.low);
        cycles := 2;
      case LdRegReg(dst, src) =>
        regs := Set(regs, dst, Get(regs, src));
        cycles := 1;
      case LdRegAtHl(dst) =>
        regs := Set(regs, dst, mem[Hl(regs)]);
        cycles := 2;
      case LdAtHlReg(src) =>
        WriteByteAt(Hl(regs), Get(regs, src));
        cycles := 2;
      case LdhAtImmA =>
        var v := FetchByte();
        var addr: word := 0xFF00 + v as int;
        WriteByteAt(addr, regs.a);
        cycles := 3;
      case LdAtCA =>
        var addr: word := 0xFF00 + regs.c;
        WriteByteAt(addr, regs.a);
        cycles := 3;
      case LdAtImmWordA =>
        var addr := ReadWord(mem, regs.pc);
        WriteByteAt(addr, regs.a);
        regs := regs.(pc := Wrap16(regs.pc + 2));
        cycles := 4;
      case LdhAAtImm =>
        var v := FetchByte();
        regs := regs.(a := mem[0xFF00 + v]);
        cycles := 3;
      case LdAAtC =>
        regs := regs.(a := mem[0xFF00 + regs.c]);
        cycles := 2;
      case LdAAtImmWord =>
        regs := regs.(a := mem[ReadWord(mem, regs.pc)]);
        regs := regs.(pc := Wrap16(regs.pc + 2));
        cycles := 4;
    }

    method RunArith(op: ArithOp) returns (cycles: int)
      modifies this
      ensures Outcome(Snapshot(), cycles) == ExecArith(old(Snapshot()), op)
    {
      match op
      case IncReg(x) =>
        var res := IncR8(Get(regs, x), regs.f);
        regs := Set(regs, x, res.value).(f := res.flags);
        cycles := 1;
      case DecReg(x) =>
        var res := DecR8(Get(regs, x), regs.f);
        regs := Set(regs, x, res.value).(f := res.flags);
        cycles := 1;
      case IncAtHl =>
        var addr := Hl(regs);
        var res := IncR8(mem[addr], regs.f);
        regs := regs.(f := res.flags);
        WriteByteAt(addr, res.value);
        cycles := 3;
      case DecAtHl =>
        var addr := Hl(regs);
        var res := DecR8(mem[addr], regs.f);
        regs := regs.(f := res.flags);
        WriteByteAt(addr, res.value);
        cycles := 3;
      case Acc(acc) =>
        var res := AccResult(acc, regs.a, regs.f);
        regs := regs.(a := res.value, f := res.flags);
        cycles := 1;
      case Alu(alu, src) =>
        var v: byte;
        match src {
          case Reg(x) => v := Get(regs, x);
          case AtHl => v := mem[Hl(regs)];
          case Imm => v := FetchByte();
        }
        var res := AluResult(alu, regs.a, v, regs.f);
        regs := regs.(a := res.value, f := res.flags);
        cycles := if src.Reg? then 1 else 2;
    }

    method RunCb(op: CbOp) returns (cycles: int)
      modifies this
      ensures Outcome(Snapshot(), cycles) == ExecCb(old(Snapshot()), op)
    {
      var v := if op.target.InReg? then Get(regs, op.target.r) else mem[Hl(regs)];
      var res: ByteResult;
      match op {
        case Shift(shift, _) => res := ShiftResult(shift, v, regs.f);
        case BitTest(b, _) => res := ByteResult(v, BitR8(b, v, regs.f));
        case ResBit(b, _) => res := ByteResult(ResR8(b, v), regs.f);
        case SetBitOf(b, _) => res := ByteResult(SetR8(b, v), regs.f);
      }
      if op.target.InReg? {
        regs := Set(regs, op.target.r, res.value).(f := res.flags);
        cycles := 2;
      } else {
        regs := regs.(f := res.flags);
        WriteByteAt(Hl(regs), res.value);
        cycles := 4;
      }
    }

    /** `instructions[i]()` for one entry of the table; prefix_cb fetches the CB opcode. */
    method Run(h: Handler) returns (cycles: int)
      modifies this
      ensures Outcome(Snapshot(), cycles) == Exec(old(Snapshot()), h)
    {
      match h
      case Control(op) => cycles := RunControl(op);
      case Stack(op) => cycles := RunStack(op);
      case Wide(op) => cycles := RunWide(op);
      case Load(op) => cycles := RunLoad(op);
      case Arith(op) => cycles := RunArith(op);
      case Cb(op) => cycles := RunCb(op);
      case PrefixCb =>
        var op := FetchByte();
        cycles := RunCb(CbTable(op));
    }

    /** `execute`: `return instructions[mmu.read_byte(pc++)]()`. */
    method Execute() returns (cycles: int)
      modifies this
      ensures Outcome(Snapshot(), cycles) == Step(old(Snapshot()))
      ensures 0 <= cycles <= 6 && (cycles == 0 <==> Fetched(old(Snapshot())) in UnimplementedOpcodes)
    {
      var op := FetchByte();
      cycles := Run(BaseTable(op));
    }
  }
}
