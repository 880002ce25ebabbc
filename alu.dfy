/**
 * The flag register and the arithmetic helpers of the CPU (src/core/cpu.h,
 * and the accumulator-only handlers of src/core/cpu.cpp). In the C++ each
 * helper updates a by-reference operand and regs.f; here each one is a
 * function from the operand(s) and the old flags to the new operand and the
 * new flags, and the CPU assigns both. The bodies follow the C++ step by
 * step; the contracts say what the result means.
 */
module Alu {
  import opened Bytes

  /**
   * The flag register f: Z is bit 7 (0x80), N bit 6 (0x40), H bit 5 (0x20),
   * C bit 4 (0x10). No helper sets the low nibble, but `pop af` can load it.
   */
  datatype Flags = Flags(z: bool, n: bool, h: bool, c: bool, low: nibble)

  /** `f = 0`. */
  const Cleared := Flags(false, false, false, false, 0)

  /** The byte held in f. */
  function FlagsByte(f: Flags): byte {
    (if f.z then 0x80 else 0) + (if f.n then 0x40 else 0) + (if f.h then 0x20 else 0)
      + (if f.c then 0x10 else 0) + f.low
  }

  /**
   * The flags a byte loaded into f stands for: Z_FLAG (bit 7), N_FLAG,
   * H_FLAG and C_FLAG (bit 4) read from the top down, each bit's value taken
   * off before the next is read, and the low nibble left.
   */
  function FlagsOfByte(b: byte): Flags {
    var z := b >= 0x80;
    var b1 := if z then b - 0x80 else b;
    var n := b1 >= 0x40;
    var b2 := if n then b1 - 0x40 else b1;
    var h := b2 >= 0x20;
    var b3 := if h then b2 - 0x20 else b2;
    var c := b3 >= 0x10;
    Flags(z, n, h, c, if c then b3 - 0x10 else b3)
  }

  lemma FlagsByteRoundTrip(f: Flags)
    ensures FlagsOfByte(FlagsByte(f)) == f
  {
  }

  lemma ByteFlagsRoundTrip(b: byte)
    ensures FlagsByte(FlagsOfByte(b)) == b
  {
  }

  /** `(f & C_FLAG) >> 4`, the carry as a number. */
  function CarryIn(f: Flags): int {
    if f.c then 1 else 0
  }

  datatype ByteResult = ByteResult(value: byte, flags: Flags)
  datatype PairResult = PairResult(high: byte, low: byte)
  datatype HlResult = HlResult(h: byte, l: byte, flags: Flags)

  // ---------------------------------------------------------------------
  // Increments and decrements (cpu.h dec_r8, inc_r8, dec_r16, inc_r16)
  // ---------------------------------------------------------------------

  function DecR8(r: byte, f: Flags): (res: ByteResult)
    ensures res.value == Wrap8(r - 1)
    ensures res.flags.z <==> r == 1
    ensures res.flags.n
    ensures res.flags.h <==> r % 0x10 == 0
    ensures res.flags.c == f.c && res.flags.low == 0
  {
    var f1 := Cleared.(c := f.c);
    var f2 := f1.(n := true);
    var f3 := if r % 0x10 == 0 then f2.(h := true) else f2;
    var r' := Wrap8(r - 1);
    ByteResult(r', if r' == 0 then f3.(z := true) else f3)
  }

  function IncR8(r: byte, f: Flags): (res: ByteResult)
    ensures res.value == Wrap8(r + 1)
    ensures res.flags.z <==> r == 0xFF
    ensures !res.flags.n
    ensures res.flags.h <==> r % 0x10 == 0xF
    ensures res.flags.c == f.c && res.flags.low == 0
  {
    var f1 := Cleared.(c := f.c);
    var f2 := if r % 0x10 == 0xF then f1.(h := true) else f1;
    var r' := Wrap8(r + 1);
    ByteResult(r', if r' == 0 then f2.(z := true) else f2)
  }

  function DecR16(high: byte, low: byte): (res: PairResult)
    ensures WordOf(res.high, res.low) == Wrap16(WordOf(high, low) - 1)
  {
    var low' := Wrap8(low - 1);
    if low' == 0xFF then PairResult(Wrap8(high - 1), low') else PairResult(high, low')
  }

  function IncR16(high: byte, low: byte): (res: PairResult)
    ensures WordOf(res.high, res.low) == Wrap16(WordOf(high, low) + 1)
  {
    var low' := Wrap8(low + 1);
    if low' == 0 then PairResult(Wrap8(high + 1), low') else PairResult(high, low')
  }

  lemma DecUndoesInc(high: byte, low: byte)
    ensures DecR16(IncR16(high, low).high, IncR16(high, low).low) == PairResult(high, low)
  {
    Wrap8Once(low + 1);
    Wrap8Once(Wrap8(low + 1) - 1);
    if low == 0xFF {
      Wrap8Once(high + 1);
      Wrap8Once(Wrap8(high + 1) - 1);
    }
  }

  /**
   * add_hl_r16: hl += (high, low). Z is kept, N cleared. The carry out of l
   * is added to the uint8_t `high` before H and C are computed, so when that
   * addition wraps (high == 0xFF) or carries into bit 4 the carry out of the
   * 16-bit sum is lost from C, resp. H (see AddHlSum, AddHlCarry, AddHlHalf).
   */
  function AddHlR16(h: byte, l: byte, f: Flags, high: byte, low: byte): (res: HlResult)
    ensures res.flags.z == f.z && !res.flags.n && res.flags.low == 0
    ensures res.l == Wrap8(l + low)
  {
    var f1 := Cleared.(z := f.z);
    var high1 := if l + low >= 0x100 then Wrap8(high + 1) else high;
    var l' := Wrap8(l + low);
    var f2 := if h % 0x10 + high1 % 0x10 >= 0x10 then f1.(h := true) else f1;
    var f3 := if h + high1 >= 0x100 then f2.(c := true) else f2;
    HlResult(Wrap8(h + high1), l', f3)
  }

  /** The new hl is the 16-bit sum of hl and the operand. */
  lemma AddHlSum(h: byte, l: byte, f: Flags, high: byte, low: byte)
    ensures var res := AddHlR16(h, l, f, high, low);
      WordOf(res.h, res.l) == Wrap16(WordOf(h, l) + WordOf(high, low))
  {
    var high1 := if l + low >= 0x100 then Wrap8(high + 1) else high;
    assert AddHlR16(h, l, f, high, low).h == Wrap8(h + high1);
    if l + low >= 0x100 {
      if high == 0xFF {
        assert high1 == 0;
      } else {
        assert high1 == high + 1;
      }
    }
  }

  /**
   * C is the carry out of the 16-bit sum, except when the carry out of l
   * meets high == 0xFF: `++high` wraps to 0 and the carry is lost.
   */
  lemma AddHlCarry(h: byte, l: byte, f: Flags, high: byte, low: byte)
    ensures AddHlR16(h, l, f, high, low).flags.c <==>
      WordOf(h, l) + WordOf(high, low) >= 0x1_0000 && !(high == 0xFF && l + low >= 0x100)
  {
    var carry := if l + low >= 0x100 then 1 else 0;
    Wrap8Once(high + carry);
  }

  /**
   * H is the carry out of bit 11 of the 16-bit sum, except when the carry
   * out of l meets a high nibble 0xF in `high`: `++high` carries into bit 4
   * of `high` itself and H no longer sees it.
   */
  lemma AddHlHalf(h: byte, l: byte, f: Flags, high: byte, low: byte)
    ensures AddHlR16(h, l, f, high, low).flags.h <==>
      WordOf(h, l) % 0x1000 + WordOf(high, low) % 0x1000 >= 0x1000
      && !(high % 0x10 == 0xF && l + low >= 0x100)
  {
    var carry := if l + low >= 0x100 then 1 else 0;
    Wrap8Once(high + carry);
    WordOfLow12(h, l);
    WordOfLow12(high, low);
    assert (high + carry) % 0x10 == if high % 0x10 + carry == 0x10 then 0 else high % 0x10 + carry;
  }

  // ---------------------------------------------------------------------
  // 8-bit arithmetic on an accumulator (add, adc, sub, sbc, and, xor, or, cp)
  // ---------------------------------------------------------------------

  function AddR8(r1: byte, r2: byte): (res: ByteResult)
    ensures res.value + (if res.flags.c then 0x100 else 0) == r1 + r2
    ensures res.value % 0x10 + (if res.flags.h then 0x10 else 0) == r1 % 0x10 + r2 % 0x10
    ensures res.flags.z <==> res.value == 0
    ensures !res.flags.n && res.flags.low == 0
  {
    var f1 := Cleared;
    var f2 := if r1 % 0x10 + r2 % 0x10 >= 0x10 then f1.(h := true) else f1;
    var f3 := if r1 + r2 >= 0x100 then f2.(c := true) else f2;
    var r' := Wrap8(r1 + r2);
    ByteResult(r', if r' == 0 then f3.(z := true) else f3)
  }

  function AdcR8(r1: byte, r2: byte, f: Flags): (res: ByteResult)
    ensures res.value + (if res.flags.c then 0x100 else 0) == r1 + r2 + CarryIn(f)
    ensures res.value % 0x10 + (if res.flags.h then 0x10 else 0)
      == r1 % 0x10 + r2 % 0x10 + CarryIn(f)
    ensures res.flags.z <==> res.value == 0
    ensures !res.flags.n && res.flags.low == 0
  {
    var carry := CarryIn(f);
    var f1 := Cleared;
    var f2 := if r1 % 0x10 + r2 % 0x10 + carry >= 0x10 then f1.(h := true) else f1;
    var f3 := if r1 + r2 + carry >= 0x100 then f2.(c := true) else f2;
    var r' := Wrap8(r1 + r2 + carry);
    ByteResult(r', if r' == 0 then f3.(z := true) else f3)
  }

  /** sub_r8: a -= r; C is the borrow out of bit 7, H the borrow out of bit 3. */
  function SubR8(a: byte, r: byte): (res: ByteResult)
    ensures res.value == a - r + (if res.flags.c then 0x100 else 0)
    ensures res.value % 0x10 == a % 0x10 - r % 0x10 + (if res.flags.h then 0x10 else 0)
    ensures res.flags.z <==> a == r
    ensures res.flags.n && res.flags.low == 0
  {
    var f1 := Cleared.(n := true);
    var f2 := if a % 0x10 < r % 0x10 then f1.(h := true) else f1;
    var f3 := if a < r then f2.(c := true) else f2;
    var a' := Wrap8(a - r);
    ByteResult(a', if a' == 0 then f3.(z := true) else f3)
  }

  /**
   * sbc_r8_r8 as written: r1 -= (r2 - carry), so the carry is added back
   * instead of subtracted, and H and C compare against r2 - carry.
   */
  function SbcR8(r1: byte, r2: byte, f: Flags): (res: ByteResult)
    ensures res.value == Wrap8(r1 - r2 + CarryIn(f))
    ensures res.flags.c <==> r1 + CarryIn(f) < r2
    ensures res.flags.h <==> r1 % 0x10 + CarryIn(f) < r2 % 0x10
    ensures res.flags.z <==> res.value == 0
    ensures res.flags.n && res.flags.low == 0
  {
    var carry := CarryIn(f);
    var f1 := Cleared.(n := true);
    var f2 := if r1 % 0x10 < r2 % 0x10 - carry then f1.(h := true) else f1;
    var f3 := if r1 < r2 - carry then f2.(c := true) else f2;
    var r' := Wrap8(r1 - (r2 - carry));
    ByteResult(r', if r' == 0 then f3.(z := true) else f3)
  }

  function AndR8(a: byte, r: byte): (res: ByteResult)
    ensures res.value == And(a, r)
    ensures res.flags == Flags(res.value == 0, false, true, false, 0)
  {
    var a' := And(a, r);
    if a' == 0 then ByteResult(a', Cleared.(z := true, h := true)) else ByteResult(a', Cleared.(h := true))
  }

  function XorR8(a: byte, r: byte): (res: ByteResult)
    ensures res.value == Xor(a, r)
    ensures res.flags == Flags(res.value == 0, false, false, false, 0)
  {
    var a' := Xor(a, r);
    ByteResult(a', if a' == 0 then Cleared.(z := true) else Cleared)
  }

  function OrR8(a: byte, r: byte): (res: ByteResult)
    ensures res.value == Or(a, r)
    ensures res.flags == Flags(res.value == 0, false, false, false, 0)
  {
    var a' := Or(a, r);
    ByteResult(a', if a' == 0 then Cleared.(z := true) else Cleared)
  }

  /** cp_r8: the flags of a - r, with a left unchanged. */
  function CpR8(a: byte, r: byte): (res: ByteResult)
    ensures res.value == a
    ensures res.flags == SubR8(a, r).flags
  {
    var f1 := Cleared.(n := true);
    var f2 := if a % 0x10 < r % 0x10 then f1.(h := true) else f1;
    var f3 := if a < r then f2.(c := true) else f2;
    ByteResult(a, if a - r == 0 then f3.(z := true) else f3)
  }

  // ---------------------------------------------------------------------
  // Rotates, shifts and swap (the CB page)
  // ---------------------------------------------------------------------

  /** rlc_r8: rotate left; bit 7 goes to C and to bit 0. */
  function RlcR8(r: byte): (res: ByteResult)
    ensures res.value == if r >= 0x80 then 2 * r - 0xFF else 2 * r
    ensures res.flags == Flags(r == 0, false, false, r >= 0x80, 0)
  {
    BitSeven(r);
    var f1 := if Bit(r, 7) then Cleared.(c := true) else Cleared;
    var r' := Wrap8(2 * r + CarryIn(f1));
    ByteResult(r', if r' == 0 then f1.(z := true) else f1)
  }

  /** rrc_r8: rotate right; bit 0 goes to C and to bit 7. */
  function RrcR8(r: byte): (res: ByteResult)
    ensures res.value == r / 2 + (r % 2) * 0x80
    ensures res.flags == Flags(r == 0, false, false, r % 2 == 1, 0)
  {
    BitZero(r);
    var f1 := if Bit(r, 0) then Cleared.(c := true) else Cleared;
    var r' := Wrap8(r / 2 + CarryIn(f1) * 0x80);
    ByteResult(r', if r' == 0 then f1.(z := true) else f1)
  }

  /** rl_r8: rotate left through the carry. */
  function RlR8(r: byte, f: Flags): (res: ByteResult)
    ensures res.value == (if r >= 0x80 then 2 * r - 0x100 else 2 * r) + CarryIn(f)
    ensures res.flags == Flags(res.value == 0, false, false, r >= 0x80, 0)
  {
    BitSeven(r);
    var carry := CarryIn(f);
    var f1 := if Bit(r, 7) then Cleared.(c := true) else Cleared;
    var r' := Wrap8(2 * r + carry);
    ByteResult(r', if r' == 0 then f1.(z := true) else f1)
  }

  /** rr_r8: rotate right through the carry. */
  function RrR8(r: byte, f: Flags): (res: ByteResult)
    ensures res.value == r / 2 + CarryIn(f) * 0x80
    ensures res.flags == Flags(res.value == 0, false, false, r % 2 == 1, 0)
  {
    BitZero(r);
    var carry := CarryIn(f) * 0x80;
    var f1 := if Bit(r, 0) then Cleared.(c := true) else Cleared;
    var r' := Wrap8(r / 2 + carry);
    ByteResult(r', if r' == 0 then f1.(z := true) else f1)
  }

  /**
   * sla_r8 as written: `f |= (r & 0x80) << 4` stores 0x800 into a uint8_t,
   * which keeps nothing, so C is never set.
   */
  function SlaR8(r: byte): (res: ByteResult)
    ensures res.value == Wrap8(2 * r)
    ensures res.flags == Flags(r % 0x80 == 0, false, false, false, 0)
  {
    var f1 := Cleared;
    var r' := Wrap8(2 * r);
    ByteResult(r', if r' == 0 then f1.(z := true) else f1)
  }

  /** sra_r8: shift right, keeping bit 7; bit 0 goes to C. */
  function SraR8(r: byte): (res: ByteResult)
    ensures res.value == r / 2 + (if r >= 0x80 then 0x80 else 0)
    ensures res.flags == Flags(r / 2 == 0 && r < 0x80, false, false, r % 2 == 1, 0)
  {
    BitZero(r);
    BitSeven(r);
    var f1 := if Bit(r, 0) then Cleared.(c := true) else Cleared;
    var msb := if Bit(r, 7) then 0x80 else 0;
    var r' := Wrap8(r / 2 + msb);
    ByteResult(r', if r' == 0 then f1.(z := true) else f1)
  }

  function SwapR8(r: byte): (res: ByteResult)
    ensures res.value == (r % 0x10) * 0x10 + r / 0x10
    ensures res.flags == Flags(r == 0, false, false, false, 0)
  {
    var high, low := r / 0x10, r % 0x10;
    assert 0x10 * r + high == 0x100 * high + (low * 0x10 + high);
    Wrap8Multiple(high, low * 0x10 + high);
    var r' := Wrap8(0x10 * r + high);
    ByteResult(r', if r' == 0 then Cleared.(z := true) else Cleared)
  }

  /** srl_r8: shift right, bit 0 to C. */
  function SrlR8(r: byte): (res: ByteResult)
    ensures res.value == r / 2
    ensures res.flags == Flags(r < 2, false, false, r % 2 == 1, 0)
  {
    BitZero(r);
    var f1 := if Bit(r, 0) then Cleared.(c := true) else Cleared;
    var r' := r / 2;
    ByteResult(r', if r' == 0 then f1.(z := true) else f1)
  }

  /** rrc undoes rlc. */
  lemma RrcUndoesRlc(r: byte)
    ensures RrcR8(RlcR8(r).value).value == r
  {
  }

  /** rlc undoes rrc. */
  lemma RlcUndoesRrc(r: byte)
    ensures RlcR8(RrcR8(r).value).value == r
  {
  }

  /** rr, given the flags rl produced, undoes rl and restores the carry. */
  lemma RrUndoesRl(r: byte, f: Flags)
    ensures RrR8(RlR8(r, f).value, RlR8(r, f).flags).value == r
    ensures RrR8(RlR8(r, f).value, RlR8(r, f).flags).flags.c == f.c
  {
  }

  /** rl, given the flags rr produced, undoes rr and restores the carry. */
  lemma RlUndoesRr(r: byte, f: Flags)
    ensures RlR8(RrR8(r, f).value, RrR8(r, f).flags).value == r
    ensures RlR8(RrR8(r, f).value, RrR8(r, f).flags).flags.c == f.c
  {
  }

  lemma SwapTwice(r: byte)
    ensures SwapR8(SwapR8(r).value).value == r
  {
    var high, low := r / 0x10, r % 0x10;
    var s := SwapR8(r).value;
    assert s == low * 0x10 + high;
    assert s % 0x10 == high;
    assert s / 0x10 == low;
  }

  // ---------------------------------------------------------------------
  // Single-bit operations (bit, res, set)
  // ---------------------------------------------------------------------

  /** bit_b_r8: Z is set when bit b of r is clear; H set, N cleared, C kept. */
  function BitR8(b: bitIndex, r: byte, f: Flags): (res: Flags)
    ensures res == Flags(!Bit(r, b), false, true, f.c, 0)
  {
    var f1 := Cleared.(c := f.c).(h := true);
    if !Bit(r, b) then f1.(z := true) else f1
  }

  /** res_b_r8: `r &= ~(1 << b)` clears bit b and keeps every other bit. */
  function ResR8(b: bitIndex, r: byte): (res: byte)
    ensures !Bit(res, b)
    ensures forall j: bitIndex | j != b :: Bit(res, j) == Bit(r, j)
  {
    forall j: bitIndex {
      ClearBitBit(r as bv8, b, j);
    }
    ByteOf(ClearBit(r as bv8, b))
  }

  /** set_b_r8: `r |= 1 << b` sets bit b and keeps every other bit. */
  function SetR8(b: bitIndex, r: byte): (res: byte)
    ensures Bit(res, b)
    ensures forall j: bitIndex | j != b :: Bit(res, j) == Bit(r, j)
  {
    forall j: bitIndex {
      SetBitBit(r as bv8, b, j);
    }
    ByteOf(SetBit(r as bv8, b))
  }

  // ---------------------------------------------------------------------
  // Accumulator-only handlers of cpu.cpp (rlca, rrca, rla, rra, daa, cpl,
  // scf, ccf)
  // ---------------------------------------------------------------------

  /** rlca: like rlc but Z is always cleared. */
  function Rlca(a: byte): (res: ByteResult)
    ensures res.value == RlcR8(a).value
    ensures res.flags == Flags(false, false, false, a >= 0x80, 0)
  {
    var f1 := if Bit(a, 7) then Cleared.(c := true) else Cleared;
    ByteResult(Wrap8(2 * a + CarryIn(f1)), f1)
  }

  /** rrca: like rrc but Z is always cleared. */
  function Rrca(a: byte): (res: ByteResult)
    ensures res.value == RrcR8(a).value
    ensures res.flags == Flags(false, false, false, a % 2 == 1, 0)
  {
    var f1 := if Bit(a, 0) then Cleared.(c := true) else Cleared;
    ByteResult(Wrap8(a / 2 + CarryIn(f1) * 0x80), f1)
  }

  /** rla: like rl but Z is always cleared. */
  function Rla(a: byte, f: Flags): (res: ByteResult)
    ensures res.value == RlR8(a, f).value
    ensures res.flags == Flags(false, false, false, a >= 0x80, 0)
  {
    var carry := CarryIn(f);
    var f1 := if Bit(a, 7) then Cleared.(c := true) else Cleared;
    ByteResult(Wrap8(2 * a + carry), f1)
  }

  /** rra: like rr but Z is always cleared. */
  function Rra(a: byte, f: Flags): (res: ByteResult)
    ensures res.value == RrR8(a, f).value
    ensures res.flags == Flags(false, false, false, a % 2 == 1, 0)
  {
    var carry := CarryIn(f) * 0x80;
    var f1 := if Bit(a, 0) then Cleared.(c := true) else Cleared;
    ByteResult(Wrap8(a / 2 + carry), f1)
  }

  /**
   * daa as written: add 6 when H is set or the low digit is above 9, then
   * clear C; add 0x60 and set C when H is set or the original a is above
   * 0x99. N is ignored, and H (not C) decides the high-digit correction;
   * Z and H are left as they were.
   */
  function Daa(a: byte, f: Flags): (res: ByteResult)
    ensures res.value == Wrap8(a + (if f.h || a % 0x10 > 9 then 6 else 0)
                                 + (if f.h || a > 0x99 then 0x60 else 0))
    ensures res.flags == f.(c := f.h || a > 0x99)
  {
    var aTmp := a;
    var a1 := if f.h || a % 0x10 > 9 then Wrap8(a + 6) else a;
    var f1 := f.(c := false);
    if f1.h || aTmp > 0x99 then ByteResult(Wrap8(a1 + 0x60), f1.(c := true)) else ByteResult(a1, f1)
  }

  /** cpl: `a ^= 0xFF; f |= 0x60`. */
  function Cpl(a: byte, f: Flags): (res: ByteResult)
    ensures res.value + a == 0xFF
    ensures res.flags == f.(n := true, h := true)
  {
    ByteResult(0xFF - a, f.(n := true, h := true))
  }

  /** scf: `f &= 0x80; f |= 0x10`. */
  function Scf(f: Flags): (res: Flags)
    ensures res == Flags(f.z, false, false, true, 0)
  {
    Cleared.(z := f.z).(c := true)
  }

  /** ccf: `f &= 0x90; f ^= 0x10`. */
  function Ccf(f: Flags): (res: Flags)
    ensures res == Flags(f.z, false, false, !f.c, 0)
  {
    var f1 := Cleared.(z := f.z, c := f.c);
    f1.(c := !f1.c)
  }

  // ---------------------------------------------------------------------
  // How the helpers relate to one another
  // ---------------------------------------------------------------------

  /** dec undoes inc on a byte, whatever the flags in between. */
  lemma DecUndoesIncR8(r: byte, f: Flags, g: Flags)
    ensures DecR8(IncR8(r, f).value, g).value == r
  {
    Wrap8Once(r + 1);
    Wrap8Once(Wrap8(r + 1) - 1);
  }

  /** sub undoes add, and add undoes sub. */
  lemma SubUndoesAdd(a: byte, v: byte)
    ensures SubR8(AddR8(a, v).value, v).value == a
    ensures AddR8(SubR8(a, v).value, v).value == a
  {
    Wrap8Once(a + v);
    Wrap8Once(a - v);
    Wrap8Once(Wrap8(a + v) - v);
    Wrap8Once(Wrap8(a - v) + v);
  }

  /** cp sets Z exactly when the operands are equal, and C exactly when a < r. */
  lemma CpCompares(a: byte, r: byte)
    ensures CpR8(a, r).flags.z <==> a == r
    ensures CpR8(a, r).flags.c <==> a < r
  {
    Wrap8Once(a - r);
  }

  lemma CplTwice(a: byte, f: Flags)
    ensures Cpl(Cpl(a, f).value, f).value == a
  {
  }

  /** `xor a` clears a and sets only Z. */
  lemma XorSelf(a: byte)
    ensures XorR8(a, a) == ByteResult(0, Cleared.(z := true))
  {
    assert (a as bv8) ^ (a as bv8) == 0;
  }

  /** scf then ccf leaves C clear; ccf twice gives back C. */
  lemma CarryFlagOps(f: Flags)
    ensures !Ccf(Scf(f)).c
    ensures Ccf(Ccf(f)).c == f.c
  {
  }

  /** sla as written loses bit 7: shifting 0x80 gives 0 with C clear. */
  lemma SlaLosesCarry()
    ensures SlaR8(0x80) == ByteResult(0, Cleared.(z := true))
  {
  }

  /**
   * sbc as written with C set: 5 - 3 gives 3, the carry added back, where a
   * subtraction with borrow gives 1.
   */
  lemma SbcAddsCarry()
    ensures SbcR8(5, 3, Cleared.(c := true)).value == 3
  {
  }

  /** daa after an addition of two digits gives their decimal sum: 9 + 1 becomes 0x10. */
  lemma DaaAfterAdd()
    ensures Daa(AddR8(0x09, 0x01).value, AddR8(0x09, 0x01).flags).value == 0x10
  {
  }

  /**
   * daa ignores N: after 0x15 - 0x06, which sets H, it adds 6 and 0x60 to
   * 0x0F and gives 0x75, not the decimal difference 0x09.
   */
  lemma DaaIgnoresSubtraction()
    ensures SubR8(0x15, 0x06).flags.h
    ensures Daa(SubR8(0x15, 0x06).value, SubR8(0x15, 0x06).flags).value == 0x75
  {
  }
}
