/**
 * The memory map of src/core/mmu.cpp. Every access first decodes its
 * address into an area (get_area, which also drops the BIOS overlay the
 * first time address 0x100 is touched), then indexes the MMU's own arrays
 * or calls into the GPU and the joypad. An index past the end of an array,
 * which the C++ does not check, is reported as an Overrun.
 */
module Mmu {
  import opened Bytes
  import opened Joypad
  import opened Video

  /** `MMU::Area`. */
  datatype Area = Bios | Rom0 | Rom1 | Vram | Eram | Wram | Oam | Unused | Io | Hram | IeReg

  /** The backing arrays (include/geemuboi/core/mmu.h). */
  const BIOS_SIZE := 0x100
  const ROM_SIZE := 0x4000
  const ERAM_SIZE := 0x2000
  const WRAM_SIZE := 0x2000
  const HRAM_SIZE := 0x7F

  /** The IO registers the MMU forwards. */
  const JOYPAD_REG := 0xFF00
  const GPU_REG_LCD_CONTROL := 0xFF40
  const GPU_REG_SCROLL_Y := 0xFF42
  const GPU_REG_SCROLL_X := 0xFF43
  const GPU_REG_CURR_SCANLINE := 0xFF44
  const GPU_REG_BG_PALETTE := 0xFF47
  const GPU_REG_OBJ_PALETTE_0 := 0xFF48
  const GPU_REG_OBJ_PALETTE_1 := 0xFF49

  // ---------------------------------------------------------------------
  // Address decoding
  // ---------------------------------------------------------------------

  /** `in_bios` after get_area(addr): the first access to 0x100 clears it. */
  function LatchAfter(inBios: bool, addr: word): bool {
    if addr < 0x4000 && inBios && addr == 0x100 then false else inBios
  }

  /**
   * get_area(addr) with `in_bios` on entry. Every address falls in exactly
   * one area, by these ranges; the BIOS covers 0x000..0x0FF only while the
   * overlay is on, and the echo of work RAM runs up to 0xFDFF.
   */
  function AreaOf(addr: word, inBios: bool): (a: Area)
    ensures a == Bios <==> addr < 0x100 && inBios
    ensures a == Rom0 <==> addr < 0x4000 && !(addr < 0x100 && inBios)
    ensures a == Rom1 <==> 0x4000 <= addr < 0x8000
    ensures a == Vram <==> 0x8000 <= addr < 0xA000
    ensures a == Eram <==> 0xA000 <= addr < 0xC000
    ensures a == Wram <==> 0xC000 <= addr < 0xFE00
    ensures a == Oam <==> 0xFE00 <= addr < 0xFEA0
    ensures a == Unused <==> 0xFEA0 <= addr < 0xFF00
    ensures a == Io <==> 0xFF00 <= addr < 0xFF80
    ensures a == Hram <==> 0xFF80 <= addr < 0xFFFF
    ensures a == IeReg <==> addr == 0xFFFF
  {
    var latch := LatchAfter(inBios, addr);
    if addr < 0x4000 then
      if addr < 0x100 && latch then Bios else Rom0
    else if 0x4000 <= addr < 0x8000 then Rom1
    else if 0x8000 <= addr < 0xA000 then Vram
    else if 0xA000 <= addr < 0xC000 then Eram
    else if 0xC000 <= addr < 0xE000 then Wram
    else if 0xE000 <= addr < 0xFDFF then Wram
    else if addr < 0xFE00 then Wram
    else if 0xFE00 <= addr < 0xFEA0 then Oam
    else if 0xFEA0 <= addr < 0xFF00 then Unused
    else if 0xFF00 <= addr < 0xFF80 then Io
    else if 0xFF80 <= addr < 0xFFFF then Hram
    else IeReg
  }

  /** The overlay after a run of accesses, in order. */
  function LatchAfterAll(inBios: bool, addrs: seq<word>): bool {
    if addrs == [] then inBios else LatchAfterAll(LatchAfter(inBios, addrs[0]), addrs[1..])
  }

  /** The overlay is one-way: it survives a run exactly when it was on and 0x100 was never touched. */
  lemma {:induction false} LatchOneWay(inBios: bool, addrs: seq<word>)
    ensures LatchAfterAll(inBios, addrs) <==> inBios && 0x100 !in addrs
  {
    if addrs != [] {
      LatchOneWay(LatchAfter(inBios, addrs[0]), addrs[1..]);
      assert addrs == [addrs[0]] + addrs[1..];
    }
  }

  /** `addr & 0x1FFF`, the low 13 bits. */
  function Low13(addr: word): int {
    addr % 0x2000
  }

  /** `addr & 0x7F`; for the high-RAM window it is the offset from 0xFF80. */
  function Low7(addr: int): (r: int)
    requires 0 <= addr
    ensures 0 <= r < 0x80
    ensures 0xFF80 <= addr < 0x1_0000 ==> r == addr - 0xFF80
  {
    addr % 0x80
  }

  /** `addr & 0x2000`, bit 13 alone. */
  function Bit13(addr: word): int {
    if addr / 0x2000 % 2 == 1 then 0x2000 else 0
  }

  // ---------------------------------------------------------------------
  // What an access sees
  // ---------------------------------------------------------------------

  datatype Option<T> = None | Some(value: T)

  /** The array an index runs past. */
  datatype Backing = BiosArray | RomArray | EramArray | WramArray | HramArray | VramArray | OamArray

  /** `backing[index]` with index outside the array: undefined behaviour in the C++. */
  datatype Overrun = Overrun(backing: Backing, index: int)

  /** A read's value, or the overrun it runs into. */
  datatype Read<T> = Value(value: T) | ReadOverrun(overrun: Overrun)

  /** A write's new state, and the overrun that cut it short, if any. */
  datatype Write = Write(bus: Bus, overrun: Option<Overrun>)

  /** The state the MMU reaches: the overlay, its arrays, and the GPU and joypad fields it forwards to. */
  datatype Bus = Bus(
    inBios: bool,
    bios: seq<byte>, rom: seq<byte>, eram: seq<byte>, wram: seq<byte>, hram: seq<byte>,
    vram: seq<byte>, oam: seq<byte>,
    buttons: byte, columns: seq<bool>,
    lcdControl: byte, scrollY: byte, scrollX: byte, line: byte, bgPalette: byte, objPalette: seq<byte>)

  predicate Sized(b: Bus) {
    |b.bios| == BIOS_SIZE && |b.rom| == ROM_SIZE && |b.eram| == ERAM_SIZE && |b.wram| == WRAM_SIZE &&
    |b.hram| == HRAM_SIZE && |b.vram| == VRAM_SIZE && |b.oam| == OAM_BYTES &&
    |b.columns| == 2 && |b.objPalette| == 2
  }

  /** `a[i] + (a[j] << 8)`, stopping at the first index outside a. */
  function LoadPair(a: seq<byte>, backing: Backing, i: int, j: int): Read<word> {
    if !(0 <= i < |a|) then ReadOverrun(Overrun(backing, i))
    else if !(0 <= j < |a|) then ReadOverrun(Overrun(backing, j))
    else Value(WordOf(a[j], a[i]))
  }

  /** `a[i] + ((a[j] & 0x2000) << 8)`: a byte masked with 0x2000 is 0, so only a[i] is left. */
  function LoadMasked(a: seq<byte>, backing: Backing, i: int, j: int): Read<word> {
    if !(0 <= i < |a|) then ReadOverrun(Overrun(backing, i))
    else if !(0 <= j < |a|) then ReadOverrun(Overrun(backing, j))
    else Value(a[i])
  }

  /** `a[i] = v`, the low byte of v. */
  function StoreLow(a: seq<byte>, backing: Backing, i: int, v: word): (seq<byte>, Option<Overrun>) {
    if 0 <= i < |a| then (a[i := Low(v)], None) else (a, Some(Overrun(backing, i)))
  }

  /** `a[i] = v; a[j] = v >> 8;`, stopping at the first index outside a. */
  function StoreLowHigh(a: seq<byte>, backing: Backing, i: int, j: int, v: word): (seq<byte>, Option<Overrun>) {
    if !(0 <= i < |a|) then (a, Some(Overrun(backing, i)))
    else if !(0 <= j < |a|) then (a[i := Low(v)], Some(Overrun(backing, j)))
    else (a[i := Low(v)][j := High(v)], None)
  }

  /** The IO switch of read_byte. */
  function IoRead(b: Bus, addr: word): byte
    requires Sized(b)
  {
    if addr == JOYPAD_REG then b.buttons
    else if addr == GPU_REG_LCD_CONTROL then b.lcdControl
    else if addr == GPU_REG_SCROLL_Y then b.scrollY
    else if addr == GPU_REG_SCROLL_X then b.scrollX
    else if addr == GPU_REG_CURR_SCANLINE then b.line
    else if addr == GPU_REG_OBJ_PALETTE_0 then b.objPalette[0]
    else if addr == GPU_REG_OBJ_PALETTE_1 then b.objPalette[1]
    else 0
  }

  /** The IO switch of write_byte. */
  function IoWrite(b: Bus, addr: word, v: byte): (b': Bus)
    requires Sized(b)
    ensures Sized(b')
  {
    if addr == JOYPAD_REG then b.(buttons := StoredButtons(b.buttons, v), columns := ColumnsDown(v))
    else if addr == GPU_REG_LCD_CONTROL then b.(lcdControl := v)
    else if addr == GPU_REG_SCROLL_Y then b.(scrollY := v)
    else if addr == GPU_REG_SCROLL_X then b.(scrollX := v)
    else if addr == GPU_REG_BG_PALETTE then b.(bgPalette := v)
    else if addr == GPU_REG_OBJ_PALETTE_0 then b.(objPalette := b.objPalette[0 := v])
    else if addr == GPU_REG_OBJ_PALETTE_1 then b.(objPalette := b.objPalette[1 := v])
    else b
  }

  /** An area get_area can return for addr, with the overlay on or off. */
  predicate Decodes(area: Area, addr: word) {
    area == AreaOf(addr, true) || area == AreaOf(addr, false)
  }

  /** read_byte(addr): what it returns. */
  function ReadByteOf(b: Bus, addr: word): Read<byte>
    requires Sized(b)
  {
    ByteAt(b, AreaOf(addr, b.inBios), addr)
  }

  /** The switch of read_byte, once get_area has returned area. */
  function ByteAt(b: Bus, area: Area, addr: word): Read<byte>
    requires Sized(b) && Decodes(area, addr)
  {
    match area
    case Bios => Value(b.bios[addr])
    case Rom0 => Value(b.rom[addr])
    case Rom1 => ReadOverrun(Overrun(RomArray, addr))
    case Vram => Value(0)
    case Eram => Value(b.eram[Low13(addr)])
    case Wram => Value(b.wram[Low13(addr)])
    case Oam => Value(b.oam[addr - 0xFE00])
    case Unused => Value(0)
    case Io => Value(IoRead(b, addr))
    case Hram => Value(b.hram[Low7(addr)])
    case IeReg => Value(0)
  }

  /** read_word(addr): what it returns. */
  function ReadWordOf(b: Bus, addr: word): Read<word>
    requires Sized(b)
  {
    WordAt(b, AreaOf(addr, b.inBios), addr)
  }

  /** The switch of read_word, once get_area has returned area. */
  function WordAt(b: Bus, area: Area, addr: word): Read<word>
    requires Sized(b) && Decodes(area, addr)
  {
    match area
    case Bios => LoadPair(b.bios, BiosArray, addr, addr + 1)
    case Rom0 => LoadPair(b.rom, RomArray, addr, addr + 1)
    case Rom1 => LoadPair(b.rom, RomArray, addr, addr + 1)
    case Vram => Value(0)
    case Eram => LoadMasked(b.eram, EramArray, Bit13(addr), addr + 1)
    case Wram => LoadMasked(b.wram, WramArray, Bit13(addr), addr + 1)
    case Oam => LoadPair(b.oam, OamArray, addr - 0xFE00, addr - 0xFE00 + 1)
    case Unused => Value(0)
    case Io => Value(0)
    case Hram => LoadPair(b.hram, HramArray, Low7(addr), Low7(addr) + 1)
    case IeReg => Value(0)
  }

  /** write_byte(addr, v): get_area updates the overlay, then the switch writes. */
  function WriteByteOf(b: Bus, addr: word, v: byte): (w: Write)
    requires Sized(b)
    ensures Sized(w.bus)
  {
    ByteWriteAt(b.(inBios := LatchAfter(b.inBios, addr)), AreaOf(addr, b.inBios), addr, v)
  }

  /** The switch of write_byte, once get_area has returned area. */
  function ByteWriteAt(b1: Bus, area: Area, addr: word, v: byte): (w: Write)
    requires Sized(b1) && Decodes(area, addr)
    ensures Sized(w.bus)
  {
    var b := b1;
    match area
    case Bios => Write(b1.(bios := b.bios[addr := v]), None)
    case Rom0 => Write(b1.(rom := b.rom[addr := v]), None)
    case Rom1 => Write(b1, Some(Overrun(RomArray, addr)))
    case Vram => Write(b1.(vram := b.vram[addr - 0x8000 := v]), None)
    case Eram => Write(b1.(eram := b.eram[Low13(addr) := v]), None)
    case Wram => Write(b1.(wram := b.wram[Low13(addr) := v]), None)
    case Oam => Write(b1.(oam := b.oam[addr - 0xFE00 := v]), None)
    case Unused => Write(b1, None)
    case Io => Write(IoWrite(b1, addr, v), None)
    case Hram => Write(b1.(hram := b.hram[Low7(addr) := v]), None)
    case IeReg => Write(b1, None)
  }

  /** write_word(addr, v): get_area updates the overlay, then the switch writes. */
  function WriteWordOf(b: Bus, addr: word, v: word): (w: Write)
    requires Sized(b)
    ensures Sized(w.bus)
  {
    WordWriteAt(b.(inBios := LatchAfter(b.inBios, addr)), AreaOf(addr, b.inBios), addr, v)
  }

  /** The switch of write_word, once get_area has returned area. */
  function WordWriteAt(b1: Bus, area: Area, addr: word, v: word): (w: Write)
    requires Sized(b1) && Decodes(area, addr)
    ensures Sized(w.bus)
  {
    var b := b1;
    match area
    case Bios =>
      var (a, o) := StoreLowHigh(b.bios, BiosArray, addr, addr + 1, v); Write(b1.(bios := a), o)
    case Rom0 =>
      var (a, o) := StoreLowHigh(b.rom, RomArray, addr, addr + 1, v); Write(b1.(rom := a), o)
    case Rom1 =>
      var (a, o) := StoreLow(b.rom, RomArray, addr, v); Write(b1.(rom := a), o)
    case Vram =>
      var (a, o) := StoreLowHigh(b.vram, VramArray, addr - 0x8000, addr - 0x8000 + 1, v); Write(b1.(vram := a), o)
    case Eram =>
      var (a, o) := StoreLow(b.eram, EramArray, Low13(addr), v); Write(b1.(eram := a), o)
    case Wram =>
      var (a, o) := StoreLow(b.wram, WramArray, Low13(addr), v); Write(b1.(wram := a), o)
    case Oam => Write(b1, None)
    case Unused => Write(b1, None)
    case Io => Write(b1, None)
    case Hram =>
      var (a, o) := StoreLowHigh(b.hram, HramArray, Low7(addr), Low7(addr + 1), v); Write(b1.(hram := a), o)
    case IeReg => Write(b1, None)
  }

  /** The read switches do not look at the overlay. */
  lemma LatchIgnored(b: Bus, x: bool, area: Area, addr: word)
    requires Sized(b) && Decodes(area, addr)
    ensures ByteAt(b.(inBios := x), area, addr) == ByteAt(b, area, addr)
    ensures WordAt(b.(inBios := x), area, addr) == WordAt(b, area, addr)
  {
    assert IoRead(b.(inBios := x), addr) == IoRead(b, addr);
  }

  // ---------------------------------------------------------------------
  // Properties of the map
  // ---------------------------------------------------------------------

  /** Two addresses that name the same cell of external, work or high RAM. */
  predicate SameCell(a1: word, a2: word) {
    var r1, r2 := AreaOf(a1, false), AreaOf(a2, false);
    r1 == r2 && (((r1 == Eram || r1 == Wram) && Low13(a1) == Low13(a2)) || (r1 == Hram && a1 == a2))
  }

  /**
   * A byte written to external, work or high RAM is read back at every
   * address naming the same cell, and no read elsewhere changes.
   */
  lemma ByteRoundTrip(b: Bus, addr: word, v: byte, a: word)
    requires Sized(b) && AreaOf(addr, b.inBios) in {Eram, Wram, Hram}
    ensures WriteByteOf(b, addr, v).overrun == None
    ensures ReadByteOf(WriteByteOf(b, addr, v).bus, a) == if SameCell(a, addr) then Value(v) else ReadByteOf(b, a)
  {
    var w := WriteByteOf(b, addr, v).bus;
    assert w.inBios == b.inBios;
    if AreaOf(a, b.inBios) in {Eram, Wram, Hram} {
      assert AreaOf(a, b.inBios) == AreaOf(a, false);
    } else if AreaOf(a, b.inBios) == Io {
      assert IoRead(w, a) == IoRead(b, a);
    }
  }

  /** The echo 0xE000..0xFDFF and 0xC000..0xDDFF are one memory, in both directions. */
  lemma EchoAliases(b: Bus, addr: word, v: byte)
    requires Sized(b) && 0xC000 <= addr < 0xDE00
    ensures ReadByteOf(WriteByteOf(b, addr + 0x2000, v).bus, addr) == Value(v)
    ensures ReadByteOf(WriteByteOf(b, addr, v).bus, addr + 0x2000) == Value(v)
  {
    assert Low13(addr) == Low13(addr + 0x2000);
    ByteRoundTrip(b, addr + 0x2000, v, addr);
    ByteRoundTrip(b, addr, v, addr + 0x2000);
  }

  /** The IO addresses read_byte or write_byte forwards. */
  predicate IsRegister(addr: word) {
    addr in {JOYPAD_REG, GPU_REG_LCD_CONTROL, GPU_REG_SCROLL_Y, GPU_REG_SCROLL_X,
             GPU_REG_CURR_SCANLINE, GPU_REG_BG_PALETTE, GPU_REG_OBJ_PALETTE_0, GPU_REG_OBJ_PALETTE_1}
  }

  /** Regions that ignore writes and read as 0: unused and IE; VRAM and unmapped IO read as 0 too. */
  lemma QuietRegions(b: Bus, addr: word, v: byte)
    requires Sized(b)
    ensures AreaOf(addr, b.inBios) in {Unused, IeReg} ==> WriteByteOf(b, addr, v) == Write(b, None)
    ensures AreaOf(addr, b.inBios) in {Vram, Unused, IeReg} ==> ReadByteOf(b, addr) == Value(0)
    ensures 0xFF00 <= addr < 0xFF80 && !IsRegister(addr) ==>
      ReadByteOf(b, addr) == Value(0) && WriteByteOf(b, addr, v) == Write(b, None)
  {
    if AreaOf(addr, b.inBios) in {Unused, Io, IeReg} {
      assert b.(inBios := LatchAfter(b.inBios, addr)) == b;
    }
  }

  /**
   * The GPU registers at 0xFF40, 0xFF42, 0xFF43, 0xFF48 and 0xFF49 read
   * back what was written; 0xFF44 reads the current line; 0xFF47 takes
   * the background palette but reads as 0.
   */
  lemma RegistersReadBack(b: Bus, r: word, v: byte)
    requires Sized(b)
    ensures r in {GPU_REG_LCD_CONTROL, GPU_REG_SCROLL_Y, GPU_REG_SCROLL_X, GPU_REG_OBJ_PALETTE_0, GPU_REG_OBJ_PALETTE_1} ==>
      ReadByteOf(WriteByteOf(b, r, v).bus, r) == Value(v)
    ensures ReadByteOf(b, GPU_REG_CURR_SCANLINE) == Value(b.line)
    ensures WriteByteOf(b, GPU_REG_BG_PALETTE, v) == Write(b.(bgPalette := v), None)
    ensures ReadByteOf(b, GPU_REG_BG_PALETTE) == Value(0)
  {
  }

  /** The joypad register stores a written nibble; a byte selecting a column keeps the old buttons. */
  lemma JoypadReadBack(b: Bus, v: byte)
    requires Sized(b)
    ensures v < 0x10 ==> ReadByteOf(WriteByteOf(b, JOYPAD_REG, v).bus, JOYPAD_REG) == Value(v)
    ensures Bit(v, 4) || Bit(v, 5) ==> ReadByteOf(WriteByteOf(b, JOYPAD_REG, v).bus, JOYPAD_REG) == Value(b.buttons)
    ensures WriteByteOf(b, JOYPAD_REG, v).bus.columns == ColumnsDown(v)
  {
    if v < 0x10 {
      NibbleIsStored(b.buttons, v);
    }
  }

  /** read_word is the little-endian pair of read_byte at addr and addr + 1 in BIOS, ROM0 and high RAM. */
  lemma WordIsLittleEndian(b: Bus, addr: word)
    requires Sized(b) && addr < 0xFFFF
    requires var a := AreaOf(addr, b.inBios);
      (a == Bios && addr + 1 < BIOS_SIZE) || (a == Rom0 && addr + 1 < ROM_SIZE) || (a == Hram && addr + 1 < 0xFFFF)
    ensures ReadByteOf(b, addr).Value? && ReadByteOf(b, addr + 1).Value?
    ensures ReadWordOf(b, addr) == Value(WordOf(ReadByteOf(b, addr + 1).value, ReadByteOf(b, addr).value))
  {
  }

  /** A word written to high RAM below 0xFFFE is read back whole. */
  lemma HramWordRoundTrip(b: Bus, addr: word, v: word)
    requires Sized(b) && 0xFF80 <= addr < 0xFFFE
    ensures WriteWordOf(b, addr, v).overrun == None
    ensures ReadWordOf(WriteWordOf(b, addr, v).bus, addr) == Value(v)
  {
    WordOfParts(v);
  }

  /** Every ROM1 access indexes `rom[addr]` with addr >= 0x4000, past the 0x4000-byte array. */
  lemma Rom1Overruns(b: Bus, addr: word, v: byte, w: word)
    requires Sized(b) && 0x4000 <= addr < 0x8000
    ensures ReadByteOf(b, addr) == ReadOverrun(Overrun(RomArray, addr))
    ensures ReadWordOf(b, addr) == ReadOverrun(Overrun(RomArray, addr))
    ensures WriteByteOf(b, addr, v) == Write(b, Some(Overrun(RomArray, addr)))
    ensures WriteWordOf(b, addr, w) == Write(b, Some(Overrun(RomArray, addr)))
  {
  }

  /** read_word in external and work RAM always overruns: `& 0x2000` and `addr + 1` index past 0x2000. */
  lemma BankedWordReadOverruns(b: Bus, addr: word)
    requires Sized(b) && 0xA000 <= addr < 0xFE00
    ensures ReadWordOf(b, addr).ReadOverrun?
    ensures ReadWordOf(b, addr).overrun.index >= 0x2000
  {
  }

  /** write_word to external and work RAM is a byte write of the low byte. */
  lemma BankedWordWriteIsLowByte(b: Bus, addr: word, v: word)
    requires Sized(b) && 0xA000 <= addr < 0xFE00
    ensures WriteWordOf(b, addr, v) == WriteByteOf(b, addr, Low(v))
  {
  }

  /** Word accesses at the top of BIOS, ROM0, VRAM, OAM and high RAM reach one past the array. */
  lemma WordEdgesOverrun(b: Bus, v: word)
    requires Sized(b)
    ensures b.inBios ==> ReadWordOf(b, 0xFF) == ReadOverrun(Overrun(BiosArray, 0x100))
    ensures ReadWordOf(b, 0x3FFF) == ReadOverrun(Overrun(RomArray, 0x4000))
    ensures ReadWordOf(b, 0xFE9F) == ReadOverrun(Overrun(OamArray, 0xA0))
    ensures ReadWordOf(b, 0xFFFE) == ReadOverrun(Overrun(HramArray, 0x7F))
    ensures WriteWordOf(b, 0x9FFF, v) == Write(b.(vram := b.vram[0x1FFF := Low(v)]), Some(Overrun(VramArray, 0x2000)))
    ensures WriteWordOf(b, 0xFFFE, v) == Write(b.(hram := b.hram[0x7E := Low(v)]), Some(Overrun(HramArray, 0x7F)))
  {
  }

  /** `a[i] + (a[j] << 8)` on one of the MMU's arrays, with i in range. */
  method LoadPairFrom(a: array<byte>, backing: Backing, i: int, j: int) returns (r: Read<word>)
    requires 0 <= i < a.Length && 0 <= j
    ensures r == LoadPair(a[..], backing, i, j)
  {
    if j < a.Length {
      r := Value(WordOf(a[j], a[i]));
    } else {
      r := ReadOverrun(Overrun(backing, j));
    }
  }

  /** `a[i] = v; a[j] = v >> 8;` on one of the MMU's arrays, with i in range. */
  method StorePair(a: array<byte>, backing: Backing, i: int, j: int, v: word) returns (o: Option<Overrun>)
    requires 0 <= i < a.Length && 0 <= j
    modifies a
    ensures (a[..], o) == StoreLowHigh(old(a[..]), backing, i, j, v)
  {
    a[i] := Low(v);
    if j < a.Length {
      a[j] := High(v);
      o := None;
    } else {
      o := Some(Overrun(backing, j));
    }
  }

  // ---------------------------------------------------------------------
  // The MMU object
  // ---------------------------------------------------------------------

  class Mmu {
    const gpu: Gpu
    const input: Input
    var in_bios: bool
    const bios: array<byte>
    const rom: array<byte>
    const eram: array<byte>
    const wram: array<byte>
    const hram: array<byte>

    predicate Valid()
      reads this, gpu, input
    {
      gpu.Valid() && input.Valid() &&
      bios.Length == BIOS_SIZE && rom.Length == ROM_SIZE && eram.Length == ERAM_SIZE &&
      wram.Length == WRAM_SIZE && hram.Length == HRAM_SIZE &&
      bios != rom && bios != eram && bios != wram && bios != hram &&
      rom != eram && rom != wram && rom != hram && eram != wram && eram != hram && wram != hram &&
      gpu.vram !in {bios, rom, eram, wram, hram} && gpu.oam !in {bios, rom, eram, wram, hram} &&
      gpu.obj_palette !in {bios, rom, eram, wram, hram}
    }

    /** Everything an access reaches, as a value. */
    function State(): Bus
      reads this, gpu, input, bios, rom, eram, wram, hram, gpu.vram, gpu.oam, gpu.obj_palette, input.column_down
    {
      Bus(in_bios, bios[..], rom[..], eram[..], wram[..], hram[..], gpu.vram[..], gpu.oam[..],
        input.buttons_pressed, input.column_down[..],
        gpu.lcd_control, gpu.scroll_y, gpu.scroll_x, gpu.curr_line, gpu.bg_palette, gpu.obj_palette[..])
    }

    /**
     * `MMU(gpu, input, bios_file, rom_file)`: the overlay on, every array
     * zeroed, then the BIOS and ROM images copied to the front of theirs.
     */
    constructor (gpu: Gpu, input: Input, biosImage: seq<byte>, romImage: seq<byte>)
      requires gpu.Valid() && input.Valid()
      requires |biosImage| <= BIOS_SIZE && |romImage| <= ROM_SIZE
      ensures Valid() && this.gpu == gpu && this.input == input
      ensures fresh(bios) && fresh(rom) && fresh(eram) && fresh(wram) && fresh(hram)
      ensures in_bios
      ensures bios[..] == biosImage + seq(BIOS_SIZE - |biosImage|, _ => 0)
      ensures rom[..] == romImage + seq(ROM_SIZE - |romImage|, _ => 0)
      ensures eram[..] == seq(ERAM_SIZE, _ => 0) && wram[..] == seq(WRAM_SIZE, _ => 0)
      ensures hram[..] == seq(HRAM_SIZE, _ => 0)
    {
      this.gpu := gpu;
      this.input := input;
      in_bios := true;
      bios := new byte[BIOS_SIZE](i => if 0 <= i < |biosImage| then biosImage[i] else 0);
      rom := new byte[ROM_SIZE](i => if 0 <= i < |romImage| then romImage[i] else 0);
      eram := new byte[ERAM_SIZE](_ => 0);
      wram := new byte[WRAM_SIZE](_ => 0);
      hram := new byte[HRAM_SIZE](_ => 0);
    }

    /** `get_area(addr)`: decode, dropping the overlay at 0x100. */
    method GetArea(addr: word) returns (area: Area)
      modifies this`in_bios
      ensures area == AreaOf(addr, old(in_bios))
      ensures in_bios == LatchAfter(old(in_bios), addr)
    {
      if addr < 0x4000 {
        if in_bios && addr == 0x100 {
          in_bios := false;
        }
        if addr < 0x100 && in_bios {
          return Bios;
        }
        return Rom0;
      } else if 0x4000 <= addr < 0x8000 {
        return Rom1;
      } else if 0x8000 <= addr < 0xA000 {
        return Vram;
      } else if 0xA000 <= addr < 0xC000 {
        return Eram;
      } else if 0xC000 <= addr < 0xE000 {
        return Wram;
      } else if 0xE000 <= addr < 0xFDFF {
        return Wram;
      } else {
        if addr < 0xFE00 {
          return Wram;
        } else if 0xFE00 <= addr < 0xFEA0 {
          return Oam;
        } else if 0xFEA0 <= addr < 0xFF00 {
          return Unused;
        } else if 0xFF00 <= addr < 0xFF80 {
          return Io;
        } else if 0xFF80 <= addr < 0xFFFF {
          return Hram;
        } else {
          return IeReg;
        }
      }
    }

    /** `read_byte(addr)`. */
    method ReadByte(addr: word) returns (r: Read<byte>)
      requires Valid()
      modifies this`in_bios
      ensures Valid()
      ensures r == ReadByteOf(old(State()), addr)
      ensures in_bios == LatchAfter(old(in_bios), addr)
    {
      ghost var b := State();
      var area := GetArea(addr);
      LatchIgnored(b, in_bios, area, addr);
      r := ReadByteFrom(area, addr);
    }

    /** The switch of `read_byte(addr)`. */
    method ReadByteFrom(area: Area, addr: word) returns (r: Read<byte>)
      requires Valid() && Decodes(area, addr)
      ensures r == ByteAt(State(), area, addr)
    {
      ghost var b := State();
      match area
      case Bios => r := Value(bios[addr]);
      case Rom0 => r := Value(rom[addr]);
      case Rom1 => r := ReadOverrun(Overrun(RomArray, addr));
      case Vram => r := Value(0);
      case Eram => r := Value(eram[Low13(addr)]);
      case Wram => r := Value(wram[Low13(addr)]);
      case Oam =>
        var v := gpu.ReadByteOam(addr - 0xFE00);
        r := Value(v);
      case Unused => r := Value(0);
      case Io =>
        var v: byte := 0;
        if addr == JOYPAD_REG {
          v := input.GetButtonsPressed();
        } else if addr == GPU_REG_LCD_CONTROL {
          v := gpu.GetLcdControl();
        } else if addr == GPU_REG_SCROLL_Y {
          v := gpu.GetScrollY();
        } else if addr == GPU_REG_SCROLL_X {
          v := gpu.GetScrollX();
        } else if addr == GPU_REG_CURR_SCANLINE {
          v := gpu.GetCurrScanline();
        } else if addr == GPU_REG_OBJ_PALETTE_0 {
          v := gpu.GetObjPalette(0);
        } else if addr == GPU_REG_OBJ_PALETTE_1 {
          v := gpu.GetObjPalette(1);
        }
        assert v == IoRead(b, addr);
        r := Value(v);
      case Hram => r := Value(hram[Low7(addr)]);
      case IeReg => r := Value(0);
    }

    /** `read_word(addr)`. */
    method ReadWord(addr: word) returns (r: Read<word>)
      requires Valid()
      modifies this`in_bios
      ensures Valid()
      ensures r == ReadWordOf(old(State()), addr)
      ensures in_bios == LatchAfter(old(in_bios), addr)
    {
      ghost var b := State();
      var area := GetArea(addr);
      LatchIgnored(b, in_bios, area, addr);
      r := ReadWordFrom(area, addr);
    }

    /** The switch of `read_word(addr)`. */
    method ReadWordFrom(area: Area, addr: word) returns (r: Read<word>)
      requires Valid() && Decodes(area, addr)
      ensures r == WordAt(State(), area, addr)
    {
      match area
      case Bios =>
        r := LoadPairFrom(bios, BiosArray, addr, addr + 1);
      case Rom0 =>
        r := LoadPairFrom(rom, RomArray, addr, addr + 1);
      case Rom1 => r := ReadOverrun(Overrun(RomArray, addr));
      case Vram => r := Value(0);
      case Eram =>
        // `addr + 1` is past the array for every address of this area
        var i := Bit13(addr);
        r := ReadOverrun(Overrun(EramArray, if i < eram.Length then addr + 1 else i));
      case Wram =>
        // `addr + 1` is past the array for every address of this area
        var i := Bit13(addr);
        r := ReadOverrun(Overrun(WramArray, if i < wram.Length then addr + 1 else i));
      case Oam =>
        var i := addr - 0xFE00;
        if i + 1 < OAM_BYTES {
          var high := gpu.ReadByteOam(i + 1);
          var low := gpu.ReadByteOam(i);
          r := Value(WordOf(high, low));
        } else {
          r := ReadOverrun(Overrun(OamArray, i + 1));
        }
      case Unused => r := Value(0);
      case Io => r := Value(0);
      case Hram =>
        r := LoadPairFrom(hram, HramArray, Low7(addr), Low7(addr) + 1);
      case IeReg => r := Value(0);
    }

    /** `write_byte(addr, val)`. */
    method WriteByte(addr: word, val: byte) returns (overrun: Option<Overrun>)
      requires Valid()
      modifies this`in_bios, bios, rom, eram, wram, hram, gpu.vram, gpu.oam, gpu.obj_palette
      modifies gpu`lcd_control, gpu`scroll_y, gpu`scroll_x, gpu`bg_palette, input`buttons_pressed, input.column_down
      ensures Valid()
      ensures Write(State(), overrun) == WriteByteOf(old(State()), addr, val)
    {
      var area := GetArea(addr);
      overrun := WriteByteTo(area, addr, val);
    }

    /** The switch of `write_byte(addr, val)`. */
    method WriteByteTo(area: Area, addr: word, val: byte) returns (overrun: Option<Overrun>)
      requires Valid() && Decodes(area, addr)
      modifies bios, rom, eram, wram, hram, gpu.vram, gpu.oam, gpu.obj_palette
      modifies gpu`lcd_control, gpu`scroll_y, gpu`scroll_x, gpu`bg_palette, input`buttons_pressed, input.column_down
      ensures Valid()
      ensures Write(State(), overrun) == ByteWriteAt(old(State()), area, addr, val)
    {
      overrun := None;
      match area
      case Bios => bios[addr] := val;
      case Rom0 => rom[addr] := val;
      case Rom1 => overrun := Some(Overrun(RomArray, addr));
      case Vram => gpu.WriteByteVram(addr - 0x8000, val);
      case Eram => eram[Low13(addr)] := val;
      case Wram => wram[Low13(addr)] := val;
      case Oam => gpu.WriteByteOam(addr - 0xFE00, val);
      case Unused =>
      case Io => WriteIo(addr, val);
      case Hram => hram[Low7(addr)] := val;
      case IeReg =>
    }

    /** The IO switch of `write_byte(addr, val)`. */
    method WriteIo(addr: word, val: byte)
      requires Valid() && 0xFF00 <= addr < 0xFF80
      modifies gpu`lcd_control, gpu`scroll_y, gpu`scroll_x, gpu`bg_palette, gpu.obj_palette
      modifies input`buttons_pressed, input.column_down
      ensures Valid()
      ensures State() == IoWrite(old(State()), addr, val)
    {
      if addr == JOYPAD_REG {
        input.SetButtonsPressed(val);
      } else if addr == GPU_REG_LCD_CONTROL {
        gpu.SetLcdControl(val);
      } else if addr == GPU_REG_SCROLL_Y {
        gpu.SetScrollY(val);
      } else if addr == GPU_REG_SCROLL_X {
        gpu.SetScrollX(val);
      } else if addr == GPU_REG_BG_PALETTE {
        gpu.SetBgPalette(val);
      } else if addr == GPU_REG_OBJ_PALETTE_0 {
        gpu.SetObjPalette(0, val);
      } else if addr == GPU_REG_OBJ_PALETTE_1 {
        gpu.SetObjPalette(1, val);
      }
    }

    /** `write_word(addr, val)`. */
    method WriteWord(addr: word, val: word) returns (overrun: Option<Overrun>)
      requires Valid()
      modifies this`in_bios, bios, rom, eram, wram, hram, gpu.vram
      ensures Valid()
      ensures Write(State(), overrun) == WriteWordOf(old(State()), addr, val)
    {
      var area := GetArea(addr);
      overrun := WriteWordTo(area, addr, val);
    }

    /** The switch of `write_word(addr, val)`. */
    method WriteWordTo(area: Area, addr: word, val: word) returns (overrun: Option<Overrun>)
      requires Valid() && Decodes(area, addr)
      modifies bios, rom, eram, wram, hram, gpu.vram
      ensures Valid()
      ensures Write(State(), overrun) == WordWriteAt(old(State()), area, addr, val)
    {
      overrun := None;
      match area
      case Bios =>
        overrun := StorePair(bios, BiosArray, addr, addr + 1, val);
      case Rom0 =>
        overrun := StorePair(rom, RomArray, addr, addr + 1, val);
      case Rom1 => overrun := Some(Overrun(RomArray, addr));
      case Vram =>
        // write_word_vram stores the low byte, then the high byte one cell on
        var i := addr - 0x8000;
        if i + 1 < VRAM_SIZE {
          gpu.WriteWordVram(i, val);
        } else {
          gpu.WriteByteVram(i, Low(val));
          overrun := Some(Overrun(VramArray, i + 1));
        }
      case Eram => eram[Low13(addr)] := Low(val);
      case Wram => wram[Low13(addr)] := Low(val);
      case Oam =>
      case Unused =>
      case Io =>
      case Hram =>
        overrun := StorePair(hram, HramArray, Low7(addr), Low7(addr + 1), val);
      case IeReg =>
    }
  }
}
