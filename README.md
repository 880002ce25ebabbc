# geemuboi core in Dafny

A model of the core of geemuboi, a Game Boy emulator written in C++:

- the CPU: its register file, the 512-entry instruction table
  (`instructions`), the handlers and the arithmetic helpers they call;
- the memory map (MMU) that routes each address to BIOS, ROM, VRAM,
  external RAM, work RAM and its echo, OAM, the IO registers and high RAM;
- the picture processor (GPU): its four-mode scanline timer, VRAM and OAM
  stores and LCD registers, and the background pass that fills the
  framebuffer;
- the joypad register (Input) and the SDL keyboard's button nibbles;
- the command-line handler that reads the BIOS path, the ROM path and the
  breakpoints.

The model follows the code as written. Where the C++ indexes an array out
of range or has other undefined behaviour, the model returns an explicit
fault value rather than a number. Where a helper's result differs from the
instruction its name suggests, the model keeps the code's result and a
lemma shows the difference. Examples are `sla` never setting carry, `sbc`
adding the carry back, and opcode 0x0C incrementing b.

Layout, one module per component:

- bytes.dfy, module Bytes: `uint8_t`/`uint16_t` wrap-around, bit tests, little-endian word access.
- alu.dfy, module Alu: the flag register and the `cpu.h` helpers, as pure functions of operand and flags.
- opcodes.dfy, module Opcodes: the instruction table as a `Handler` value per entry.
- machine.dfy, module Machine: what each handler does to registers and memory, and the cycles it returns.
- machine_facts.dfy, module MachineFacts: properties of handler sequences (stack, jumps, quirks).
- cpu.dfy, module Processor: the CPU object: methods that update the registers in place, proved against Machine.
- mmu.dfy, module Mmu: the MMU class over its arrays, proved against value-level read and write functions.
- gpu.dfy, module Video: the GPU class, its timer, its registers and the background pass.
- input.dfy, module Joypad: the Input class: `buttons_pressed` and `column_down`.
- keyboard.dfy, module Keyboard: `update_button_presses`.
- arguments.dfy, module Arguments: the ArgumentHandler class, getline splitting and `stoul` in base 16.

Where source versions disagree, the code is followed:

- `src/core/cpu.h` reaches the registers through `regs.` and the memory
  through `IMmu`. `src/core/cpu.cpp` names the registers directly and holds
  an `MMU&`. Both are read as the one register file `ICpu::Registers`
  behind the one `IMmu` interface.
- The MMU calls `input.set_buttons_pressed_switch(val)`. That function is
  declared in `include/geemuboi/core/input.h` but has no definition in the
  sources, so the model uses the one-argument `set_buttons_pressed` of
  `src/core/input.cpp`.

## Model

| member | source | states |
|---|---|---|
| Bytes.WordOfParts | src/core/cpu.h:653-656 | splitting a word into `w >> 8` and its low byte and joining them back gives the word |
| Bytes.PartsOfWord | src/core/cpu.h:653-656 | the high and low byte of `(high << 8) + low` are high and low |
| Bytes.Int8 | src/core/cpu.cpp:685-690 | `static_cast<int8_t>` lies in -128..127 and wraps back to the byte it came from |
| Bytes.WrapInt8 | src/core/cpu.cpp:909-918 | storing an int into an `int8_t` lies in -128..127 and keeps the value modulo 256 |
| Bytes.LoadStoreWord | src/core/gpu.cpp:170-173 | a word stored as `a[i] = v; a[i + 1] = v >> 8` reads back, and only those two cells change |
| Alu.FlagsByteRoundTrip | src/core/cpu.h:597-608 | reading the flags back out of the byte they make gives the same flags |
| Alu.ByteFlagsRoundTrip | src/core/cpu.cpp:1919-1922 | every byte loaded into f (as `pop af` does) is the byte of the flags it stands for |
| Alu.DecR8 | src/core/cpu.h:597-608 | `dec r`: value r - 1 mod 256; Z iff r was 1; N set; H iff the low nibble was 0; C kept |
| Alu.IncR8 | src/core/cpu.h:610-619 | `inc r`: value r + 1 mod 256; Z iff r was 0xFF; N clear; H iff the low nibble was 0xF; C kept |
| Alu.DecR16 | src/core/cpu.h:621-625 | the pair as a word is decremented modulo 2^16 |
| Alu.IncR16 | src/core/cpu.h:627-631 | the pair as a word is incremented modulo 2^16 |
| Alu.DecUndoesInc | src/core/cpu.h:621-631 | decrementing a pair after incrementing it gives the pair back |
| Alu.AddHlR16 | src/core/cpu.h:633-651 | `add hl, rr` keeps Z, clears N and sets l to l + low mod 256 |
| Alu.AddHlSum | src/core/cpu.h:633-651 | hl after `add hl, rr` is hl + rr modulo 2^16 |
| Alu.AddHlCarry | src/core/cpu.h:633-651 | C is set iff hl + rr overflows 16 bits, except when high is 0xFF and the low bytes carry, where the `++high` wrap loses the carry |
| Alu.AddHlHalf | src/core/cpu.h:633-651 | H is the carry out of bit 11, except when high's low nibble is 0xF and the low bytes carry, where it is lost the same way |
| Alu.AddR8 | src/core/cpu.h:666-679 | value plus 0x100 if C equals r1 + r2; the low nibble plus 0x10 if H equals the sum of the nibbles; Z iff the value is 0; N clear |
| Alu.AdcR8 | src/core/cpu.h:681-695 | the same as add, with the old carry added to both the byte sum and the nibble sum |
| Alu.SubR8 | src/core/cpu.h:697-712 | value = a - r plus 0x100 if C; the nibble borrow gives H; Z iff a == r; N set |
| Alu.SbcR8 | src/core/cpu.h:714-730 | as written, `r1 - (r2 - carry)`: value r1 - r2 + carry mod 256; C iff r1 + carry < r2; H iff the nibbles do the same; N set |
| Alu.AndR8 | src/core/cpu.h:732-739 | value a & r; flags Z iff 0, H set, the rest clear |
| Alu.XorR8 | src/core/cpu.h:741-746 | value a ^ r; flags Z iff 0, the rest clear |
| Alu.OrR8 | src/core/cpu.h:758-763 | value a or r bitwise; flags Z iff 0, the rest clear |
| Alu.CpR8 | src/core/cpu.h:765-780 | a is unchanged and the flags are those of `sub` with the same operands |
| Alu.RlcR8 | src/core/cpu.h:788-798 | rotate left: 2r, minus 0xFF when bit 7 was set; C is the old bit 7; Z iff r == 0 |
| Alu.RrcR8 | src/core/cpu.h:800-810 | rotate right: bit 0 moves to bit 7; C is the old bit 0; Z iff r == 0 |
| Alu.RlR8 | src/core/cpu.h:812-823 | rotate left through carry: 2r mod 256 plus the old carry; C is the old bit 7 |
| Alu.RrR8 | src/core/cpu.h:825-836 | rotate right through carry: r / 2 plus 0x80 times the old carry; C is the old bit 0 |
| Alu.SlaR8 | src/core/cpu.h:838-844 | value 2r mod 256; Z iff the result is 0; C always clear (`(r & 0x80) << 4` leaves the byte) |
| Alu.SraR8 | src/core/cpu.h:846-855 | arithmetic right shift keeping bit 7; C is the old bit 0 |
| Alu.SwapR8 | src/core/cpu.h:857-864 | the nibbles exchange; Z iff r == 0; the rest clear |
| Alu.SrlR8 | src/core/cpu.h:866-872 | value r / 2; C is the old bit 0; Z iff r < 2 |
| Alu.RrcUndoesRlc | src/core/cpu.h:788-810 | rrc after rlc returns the byte |
| Alu.RlcUndoesRrc | src/core/cpu.h:788-810 | rlc after rrc returns the byte |
| Alu.RrUndoesRl | src/core/cpu.h:812-836 | rr after rl returns the byte and restores the carry |
| Alu.RlUndoesRr | src/core/cpu.h:812-836 | rl after rr returns the byte and restores the carry |
| Alu.SwapTwice | src/core/cpu.h:857-864 | swap is its own inverse |
| Alu.BitR8 | src/core/cpu.h:874-880 | Z iff bit b of r is clear; N clear; H set; C kept |
| Alu.ResR8 | src/core/cpu.h:882-884 | bit b is cleared and every other bit is kept |
| Alu.SetR8 | src/core/cpu.h:886-888 | bit b is set and every other bit is kept |
| Alu.Rlca | src/core/cpu.cpp:578-586 | a rotates as rlc does; Z is always clear; C is the old bit 7 |
| Alu.Rrca | src/core/cpu.cpp:625-633 | a rotates as rrc does; Z is always clear; C is the old bit 0 |
| Alu.Rla | src/core/cpu.cpp:674-683 | a rotates through carry as rl does; Z is always clear |
| Alu.Rra | src/core/cpu.cpp:723-732 | a rotates through carry as rr does; Z is always clear |
| Alu.Daa | src/core/cpu.cpp:779-795 | adds 6 when H or the low nibble is over 9, and 0x60 when H or a is over 0x99; C is set by the second test alone |
| Alu.Cpl | src/core/cpu.cpp:839-843 | a + result == 0xFF, and N and H are set |
| Alu.Scf | src/core/cpu.cpp:903-907 | Z kept, N and H clear, C set |
| Alu.Ccf | src/core/cpu.cpp:954-958 | Z kept, N and H clear, C inverted |
| Alu.DecUndoesIncR8 | src/core/cpu.h:597-619 | dec after inc returns the register |
| Alu.SubUndoesAdd | src/core/cpu.h:666-712 | sub and add with the same operand undo each other in both orders |
| Alu.CpCompares | src/core/cpu.h:765-780 | after cp, Z iff a == r, and C iff a < r |
| Alu.CplTwice | src/core/cpu.cpp:839-843 | cpl twice returns a |
| Alu.XorSelf | src/core/cpu.h:741-746 | `xor a` clears a and sets only Z |
| Alu.CarryFlagOps | src/core/cpu.cpp:903-958 | ccf after scf clears carry, and ccf twice restores it |
| Alu.SlaLosesCarry | src/core/cpu.h:838-844 | `sla` of 0x80 gives 0 with Z set and C still clear |
| Alu.SbcAddsCarry | src/core/cpu.h:714-730 | `sbc` 5 - 3 with carry set gives 3, not 1 |
| Alu.DaaAfterAdd | src/core/cpu.cpp:779-795 | 0x09 + 0x01 adjusted by daa is 0x10 |
| Alu.DaaIgnoresSubtraction | src/core/cpu.cpp:779-795 | daa ignores N: 0x15 - 0x06 gives 0x0F with H set, and daa then makes 0x75 instead of 0x09 |
| Opcodes.LocationOf | src/core/cpu.cpp:264-271 | the operand encoding b, c, d, e, h, l, (hl), a; (hl) exactly at code 6 |
| Opcodes.OperandOf | src/core/cpu.cpp:136-143 | the ALU block's source operand, never an immediate, (hl) exactly at code 6 |
| Opcodes.UnimplementedSlots | src/core/cpu.cpp:219-261 | exactly the eleven listed opcodes hold `unimplemented`, and the CB page has none |
| Opcodes.PrefixSlot | src/core/cpu.cpp:211 | only entry 0xCB is `prefix_cb`, and no base entry is a CB handler |
| Opcodes.RstVectors | src/core/cpu.cpp:207-263 | the rst handlers sit exactly at 0xC7, 0xCF, and so on up to 0xFF, and jump to opcode - 0xC7 |
| Opcodes.IncCAndIncDIncrementB | src/core/cpu.cpp:610-613 | entries 0x04, 0x0C and 0x14 all run `inc_r8(b)`, and no entry increments c or d |
| Machine.ReadWriteByte | include/geemuboi/core/immu.h:7-9 | a byte written is read back, and no other address changes |
| Machine.ReadWriteWord | include/geemuboi/core/immu.h:8-10 | a word written is read back little-endian, and only its two bytes change |
| Machine.Set | src/core/cpu.h:662-664 | storing into one 8-bit register reads back and leaves f, pc and sp |
| Machine.SetPair | src/core/cpu.h:748-751 | storing into a pair leaves pc, and sp unless the pair is sp |
| Machine.SetPairGet | src/core/cpu.cpp:1919-1922 | a pair reads back what was stored, af included |
| Machine.PushBytes | src/core/cpu.h:753-756 | `push_r16` lowers sp by 2, with high at sp - 1 and low at sp - 2; every other register and every other address is unchanged |
| Machine.PushWord | src/core/cpu.h:782-786 | `write_word(sp - 2, v); sp -= 2`: v can be read at the new sp; every other register and every address outside sp - 2 and sp - 1 is unchanged |
| Machine.ExecControl | src/core/cpu.cpp:685-744 | nop, stop, halt, di, ei, reti, the jumps and `unimplemented` leave memory alone and take 0 to 4 cycles, 0 only for `unimplemented` |
| Machine.ExecStack | src/core/cpu.cpp:1630-1734 | calls, returns, rst, push and pop take 2 to 6 cycles |
| Machine.ExecWide | src/core/cpu.cpp:546-609 | 16-bit loads and arithmetic take 2 to 5 cycles, and only `ld (a16), sp` writes memory |
| Machine.ExecLoad | src/core/cpu.cpp:961-1297 | 8-bit loads take 1 to 4 cycles |
| Machine.ExecArith | src/core/cpu.cpp:1298-1629 | inc, dec, the accumulator handlers and the ALU block take 1 to 3 cycles |
| Machine.ExecCb | src/core/cpu.cpp:1991-3365 | CB handlers leave pc and sp, and take 4 cycles on (hl) and 2 on a register |
| Machine.Exec | src/core/cpu.cpp:1711-1713 | running a table entry (prefix_cb fetching the CB byte) takes 0 to 6 cycles, 0 exactly for `unimplemented` |
| Machine.Step | src/core/cpu.cpp:529-539 | `execute` takes 0 to 6 cycles, 0 exactly when the fetched opcode is one of the eleven unimplemented ones |
| MachineFacts.PopAfterPush | src/core/cpu.h:748-756 | pop reads back the two bytes push wrote, and sp returns |
| MachineFacts.PushThenPop | src/core/cpu.cpp:1640-1674 | push rr then pop rr restores every register, for bc, de, hl and af |
| MachineFacts.CallThenRet | src/core/cpu.cpp:1696-1734 | ret after call goes to the byte after the call's operand word, with sp restored |
| MachineFacts.StackRestored | src/core/cpu.cpp:1696-1700 | the 16-bit sp after a decrement by 2 and an increment by 2 is sp |
| MachineFacts.CallTarget | src/core/cpu.cpp:1727-1734 | call jumps to its operand word when the pushed bytes do not overlap it |
| MachineFacts.CallOverOwnOperand | src/core/cpu.cpp:1727-1734 | when sp - 2 is the operand's address, call reads its own return address and jumps there |
| MachineFacts.RstThenRet | src/core/cpu.h:782-786 | rst jumps to its vector, and ret then resumes after the rst with sp restored |
| MachineFacts.StepRst | src/core/cpu.cpp:1681-1684 | an rst opcode pushes pc + 1, jumps to opcode - 0xC7 and takes 4 cycles |
| MachineFacts.RelativeFromOpcode | src/core/cpu.cpp:685-690 | `pc += offset - 1` after the fetch lands at the opcode's address + 2 + e |
| MachineFacts.StepJr | src/core/cpu.cpp:685-690 | `jr e` lands at pc + 2 + e in 3 cycles |
| MachineFacts.StepJrIf | src/core/cpu.cpp:735-744 | jr nz/z/nc: taken lands as jr does in 3 cycles; not taken moves to pc + 2 in 2 |
| MachineFacts.StepJrCarry | src/core/cpu.cpp:909-918 | jr c: the `int8_t` offset wraps for e = 0x7E and 0x7F, which land 256 bytes early; other offsets land as jr does |
| MachineFacts.ConditionalDecoding | src/core/cpu.cpp:200-228 | the conditional jr, jp, call and ret entries take their condition from opcode bits 3 and 4; jr c has its own handler |
| MachineFacts.StepJpIfNotTaken | src/core/cpu.cpp:1645-1652 | jp cc not taken leaves pc on the operand word, which then runs as code |
| MachineFacts.StepCallIfNotTaken | src/core/cpu.cpp:1659-1669 | call cc not taken steps over the operand word in 3 cycles |
| MachineFacts.StepRetIf | src/core/cpu.cpp:1630-1638 | ret cc: taken pops pc in 5 cycles; not taken moves only pc, in 2 |
| MachineFacts.JpAtHlJumpsToL | src/core/cpu.cpp:1888-1891 | `pc = (h >> 8) + l` jumps to l, which equals hl only when h is 0 |
| MachineFacts.LdiLddStore | src/core/cpu.cpp:752-757 | ldi/ldd (hl), a write a at the old hl and move hl by one |
| MachineFacts.LdiLddLoad | src/core/cpu.cpp:813-818 | ldi/ldd a, (hl) read a from the old hl and move hl by one |
| MachineFacts.HighPageStores | src/core/cpu.cpp:1845-1860 | `ldh (n), a` and `ld (c), a` write a at 0xFF00 + n and 0xFF00 + c |
| MachineFacts.StepIncC | src/core/cpu.cpp:610-613 | opcode 0x0C increments b with inc's flags and leaves c alone |
| MachineFacts.StepCb | src/core/cpu.cpp:1711-1713 | a CB instruction moves pc by 2, taking 4 cycles on (hl) and 2 otherwise |
| MachineFacts.NopExample | test/core/test_cpu.cpp:47-55 | nop from all-zero registers: pc 1, one cycle, nothing else changes |
| MachineFacts.LdBcExample | test/core/test_cpu.cpp:58-69 | ld bc, 0x3344 from all-zero registers: b 0x33, c 0x44, pc 3, three cycles |
| Processor.Cpu.constructor | src/core/cpu.h:15-16 | `CPU(IMmu&, Registers&)`: the CPU works on the registers and the memory its caller supplies |
| Processor.Cpu.FetchByte | src/core/cpu.cpp:574 | `read_byte(pc++)` returns the byte at pc and advances pc |
| Processor.Cpu.WriteByteAt | include/geemuboi/core/immu.h:9 | `write_byte` changes memory as Machine.WriteByte and no register |
| Processor.Cpu.WriteWordAt | include/geemuboi/core/immu.h:10 | `write_word` changes memory as Machine.WriteWord and no register |
| Processor.Cpu.PushPair | src/core/cpu.h:753-756 | `push_r16` leaves the state Machine.PushBytes gives |
| Processor.Cpu.PopPair | src/core/cpu.h:748-751 | `pop_r16` returns Machine.PopBytes and raises sp by 2 |
| Processor.Cpu.PushReturn | src/core/cpu.h:782-786 | the push half of rst and call leaves the state Machine.PushWord gives |
| Processor.Cpu.Return | src/core/cpu.cpp:1696-1700 | `pc = read_word(sp); sp += 2` |
| Processor.Cpu.CallTo | src/core/cpu.cpp:1727-1734 | call pushes pc + 2, then reads its target from the new memory |
| Processor.Cpu.RunControl | src/core/cpu.cpp:685-744 | the control handlers leave the state and cycles Machine.ExecControl gives |
| Processor.Cpu.RunStack | src/core/cpu.cpp:1630-1734 | the stack handlers leave the state and cycles Machine.ExecStack gives |
| Processor.Cpu.RunWide | src/core/cpu.cpp:546-609 | the 16-bit handlers leave the state and cycles Machine.ExecWide gives |
| Processor.Cpu.RunLoad | src/core/cpu.cpp:961-1297 | the 8-bit loads leave the state and cycles Machine.ExecLoad gives |
| Processor.Cpu.RunArith | src/core/cpu.cpp:1298-1629 | the 8-bit arithmetic handlers leave the state and cycles Machine.ExecArith gives |
| Processor.Cpu.RunCb | src/core/cpu.cpp:1991-3365 | the CB handlers leave the state and cycles Machine.ExecCb gives |
| Processor.Cpu.Run | src/core/cpu.cpp:1711-1713 | one table entry, prefix_cb included, leaves what Machine.Exec gives |
| Processor.Cpu.Execute | src/core/cpu.cpp:529-539 | `execute` leaves what Machine.Step gives, takes 0 to 6 cycles, and returns 0 exactly on an unimplemented opcode |
| Mmu.AreaOf | src/core/mmu.cpp:167-202 | every address falls in exactly one area, by its range; BIOS needs the overlay on |
| Mmu.LatchOneWay | src/core/mmu.cpp:168-172 | after a run of accesses the overlay is on exactly when it was on and 0x100 was never accessed |
| Mmu.Low7 | src/core/mmu.cpp:74 | `addr & 0x7F` is below 0x80, and in high RAM it is the offset from 0xFF80 |
| Mmu.IoWrite | src/core/mmu.cpp:124-134 | the IO switch of write_byte keeps every array at its size |
| Mmu.WriteByteOf | src/core/mmu.cpp:114-138 | write_byte keeps every array at its size |
| Mmu.ByteWriteAt | src/core/mmu.cpp:115-137 | the switch of write_byte keeps every array at its size |
| Mmu.WriteWordOf | src/core/mmu.cpp:140-165 | write_word keeps every array at its size |
| Mmu.WordWriteAt | src/core/mmu.cpp:141-164 | the switch of write_word keeps every array at its size |
| Mmu.LatchIgnored | src/core/mmu.cpp:46-112 | the read switches do not depend on the overlay flag once the area is known |
| Mmu.ByteRoundTrip | src/core/mmu.cpp:114-138 | a byte written to external, work or high RAM reads back at every address that names the same cell, and nothing else read changes |
| Mmu.EchoAliases | src/core/mmu.cpp:183-189 | 0xE000..0xFDFF and 0xC000..0xDDFF are one memory, in both directions |
| Mmu.QuietRegions | src/core/mmu.cpp:51-80 | unused and IE ignore writes and read 0; VRAM reads 0; IO addresses without a register read 0 and ignore writes |
| Mmu.RegistersReadBack | src/core/mmu.cpp:61-73 | LCD control, scroll and object palettes read back; 0xFF44 reads the current line; 0xFF47 is written but reads 0 |
| Mmu.JoypadReadBack | src/core/input.cpp:11-19 | 0xFF00 stores a written nibble; a byte selecting a column keeps the old buttons and records the column bits |
| Mmu.WordIsLittleEndian | src/core/mmu.cpp:86-104 | in BIOS, ROM0 and high RAM, read_word is the pair of read_byte at addr + 1 and addr |
| Mmu.HramWordRoundTrip | src/core/mmu.cpp:159-162 | a word written to high RAM below 0xFFFE reads back whole |
| Mmu.Rom1Overruns | src/core/mmu.cpp:50 | every ROM1 access indexes the 0x4000-byte `rom` past its end |
| Mmu.BankedWordReadOverruns | src/core/mmu.cpp:92-93 | read_word in external or work RAM always indexes past the 0x2000-byte array |
| Mmu.BankedWordWriteIsLowByte | src/core/mmu.cpp:154-155 | write_word in external or work RAM stores only the low byte, as write_byte does |
| Mmu.WordEdgesOverrun | src/core/mmu.cpp:84-165 | word accesses at the top of BIOS, ROM0, OAM, VRAM and high RAM reach one past the array, and a write keeps its first byte |
| Mmu.LoadPairFrom | src/core/mmu.cpp:86 | `a[i] + (a[j] << 8)` on an array is LoadPair of its contents |
| Mmu.StorePair | src/core/mmu.cpp:159-162 | two stores into an array change it as StoreLowHigh says and report the first index out of range |
| Mmu.Mmu.constructor | src/core/mmu.cpp:8-44 | the overlay is on, every array is zeroed, and the BIOS and ROM images sit at the front of their arrays |
| Mmu.Mmu.GetArea | src/core/mmu.cpp:167-202 | returns AreaOf for the overlay on entry, and clears the overlay on an access to 0x100 |
| Mmu.Mmu.ReadByte | src/core/mmu.cpp:46-82 | returns ReadByteOf of the state before the call and updates only the overlay |
| Mmu.Mmu.ReadByteFrom | src/core/mmu.cpp:47-81 | the switch of read_byte returns ByteAt of the state |
| Mmu.Mmu.ReadWord | src/core/mmu.cpp:84-112 | returns ReadWordOf of the state before the call and updates only the overlay |
| Mmu.Mmu.ReadWordFrom | src/core/mmu.cpp:85-111 | the switch of read_word returns WordAt of the state |
| Mmu.Mmu.WriteByte | src/core/mmu.cpp:114-138 | the new state and overrun are WriteByteOf of the old state |
| Mmu.Mmu.WriteByteTo | src/core/mmu.cpp:115-137 | the switch of write_byte leaves ByteWriteAt of the state |
| Mmu.Mmu.WriteIo | src/core/mmu.cpp:124-134 | the IO switch leaves IoWrite of the state |
| Mmu.Mmu.WriteWord | src/core/mmu.cpp:140-165 | the new state and overrun are WriteWordOf of the old state |
| Mmu.Mmu.WriteWordTo | src/core/mmu.cpp:141-164 | the switch of write_word leaves WordWriteAt of the state |
| Video.NextMode | src/core/gpu.cpp:20-56 | each mode hands over to a different one: HBlank goes to VBlank exactly on line 143 and to OAM otherwise, VBlank goes to OAM |
| Video.StepTiming | src/core/gpu.cpp:17-58 | cycles add up to the mode's threshold, then reset; reaching the threshold forces the move to the next mode (in VBlank only after line 153); the line is kept in OAM and VRAM and below the threshold, becomes 0 when line 153 of VBlank ends, and otherwise goes up by one as a `uint8_t` when HBlank or a VBlank line ends; a render_scanline exactly when VRAM ends and a render_frame exactly when VBlank passes line 153 |
| Video.StepKeepsLines | src/core/gpu.cpp:17-58 | lines 0..143 are drawn and 144..153 are blank, from the start and after every step |
| Video.ScanlineIsVisible | src/core/gpu.cpp:50-56 | render_scanline is reached only on a visible line, whose framebuffer row is in range |
| Video.FrameEndsBlank | src/core/gpu.cpp:29-42 | VBlank of line 153 ends with render_frame at line 0 in OAM mode; line 152 goes on to 153 |
| Video.LastLineEntersBlank | src/core/gpu.cpp:21-28 | the horizontal blank of line 143 enters VBlank at line 144 |
| Video.ColourOf | src/core/gpu.cpp:107-112 | every shade maps to one of the four colours, never to the zero default |
| Video.ColoursDistinct | src/core/gpu.cpp:107-112 | different shades give different colours |
| Video.IdentityPalette | src/core/gpu.cpp:104 | palette 0xE4 maps each colour to itself |
| Video.ShadeOfPalette | src/core/gpu.cpp:104 | each colour's shade is its own two bits of the palette |
| Video.BitAt | src/core/gpu.cpp:100-101 | a shifted and masked bit is 0 or 1 |
| Video.TileColourExample | src/core/gpu.cpp:97-103 | a tile row's leftmost pixel takes bit 7 of low and high, the next pixel bit 6 |
| Video.MapStart | src/core/gpu.cpp:71-78 | the first map address lies within the two tile maps |
| Video.PixelAt | src/core/gpu.cpp:91-114 | a pixel that paints has a colour and a fetched tile number, and is not at tile_x 7 |
| Video.BackgroundFrom | src/core/gpu.cpp:91-115 | the background loop keeps the framebuffer's size |
| Video.BackgroundStep | src/core/gpu.cpp:91-115 | a painted pixel hands the rest of the line its map address, tile number and framebuffer |
| Video.BackgroundStop | src/core/gpu.cpp:91-115 | a pixel that meets undefined behaviour ends the pass there with the framebuffer unchanged |
| Video.BackgroundFaultOnLine | src/core/gpu.cpp:91-115 | a fault is at a pixel of the line, at or after the pixel the pass started from |
| Video.BackgroundStaysOnLine | src/core/gpu.cpp:114 | the pass writes only the current line's cells and only colours |
| Video.BackgroundAlwaysFaults | src/core/gpu.cpp:92-101 | the pass always faults within the current tile: tile_nbr is unset, or tile_x reaches 7 and `6 - tile_x` is negative |
| Video.FirstTileFaults | src/core/gpu.cpp:87-101 | from pixel 0 the pass faults at or before pixel 7 - (scroll_x mod 8), whatever VRAM holds |
| Video.UnalignedReadsUnsetTile | src/core/gpu.cpp:87-98 | with scroll_x not a multiple of 8, pixel 0 reads tile_nbr before it is set |
| Video.ScanlineOf | src/core/gpu.cpp:60-68 | render_scanline keeps the framebuffer's size and keeps an earlier fault |
| Video.Gpu.constructor | src/core/gpu.cpp:4-15 | every member is value-initialised except obj_palette: HBlank of line 0, zero VRAM, OAM, registers and framebuffer |
| Video.Gpu.Step | src/core/gpu.cpp:17-58 | the timer moves as StepTiming says; a render_scanline event draws the line; a frame event counts one render_frame; else the framebuffer is unchanged |
| Video.Gpu.RenderScanline | src/core/gpu.cpp:60-68 | runs the background pass when bit 0 of lcd_control is set, and counts a sprite pass when bit 1 is |
| Video.Gpu.RenderBackground | src/core/gpu.cpp:70-116 | the loop leaves the framebuffer and fault that BackgroundFrom gives from pixel 0 |
| Video.Gpu.BackgroundPixel | src/core/gpu.cpp:92-112 | one pass of the loop body is PixelAt |
| Video.Gpu.WriteByteVram | src/core/gpu.cpp:166-168 | stores one VRAM byte |
| Video.Gpu.WriteWordVram | src/core/gpu.cpp:170-173 | stores a word little-endian into VRAM |
| Video.Gpu.ReadByteOam | src/core/gpu.cpp:175-177 | returns the OAM byte |
| Video.Gpu.WriteByteOam | src/core/gpu.cpp:179-181 | stores one OAM byte |
| Video.Gpu.ReadWordOam | src/core/gpu.cpp:183-185 | returns the little-endian OAM word |
| Video.Gpu.WriteWordOam | src/core/gpu.cpp:187-190 | stores a word little-endian into OAM |
| Video.Gpu.GetLcdControl | src/core/gpu.cpp:192-194 | returns lcd_control |
| Video.Gpu.SetLcdControl | src/core/gpu.cpp:196-198 | sets lcd_control |
| Video.Gpu.GetScrollX | src/core/gpu.cpp:200-202 | returns scroll_x |
| Video.Gpu.SetScrollX | src/core/gpu.cpp:204-206 | sets scroll_x |
| Video.Gpu.GetScrollY | src/core/gpu.cpp:208-210 | returns scroll_y |
| Video.Gpu.SetScrollY | src/core/gpu.cpp:212-214 | sets scroll_y |
| Video.Gpu.GetCurrScanline | src/core/gpu.cpp:219-221 | returns curr_line |
| Video.Gpu.SetBgPalette | src/core/gpu.cpp:223-225 | sets bg_palette |
| Video.Gpu.GetObjPalette | src/core/gpu.cpp:227-229 | returns obj_palette[index] |
| Video.Gpu.SetObjPalette | src/core/gpu.cpp:231-233 | sets obj_palette[index] only |
| Joypad.ColumnsDown | src/core/input.cpp:12-13 | the two column flags are bits 4 and 5 (masks 0x10 and 0x20) of the written byte |
| Joypad.StoredButtons | src/core/input.cpp:11-19 | the buttons value is v when v selects no column, and stays as it was when bit 4 or 5 of v is set |
| Joypad.StoreTwice | src/core/input.cpp:11-19 | writing the same byte twice stores what writing it once does |
| Joypad.NibbleIsStored | src/core/input.cpp:11-19 | a value below 0x10, as the keyboard writes, is stored |
| Joypad.Input.constructor | src/core/input.cpp:3-5 | buttons 0x0F and both columns up |
| Joypad.Input.GetButtonsPressed | src/core/input.cpp:7-9 | returns buttons_pressed |
| Joypad.Input.SetButtonsPressed | src/core/input.cpp:11-19 | the columns are bits 4 and 5 of v, and the buttons follow StoredButtons |
| Joypad.Input.GetColumnDown | src/core/input.cpp:21-23 | returns column_down[column] |
| Keyboard.PressOwnBit | src/input/sdl_keyboard.cpp:11 | one reassignment changes only its button's bit: cleared if held, set if not; a nibble stays a nibble |
| Keyboard.PressCommutes | src/input/sdl_keyboard.cpp:11-14 | reassignments for two different buttons commute |
| Keyboard.ColumnBits | src/input/sdl_keyboard.cpp:10-14 | bit i of a built column is clear exactly when key i is held, and the column is below 0x10 |
| Keyboard.UpdateButtonPresses | src/input/sdl_keyboard.cpp:7-23 | column 0 holds A, B, select, start in bits 0 to 3 and column 1 holds right, left, up, down, each bit clear iff its key is held |
| Keyboard.NoKeysAllKeys | src/input/sdl_keyboard.cpp:10-14 | no key held gives 0xF, all held gives 0x0 |
| Arguments.FieldEnd | src/application/argument_handler.h:51 | the index of the first comma, or the length when there is none |
| Arguments.FieldsStep | src/application/argument_handler.h:51 | one getline call takes the text before the first comma and resumes after it |
| Arguments.FieldsHaveNoComma | src/application/argument_handler.h:51 | no extracted field holds a comma |
| Arguments.JoinFields | src/application/argument_handler.h:51 | joining the fields with commas gives the text back, unless it ends in a comma |
| Arguments.TrailingComma | src/application/argument_handler.h:51 | a trailing comma adds no field |
| Arguments.EmptyFields | src/application/argument_handler.h:51 | a lone comma is one empty field; an empty list has none |
| Arguments.FieldEndAppend | src/application/argument_handler.h:51 | text appended after a comma does not move the first comma |
| Arguments.DigitValue | src/application/argument_handler.h:52 | a hexadecimal digit's value is below 16 |
| Arguments.Spaces | src/application/argument_handler.h:52 | the count of leading whitespace, after which comes non-space |
| Arguments.HexPrefix | src/application/argument_handler.h:52 | the longest prefix of hexadecimal digits |
| Arguments.Negate | src/application/argument_handler.h:52 | `-` negates modulo 2^64, keeping a value within unsigned long |
| Arguments.Magnitude | src/application/argument_handler.h:52 | a converted value never exceeds ULONG_MAX |
| Arguments.Digit | src/application/argument_handler.h:52 | the digit written for d is a hexadecimal digit worth d |
| Arguments.Hex | src/application/argument_handler.h:52 | n written in hexadecimal is a non-empty string of digits |
| Arguments.HexValueOfHex | src/application/argument_handler.h:52 | the value of Hex(n) is n |
| Arguments.HexPrefixOfDigits | src/application/argument_handler.h:52 | a digit run followed by a non-digit is the longest digit prefix |
| Arguments.UnprefixedDigits | src/application/argument_handler.h:52 | a plain string of digits has no "0x" prefix for strtoul to skip |
| Arguments.ConvertDigits | src/application/argument_handler.h:52 | a digit string within unsigned long converts to its value |
| Arguments.HexRoundTrip | src/application/argument_handler.h:52 | stoul in base 16 reads back every unsigned long written in hexadecimal, and a value below 2^16 survives the `uint16_t` cast |
| Arguments.PrefixedHexRoundTrip | src/application/argument_handler.h:52 | the same with a "0x" prefix |
| Arguments.HexValueAtLeast | src/application/argument_handler.h:52 | a digit string not starting with 0 is worth at least 16^(length - 1) |
| Arguments.StoulErrors | src/application/argument_handler.h:52 | "", "g" and "-" are invalid arguments; more than 16 significant digits are out of range |
| Arguments.Pow16Add | src/application/argument_handler.h:52 | 16^(a + b) is 16^a times 16^b |
| Arguments.PowMonotone | src/application/argument_handler.h:52 | 16^a is at most 16^b when a is at most b |
| Arguments.MagnitudeOfDigits | src/application/argument_handler.h:52 | the conversion stops at the first character that is not a digit |
| Arguments.StoulPrefixes | src/application/argument_handler.h:52 | leading blanks are skipped, and "0x" alone reads as the digit 0 |
| Arguments.StoulTailAndSign | src/application/argument_handler.h:52 | trailing text is ignored, "-1" gives ULONG_MAX, and the cast keeps the low 16 bits |
| Arguments.InsertAll | src/application/argument_handler.h:48-55 | the loop only adds breakpoints; it ends parsed or at the first field stoul rejects |
| Arguments.InsertAllCons | src/application/argument_handler.h:51-53 | one turn of the loop inserts the truncated value, or stops with the exception for that field |
| Arguments.InsertAllAdds | src/application/argument_handler.h:48-55 | the loop completes iff every field converts, and then adds exactly their truncated values |
| Arguments.CreateCommand | src/application/argument_handler.cpp:31-42 | a command is made only for "-b", "-r" or "-bp" with a value after it, and the value is the next token |
| Arguments.Execute | src/application/argument_handler.h:27-55 | bios and rom commands set only their own member; a breakpoint command only adds breakpoints |
| Arguments.RunConcat | src/application/argument_handler.cpp:8-11 | parsing a prefix that parses, then more tokens, continues where the prefix stopped |
| Arguments.CreateConcat | src/application/argument_handler.cpp:31-37 | an option with its value reads the same when more tokens follow |
| Arguments.RunShift | src/application/argument_handler.cpp:8-11 | parsing from the end of a prefix is parsing the rest from its start |
| Arguments.CreateShift | src/application/argument_handler.cpp:31-41 | the option at position |a| + k of a + b is the one at k in b, and its value lies |a| further on |
| Arguments.RunShiftFrom | src/application/argument_handler.cpp:8-11 | the same from any position of the rest |
| Arguments.LastValueWins | src/application/argument_handler.cpp:32-35 | a later "-b" or "-r" replaces the earlier value and changes nothing else |
| Arguments.BreakpointsAccumulate | src/application/argument_handler.h:48-55 | a later "-bp" keeps every earlier breakpoint, succeeds iff all its fields convert, and then adds exactly their values |
| Arguments.BreakpointsOnlyGrow | src/application/argument_handler.cpp:8-11 | breakpoints never shrink over a run |
| Arguments.TokenPositions | src/application/argument_handler.cpp:8-42 | argv[0] is parsed like any token, so a program name stops at once as an illegal argument; an option's value is never read as an option; an option in last position has no value; no tokens parse to empty members |
| Arguments.ArgumentHandler.constructor | src/application/argument_handler.cpp:8-11 | the loop over argv leaves what Parse gives |
| Arguments.ArgumentHandler.ParseCommand | src/application/argument_handler.cpp:14-17 | pos moves past the option's value, and the rest of the loop gives what the loop from the old position would |
| Arguments.ArgumentHandler.ExecuteCommand | src/application/argument_handler.h:30-55 | runs Execute on the members |
| Arguments.ArgumentHandler.InsertBreakpoints | src/application/argument_handler.h:48-55 | the getline and stoul loop leaves the breakpoints and outcome InsertAll gives |
| Arguments.ArgumentHandler.GetBios | src/application/argument_handler.cpp:19-21 | returns bios |
| Arguments.ArgumentHandler.GetRom | src/application/argument_handler.cpp:23-25 | returns rom |
| Arguments.ArgumentHandler.GetBreakpoints | src/application/argument_handler.cpp:27-29 | returns breakpoints |

## Specification functions

These functions define what the source computes and carry no contract of
their own. The lemmas and methods named after each one pin them down.

- `Opcodes.Table`, `Opcodes.BaseTable` and `Opcodes.CbTable` are the `instructions` initialiser (src/core/cpu.cpp:6-520). Pinned by UnimplementedSlots, PrefixSlot, RstVectors, IncCAndIncDIncrementB, LocationOf and OperandOf, and used by Machine.Step.
- `Machine.ReadByte`, `ReadWord`, `WriteByte` and `WriteWord` are the IMmu calls (include/geemuboi/core/immu.h:7-10). Pinned by ReadWriteByte and ReadWriteWord.
- `Machine.PopBytes` and `Machine.PopSp` are `pop_r16` (src/core/cpu.h:748-751). Pinned by MachineFacts.PopAfterPush and PushThenPop, and met by Processor.Cpu.PopPair.
- `Mmu.ReadByteOf` and `Mmu.ByteAt` are the `read_byte` switch (src/core/mmu.cpp:46-82). `Mmu.ReadWordOf` and `Mmu.WordAt` are the `read_word` switch (src/core/mmu.cpp:84-112). Pinned by ByteRoundTrip, EchoAliases, QuietRegions, RegistersReadBack, JoypadReadBack, WordIsLittleEndian, HramWordRoundTrip and the overrun lemmas, and met by Mmu.Mmu.ReadByte and ReadWord.
- `Video.Shade` is `(bg_palette >> (color * 2)) & 0x3` (src/core/gpu.cpp:104). Pinned by ShadeOfPalette and IdentityPalette.
- `Video.TileColour` is the two-bit colour of a tile pixel (src/core/gpu.cpp:97-102). Pinned by TileColourExample.
- `Keyboard.Press` is one reassignment of `col1` or `col2` (src/input/sdl_keyboard.cpp:11-21). `Keyboard.Column` is the four reassignments from 0xF. Pinned by PressOwnBit, PressCommutes, ColumnBits and NoKeysAllKeys.
- `Alu.FlagsByte` and `Alu.FlagsOfByte` convert between f and its flags, Z=0x80, N=0x40, H=0x20 and C=0x10 (src/core/cpu.cpp:1919-1922). Pinned by FlagsByteRoundTrip and ByteFlagsRoundTrip.
- `Arguments.Fields` is the `getline(…, ',')` loop (src/application/argument_handler.h:51). Pinned by FieldsStep, FieldsHaveNoComma, JoinFields, TrailingComma and EmptyFields.
- `Arguments.Strtoul16` is `std::stoul(…, nullptr, 16)` (src/application/argument_handler.h:52). Pinned by HexRoundTrip, PrefixedHexRoundTrip, StoulErrors, StoulPrefixes and StoulTailAndSign.
- `Arguments.Run` and `Arguments.Parse` are the constructor's token loop (src/application/argument_handler.cpp:8-11). Pinned by RunConcat, RunShift, LastValueWins, BreakpointsAccumulate, BreakpointsOnlyGrow and TokenPositions, and met by Arguments.ArgumentHandler.constructor.

## Left out

- File I/O. The MMU constructor takes the BIOS and ROM images as byte
  sequences that fit their arrays. The unopenable-ROM `exit(1)` and a file
  longer than its array are not modelled.
- `instr.txt`: the CPU constructor's loading of instruction names serves
  only the commented-out trace.
- SDL and rendering. `render_frame` is a ghost counter. `render_sprites`
  is a ghost counter too, because its drawing is not modelled.
- The keyboard's SDL state array. It becomes a KeyState value.
  `UpdateButtonPresses` returns the two column values it hands to
  `set_buttons_pressed(column, value)`. That function is declared in
  `include/geemuboi/core/input.h`, but its body is not in the sources.
- The CPU's memory is a 64K byte map behind `IMmu`, as the unit test's
  mock sees it. It is not connected to the Mmu class, which is modelled on
  its own.
- The `cycles` counter and `get_cycles_executed`: `execute` returns the
  cycle count, and that count is modelled.
- `halt`, `di`, `ei` and `reti` do nothing but return cycles, and `stop`
  only moves pc past one byte; they are modelled as exactly that.
  Interrupts do not exist in the source.
- The `std::cout` message that `unimplemented` prints is not modelled; the
  handler's 0 cycles are.
- The one-argument `CPU(IMmu&)` leaves the registers as it finds them; the
  model has the caller supply them, as in `CPU(IMmu&, Registers&)`. The
  unit test's value-initialised `Registers{}` is `Machine.ZeroRegisters`.
- `add_sp_r8` and `ldhl_sp_r8`: the flags are modelled as written
  (`f &= 0x30`). The TODO for the real flags is not supplied.
- The GPU's `obj_palette` is left uninitialised by the constructor. The
  model allocates it without stating its contents.
- The `PIXEL_COLOR_*` values come from a renderer header that is not part
  of this model. The model names the four colours (and the zero default)
  instead of giving numbers.
- The LCD bit positions follow the `LCD_CONTROL_*` masks of
  `src/core/gpu.h`.
- `state_cycles` is an unbounded int. It never overflows in the model.
- Undefined behaviour is a result. The model reports the first index
  outside an array (`Overrun`), and the first problem of a background pixel
  (`Fault`), and stops there. What the C++ would do afterwards is not
  modelled.
- The order of the two array reads of one read_word is unspecified in
  C++. In external and work RAM with bit 13 of the address set, both
  indices are out of range; the model reports the first operand's index.
- `exit(0)`, the exceptions of `std::stoul`, and reading `argv[argc]` when
  an option is last do not stop the model. Each is an Outcome value that
  ends the parse.
- `std::stoul(s, nullptr, 16)` is modelled as glibc `strtoul` with a
  64-bit unsigned long. Locales other than "C" are not modelled.
- The logger (`LOG`) and the debug decorator are not modelled.
