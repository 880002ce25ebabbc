/**
 * Bytes and words of the 8-bit core, as bounded integers. The C++ code works
 * on uint8_t and uint16_t; its wrap-around is written out with Wrap8 and
 * Wrap16, its masks of low bits as remainders, and its bitwise operators
 * on the 8-bit pattern of a byte.
 */
module Bytes {

  type byte = x: int | 0 <= x < 0x100
  type word = x: int | 0 <= x < 0x1_0000
  type nibble = x: int | 0 <= x < 0x10
  /** The position of a bit in a byte, 0 being the least significant. */
  type bitIndex = i: int | 0 <= i < 8

  /** The 16-bit value whose high byte is `high` and whose low byte is `low`. */
  function WordOf(high: byte, low: byte): word {
    high * 0x100 + low
  }

  /** `w >> 8`. */
  function High(w: word): byte {
    w / 0x100
  }

  /** `static_cast<uint8_t>(w)`. */
  function Low(w: word): byte {
    w % 0x100
  }

  lemma WordOfParts(w: word)
    ensures WordOf(High(w), Low(w)) == w
  {
  }

  lemma PartsOfWord(high: byte, low: byte)
    ensures High(WordOf(high, low)) == high
    ensures Low(WordOf(high, low)) == low
  {
  }

  /**
   * Storing an int into a uint8_t: x modulo 256, with the cases of one
   * wrap-around in either direction written out.
   */
  function Wrap8(x: int): byte {
    if 0 <= x < 0x100 then x
    else if 0x100 <= x < 0x200 then x - 0x100
    else if -0x100 <= x < 0 then x + 0x100
    else x % 0x100
  }

  /** Storing an int into a uint16_t: x modulo 65536, likewise. */
  function Wrap16(x: int): word {
    if 0 <= x < 0x1_0000 then x
    else if 0x1_0000 <= x < 0x2_0000 then x - 0x1_0000
    else if -0x1_0000 <= x < 0 then x + 0x1_0000
    else x % 0x1_0000
  }

  lemma Wrap8IsMod(x: int)
    ensures Wrap8(x) == x % 0x100
  {
  }

  lemma Wrap16IsMod(x: int)
    ensures Wrap16(x) == x % 0x1_0000
  {
  }

  /** A sum or difference of two bytes (and a carry) wraps at most once. */
  lemma Wrap8Once(x: int)
    requires -0x100 <= x < 0x200
    ensures Wrap8(x) == if x >= 0x100 then x - 0x100 else if x < 0 then x + 0x100 else x
  {
  }

  /** A sum or difference of two words wraps at most once. */
  lemma Wrap16Once(x: int)
    requires -0x1_0000 <= x < 0x2_0000
    ensures Wrap16(x) == if x >= 0x1_0000 then x - 0x1_0000 else if x < 0 then x + 0x1_0000 else x
  {
  }

  /** Whole multiples of 256 are lost in a uint8_t. */
  lemma Wrap8Multiple(q: int, rem: byte)
    requires q >= 0
    ensures Wrap8(0x100 * q + rem) == rem
  {
    Wrap8IsMod(0x100 * q + rem);
  }

  /** The low 12 bits of a word are the low nibble of its high byte and its low byte. */
  lemma WordOfLow12(high: byte, low: byte)
    ensures WordOf(high, low) % 0x1000 == (high % 0x10) * 0x100 + low
  {
  }

  /** `static_cast<int8_t>(b)`: the byte read as two's complement. */
  function Int8(b: byte): (i: int)
    ensures -0x80 <= i < 0x80
    ensures Wrap8(i) == b
  {
    if b < 0x80 then b else b - 0x100
  }

  /** Storing an int into an int8_t (modulo 256, as the compilers do). */
  function WrapInt8(x: int): (i: int)
    ensures -0x80 <= i < 0x80
    ensures Wrap8(i) == Wrap8(x)
  {
    Int8(Wrap8(x))
  }

  /** `1 << i`. */
  function Pow2(i: bitIndex): byte {
    match i
    case 0 => 0x01
    case 1 => 0x02
    case 2 => 0x04
    case 3 => 0x08
    case 4 => 0x10
    case 5 => 0x20
    case 6 => 0x40
    case _ => 0x80
  }

  /** `1 << i` as an 8-bit pattern. */
  function Mask(i: bitIndex): bv8 {
    match i
    case 0 => 0x01
    case 1 => 0x02
    case 2 => 0x04
    case 3 => 0x08
    case 4 => 0x10
    case 5 => 0x20
    case 6 => 0x40
    case _ => 0x80
  }

  /** `v & (1 << i)` is not zero, on an 8-bit pattern. */
  predicate BitOf(v: bv8, i: bitIndex) {
    v & Mask(i) != 0
  }

  /** `x & (1 << i)` is not zero. */
  predicate Bit(x: byte, i: bitIndex) {
    BitOf(x as bv8, i)
  }

  /** An 8-bit pattern read back as a byte. */
  function ByteOf(v: bv8): (x: byte)
    ensures x as bv8 == v
  {
    v as int
  }

  /** `v & ~(1 << b)`. */
  function ClearBit(v: bv8, b: bitIndex): bv8 {
    v & !Mask(b)
  }

  /** `v | (1 << b)`. */
  function SetBit(v: bv8, b: bitIndex): bv8 {
    v | Mask(b)
  }

  lemma ClearBitBit(v: bv8, b: bitIndex, j: bitIndex)
    ensures BitOf(ClearBit(v, b), j) <==> j != b && BitOf(v, j)
  {
  }

  lemma SetBitBit(v: bv8, b: bitIndex, j: bitIndex)
    ensures BitOf(SetBit(v, b), j) <==> j == b || BitOf(v, j)
  {
  }

  /** Bit 7 is the sign bit: it is set exactly on the upper half of the bytes. */
  lemma BitSeven(x: byte)
    ensures Bit(x, 7) <==> x >= 0x80
  {
  }

  /** Bit 0 is set exactly on the odd bytes. */
  lemma BitZero(x: byte)
    ensures Bit(x, 0) <==> x % 2 == 1
  {
  }

  /** `x & y` on two bytes. */
  function And(x: byte, y: byte): byte {
    ((x as bv8) & (y as bv8)) as int
  }

  /** `x | y` on two bytes. */
  function Or(x: byte, y: byte): byte {
    ((x as bv8) | (y as bv8)) as int
  }

  /** `x ^ y` on two bytes. */
  function Xor(x: byte, y: byte): byte {
    ((x as bv8) ^ (y as bv8)) as int
  }

  // ---------------------------------------------------------------------
  // Little-endian words in a byte array that does not wrap
  // ---------------------------------------------------------------------

  /** `a[i] + (a[i + 1] << 8)`. */
  function LoadWord(a: seq<byte>, i: int): word
    requires 0 <= i && i + 1 < |a|
  {
    WordOf(a[i + 1], a[i])
  }

  /** `a[i] = v; a[i + 1] = v >> 8`. */
  function StoreWord(a: seq<byte>, i: int, v: word): seq<byte>
    requires 0 <= i && i + 1 < |a|
  {
    a[i := Low(v)][i + 1 := High(v)]
  }

  /** A stored word reads back, and only its two cells change. */
  lemma LoadStoreWord(a: seq<byte>, i: int, v: word)
    requires 0 <= i && i + 1 < |a|
    ensures |StoreWord(a, i, v)| == |a|
    ensures LoadWord(StoreWord(a, i, v), i) == v
    ensures forall k | 0 <= k < |a| && k != i && k != i + 1 :: StoreWord(a, i, v)[k] == a[k]
  {
    WordOfParts(v);
  }
}
