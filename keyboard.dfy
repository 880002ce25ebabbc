/**
 * The SDL keyboard of src/input/sdl_keyboard.cpp. It maps eight held keys
 * onto two active-low button nibbles: a bit is 0 while its key is held.
 * SDL's keyboard state array becomes the eight booleans of KeyState.
 */
module Keyboard {
  import opened Bytes

  /** Whether each key the emulator looks at is held. */
  datatype KeyState = KeyState(
    x: bool, z: bool, backspace: bool, enter: bool,
    right: bool, left: bool, up: bool, down: bool)

  /** Input::Buttons: each value clears the one bit of its button. */
  const BUTTON_A: bv8 := 0xE
  const BUTTON_B: bv8 := 0xD
  const BUTTON_SELECT: bv8 := 0xB
  const BUTTON_START: bv8 := 0x7
  const BUTTON_RIGHT: bv8 := 0xE
  const BUTTON_LEFT: bv8 := 0xD
  const BUTTON_UP: bv8 := 0xB
  const BUTTON_DOWN: bv8 := 0x7

  /** One reassignment `col = held ? col & button : col | (~button & 0xF)`. */
  function Press(col: bv8, held: bool, button: bv8): bv8 {
    if held then col & button else col | (!button & 0xF)
  }

  /** The four button values, each the nibble with one bit cleared. */
  predicate IsButton(button: bv8) {
    button == 0xE || button == 0xD || button == 0xB || button == 0x7
  }

  /** A reassignment changes only its own bit, and keeps a nibble a nibble. */
  lemma PressOwnBit(col: bv8, held: bool, button: bv8)
    requires IsButton(button)
    ensures Press(col, held, button) & button == col & button
    ensures Press(col, held, button) & !button & 0xF == if held then 0 else !button & 0xF
    ensures col < 0x10 ==> Press(col, held, button) < 0x10
  {
  }

  /** Two reassignments for different buttons can be made in either order. */
  lemma PressCommutes(col: bv8, h1: bool, b1: bv8, h2: bool, b2: bv8)
    requires IsButton(b1) && IsButton(b2) && b1 != b2
    ensures Press(Press(col, h1, b1), h2, b2) == Press(Press(col, h2, b2), h1, b1)
  {
  }

  /** Four reassignments starting from 0xF, as each column is built. */
  function Column(h0: bool, h1: bool, h2: bool, h3: bool): bv8 {
    Press(Press(Press(Press(0xF, h0, 0xE), h1, 0xD), h2, 0xB), h3, 0x7)
  }

  /** Bit i of a column is clear exactly when key i is held, and the column is a nibble. */
  lemma ColumnBits(h0: bool, h1: bool, h2: bool, h3: bool)
    ensures var c := ByteOf(Column(h0, h1, h2, h3));
      c < 0x10 && (!Bit(c, 0) <==> h0) && (!Bit(c, 1) <==> h1) && (!Bit(c, 2) <==> h2) && (!Bit(c, 3) <==> h3)
  {
    var v := Column(h0, h1, h2, h3);
    assert v < 0x10;
    assert (v & 0x01 == 0 <==> h0) && (v & 0x02 == 0 <==> h1) && (v & 0x04 == 0 <==> h2) && (v & 0x08 == 0 <==> h3);
  }

  /**
   * `update_button_presses`: returns the value it hands to column 0 (A, B,
   * select, start) and the one it hands to column 1 (the directions).
   */
  method UpdateButtonPresses(keys: KeyState) returns (column0: byte, column1: byte)
    ensures column0 < 0x10 && column1 < 0x10
    ensures !Bit(column0, 0) <==> keys.x
    ensures !Bit(column0, 1) <==> keys.z
    ensures !Bit(column0, 2) <==> keys.backspace
    ensures !Bit(column0, 3) <==> keys.enter
    ensures !Bit(column1, 0) <==> keys.right
    ensures !Bit(column1, 1) <==> keys.left
    ensures !Bit(column1, 2) <==> keys.up
    ensures !Bit(column1, 3) <==> keys.down
  {
    var col1: bv8 := 0xF;
    col1 := Press(col1, keys.x, BUTTON_A);
    col1 := Press(col1, keys.z, BUTTON_B);
    col1 := Press(col1, keys.backspace, BUTTON_SELECT);
    col1 := Press(col1, keys.enter, BUTTON_START);
    column0 := ByteOf(col1);
    ColumnBits(keys.x, keys.z, keys.backspace, keys.enter);

    var col2: bv8 := 0xF;
    col2 := Press(col2, keys.right, BUTTON_RIGHT);
    col2 := Press(col2, keys.left, BUTTON_LEFT);
    col2 := Press(col2, keys.up, BUTTON_UP);
    col2 := Press(col2, keys.down, BUTTON_DOWN);
    column1 := ByteOf(col2);
    ColumnBits(keys.right, keys.left, keys.up, keys.down);
  }

  /** With no key held both columns read 0xF; with all held, 0x0. */
  lemma NoKeysAllKeys()
    ensures Column(false, false, false, false) == 0xF
    ensures Column(true, true, true, true) == 0x0
  {
  }
}
