/**
 * The joypad register of src/core/input.cpp. The CPU writes a byte to
 * 0xFF00 whose bits 4 and 5 select a button column; a byte with neither
 * bit set is stored as the buttons value that reads of 0xFF00 return.
 */
module Joypad {
  import opened Bytes

  /** `column_down[0]`, `column_down[1]` after a write of v: bits 4 and 5 of v. */
  function ColumnsDown(v: byte): (down: seq<bool>)
    ensures |down| == 2
    ensures down[0] <==> v as bv8 & 0x10 != 0
    ensures down[1] <==> v as bv8 & 0x20 != 0
  {
    [Bit(v, 4), Bit(v, 5)]
  }

  /** The buttons value after a write of v over `buttons`: kept when v selects a column. */
  function StoredButtons(buttons: byte, v: byte): (b: byte)
    ensures b == v || b == buttons
    ensures b == v <== !Bit(v, 4) && !Bit(v, 5)
    ensures Bit(v, 4) || Bit(v, 5) ==> b == buttons
  {
    if Bit(v, 4) || Bit(v, 5) then buttons else v
  }

  /** Writing the same byte twice leaves what writing it once left. */
  lemma StoreTwice(buttons: byte, v: byte)
    ensures StoredButtons(StoredButtons(buttons, v), v) == StoredButtons(buttons, v)
  {
  }

  /** The nibble values that the keyboard writes select no column, so they are stored. */
  lemma NibbleIsStored(buttons: byte, v: byte)
    requires v < 0x10
    ensures StoredButtons(buttons, v) == v
  {
    assert v as bv8 & 0xF0 == 0;
  }

  class Input {
    /** `uint8_t buttons_pressed`. */
    var buttons_pressed: byte
    /** `bool column_down[2]`. */
    var column_down: array<bool>

    predicate Valid()
      reads this
    {
      column_down.Length == 2
    }

    /** `Input()`: buttons 0x0F, value-initialised columns. */
    constructor ()
      ensures Valid() && fresh(column_down)
      ensures buttons_pressed == 0x0F
      ensures column_down[..] == [false, false]
    {
      buttons_pressed := 0x0F;
      column_down := new bool[2](_ => false);
    }

    method GetButtonsPressed() returns (b: byte)
      ensures b == buttons_pressed
    {
      b := buttons_pressed;
    }

    /** `set_buttons_pressed(v)`: record the column bits, then return early or store v. */
    method SetButtonsPressed(v: byte)
      requires Valid()
      modifies this`buttons_pressed, column_down
      ensures Valid()
      ensures column_down[..] == ColumnsDown(v)
      ensures buttons_pressed == StoredButtons(old(buttons_pressed), v)
    {
      column_down[0] := Bit(v, 4);
      column_down[1] := Bit(v, 5);
      if column_down[0] || column_down[1] {
        return;
      }
      buttons_pressed := v;
    }

    /** `get_column_down(column)`; the array has two cells. */
    method GetColumnDown(column: int) returns (down: bool)
      requires Valid() && 0 <= column < 2
      ensures down == column_down[column]
    {
      down := column_down[column];
    }
  }
}
