// The joypad register P1 (0xFF00): two select lines and an eight-button
// bit set, read back through the low nibble.
module Joypad {
  import opened Bits

  /** `JoypadButtons`. */
  datatype Button = Start | Select | B | A | Down | Up | Left | Right

  /** The bit `Buttons::from(b)` sets: Start is bit 7 down to Right at bit 0. */
  function Position(b: Button): (k: nat)
    ensures k < 8
  {
    match b
    case Start => 7
    case Select => 6
    case B => 5
    case A => 4
    case Down => 3
    case Up => 2
    case Left => 1
    case Right => 0
  }

  /** `Buttons::from(b)`: the button's single bit. */
  function Mask(b: Button): (m: bv8)
    ensures FromBv(m) == Pow2(Position(b))
  {
    match b
    case Start => 0x80
    case Select => 0x40
    case B => 0x20
    case A => 0x10
    case Down => 0x08
    case Up => 0x04
    case Left => 0x02
    case Right => 0x01
  }

  /** Distinct buttons own distinct bits. */
  lemma MasksDisjoint(b: Button, c: Button)
    requires b != c
    ensures Mask(b) & Mask(c) == 0
  {
  }

  /** `buttons.remove(b)`: `b`'s bit cleared. */
  function Pressed(buttons: bv8, b: Button): (r: bv8)
    ensures r & Mask(b) == 0
    ensures r & !Mask(b) == buttons & !Mask(b)
  {
    buttons & !Mask(b)
  }

  /** `buttons.insert(b)`: `b`'s bit set. */
  function Released(buttons: bv8, b: Button): (r: bv8)
    ensures r & Mask(b) == Mask(b)
    ensures r & !Mask(b) == buttons & !Mask(b)
  {
    buttons | Mask(b)
  }

  /** Pressing or releasing a button twice is the same as doing it once. */
  lemma PressReleaseIdempotent(buttons: bv8, b: Button)
    ensures Pressed(Pressed(buttons, b), b) == Pressed(buttons, b)
    ensures Released(Released(buttons, b), b) == Released(buttons, b)
  {
  }

  /** Releasing a pressed button restores the set if the button was released before. */
  lemma ReleaseUndoesPress(buttons: bv8, b: Button)
    requires buttons & Mask(b) != 0
    ensures Released(Pressed(buttons, b), b) == buttons
  {
  }

  /** Pressing one button and releasing another commute. */
  lemma PressReleaseCommute(buttons: bv8, b: Button, c: Button)
    requires b != c
    ensures Released(Pressed(buttons, b), c) == Pressed(Released(buttons, c), b)
  {
    MasksDisjoint(b, c);
  }

  /**
   * `read_joypad`: start from 0xCF; with the button line selected (its flag
   * false) AND in the complement of the upper four button bits shifted down;
   * with the direction line selected AND in the complement of the button
   * bits themselves.
   */
  function Read(buttonSelect: bool, directionSelect: bool, buttons: bv8): (v: u8)
    ensures ToBv(v) & 0x30 == 0
  {
    var output: bv8 := 0xCF;
    var output := if !buttonSelect then output & ((!buttons) >> 4) else output;
    var output := if !directionSelect then output & !buttons else output;
    BvRoundTrip(output);
    FromBv(output)
  }

  /** The read is always a bitwise subset of 0xCF, and exactly 0xCF with both lines deselected. */
  lemma ReadWithinMask(buttonSelect: bool, directionSelect: bool, buttons: bv8)
    ensures And8(Read(buttonSelect, directionSelect, buttons), 0xCF) == Read(buttonSelect, directionSelect, buttons)
    ensures buttonSelect && directionSelect ==> Read(buttonSelect, directionSelect, buttons) == 0xCF
  {
    var v := Read(buttonSelect, directionSelect, buttons);
    BvRoundTrip(ToBv(v) & 0xCF);
    assert ToBv(v) & 0xCF == ToBv(v);
    ByteRoundTrip(v);
  }

  /**
   * With only the button line selected, low bit `k` reads 0 exactly when
   * button bit `k + 4` (A, B, Select, Start) is set; with only the
   * direction line selected, low bit `k` reads 0 exactly when button bit `k`
   * (Right, Left, Up, Down) is set.
   */
  lemma ReadGroups(buttons: bv8, b: Button)
    ensures Position(b) >= 4 ==>
              (ToBv(Read(false, true, buttons)) & (Mask(b) >> 4) == 0 <==> buttons & Mask(b) != 0)
    ensures Position(b) < 4 ==>
              (ToBv(Read(true, false, buttons)) & Mask(b) == 0 <==> buttons & Mask(b) != 0)
  {
  }

  class JoyPad {
    var buttonSelect: bool
    var directionSelect: bool
    var buttons: bv8

    /** `JoyPad::default`: both lines deselected, no button bit set; P1 reads 0xCF. */
    constructor ()
      ensures buttonSelect && directionSelect && buttons == 0
      ensures ReadJoypad() == 0xCF
    {
      buttonSelect, directionSelect, buttons := true, true, 0;
      ReadWithinMask(true, true, 0);
    }

    /** `read_joypad`. */
    function ReadJoypad(): u8
      reads this
    {
      Read(buttonSelect, directionSelect, buttons)
    }

    /** `write_joypad(v)`: bit 5 clear selects the buttons, bit 4 clear the directions. */
    method WriteJoypad(value: u8)
      modifies this`buttonSelect, this`directionSelect
      ensures buttonSelect <==> !BitSet(value, 5)
      ensures directionSelect <==> !BitSet(value, 4)
    {
      assert Pow2(5) == 32 && Pow2(4) == 16;
      buttonSelect := (ToBv(value) >> 5) & 1 == 0;
      directionSelect := (ToBv(value) >> 4) & 1 == 0;
    }

    /** `press_joypad(b)`: `b`'s bit is cleared, the others are kept. */
    method PressJoypad(b: Button)
      modifies this`buttons
      ensures buttons == Pressed(old(buttons), b)
    {
      buttons := buttons & !Mask(b);
    }

    /** `release_joypad(b)`: `b`'s bit is set, the others are kept. */
    method ReleaseJoypad(b: Button)
      modifies this`buttons
      ensures buttons == Released(old(buttons), b)
    {
      buttons := buttons | Mask(b);
    }
  }
}
