// One OAM entry: four bytes (Y, X, tile number, attribute flags) addressed by
// offset 0 to 3.  `Sprite` is a `Copy` struct in the source, held by value in
// the PPU's OAM array, so here it is a value and its setters return the
// updated value.
module Sprites {
  import opened Bits

  datatype Sprite = Sprite(y: u8, x: u8, tile: u8, flags: bv8)

  /** `Sprite::default()`: all four bytes 0. */
  const Default := Sprite(0, 0, 0, 0)

  /**
   * `SpriteFlags::from_bits_truncate(d)`: the declared flags (priority, Y
   * flip, X flip, DMG palette, VRAM bank and the three CGB palette bits)
   * cover all eight bits, so nothing is dropped.
   */
  function FlagsOf(d: u8): (f: bv8)
    ensures FromBv(f) == d
  {
    ByteRoundTrip(d);
    ToBv(d) & (0x80 | 0x40 | 0x20 | 0x10 | 0x08 | 0x07)
  }

  /** `get_at_offset(o)`: Y, X, tile, flags for offsets 0 to 3; any other offset is `unreachable!`. */
  function GetAtOffset(s: Sprite, o: u8): u8
    requires o <= 3
  {
    if o == 0 then s.y
    else if o == 1 then s.x
    else if o == 2 then s.tile
    else FromBv(s.flags)
  }

  /** `set_at_offset(o, d)`: the field at offset `o` receives `d`. */
  function SetAtOffset(s: Sprite, o: u8, d: u8): Sprite
    requires o <= 3
  {
    if o == 0 then s.(y := d)
    else if o == 1 then s.(x := d)
    else if o == 2 then s.(tile := d)
    else s.(flags := FlagsOf(d))
  }

  /** A byte set at an offset reads back unchanged, the flags byte included. */
  lemma SetThenGet(s: Sprite, o: u8, d: u8)
    requires o <= 3
    ensures GetAtOffset(SetAtOffset(s, o, d), o) == d
  {
    if o == 3 {
      assert FromBv(FlagsOf(d)) == d;
    }
  }

  /** Setting one offset leaves the other three bytes as they were. */
  lemma SetKeepsOthers(s: Sprite, o: u8, d: u8, other: u8)
    requires o <= 3 && other <= 3 && other != o
    ensures GetAtOffset(SetAtOffset(s, o, d), other) == GetAtOffset(s, other)
  {
  }

  /** Setting an offset to the byte it already reads changes nothing. */
  lemma SetOwnIsIdentity(s: Sprite, o: u8)
    requires o <= 3
    ensures SetAtOffset(s, o, GetAtOffset(s, o)) == s
  {
    if o == 3 {
      BvRoundTrip(s.flags);
      assert FlagsOf(FromBv(s.flags)) == s.flags;
    }
  }

  /** `flags()`: the attribute byte. */
  function Flags(s: Sprite): u8
  {
    FromBv(s.flags)
  }

  /** `set_flags(d)`: the flags become `d` truncated to the declared bits, which is `d` itself. */
  function SetFlags(s: Sprite, d: u8): (r: Sprite)
    ensures Flags(r) == d
    ensures r.y == s.y && r.x == s.x && r.tile == s.tile
  {
    s.(flags := FlagsOf(d))
  }
}
