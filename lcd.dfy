// The LCD registers at 0xFF40-0xFF4B: LCDC and STAT as bit sets, the scroll,
// line and window bytes, and the palette bytes with the colours they decode to.
module Lcd {
  import opened Bits

  /** The PPU modes, numbered as STAT's two mode bits number them. */
  datatype Mode = HBlank | VBlank | Oam | Transfer

  /** `mode_value(m)`: the two-bit STAT code of `m` (its position in the `Mode` enum). */
  function ModeValue(m: Mode): u8
  {
    match m
    case HBlank => 0
    case VBlank => 1
    case Oam => 2
    case Transfer => 3
  }

  // ---- LCDC (0xFF40): all eight bits are declared flags ----

  /** `display_enable`: bit 7. */
  predicate DisplayEnable(c: bv8) { c & 0x80 != 0 }

  /** `window_tilemap`: the window's tile map starts at 0x9C00 when bit 6 is set, else 0x9800. */
  function WindowTilemap(c: bv8): u16 { if c & 0x40 != 0 then 0x9C00 else 0x9800 }

  /** `window_enable`: bit 5. */
  predicate WindowEnable(c: bv8) { c & 0x20 != 0 }

  /** `bg_window_tile_data`: tile data at 0x8800 when bit 4 is set, else 0x8000. */
  function BgWindowTileData(c: bv8): u16 { if c & 0x10 != 0 then 0x8800 else 0x8000 }

  /** `bg_tilemap`: the background's tile map starts at 0x9C00 when bit 3 is set, else 0x9800. */
  function BgTilemap(c: bv8): u16 { if c & 0x08 != 0 then 0x9C00 else 0x9800 }

  /** `sprite_size`: 16-pixel sprites when bit 2 is set, else 8. */
  function SpriteSize(c: bv8): u8 { if c & 0x04 != 0 then 16 else 8 }

  /** `sprite_enable`: bit 1. */
  predicate SpriteEnable(c: bv8) { c & 0x02 != 0 }

  /** `bg_window_priority`: bit 0. */
  predicate BgWindowPriority(c: bv8) { c & 0x01 != 0 }

  /**
   * Each LCDC accessor reads the bit the hardware assigns it, counted from
   * bit 0 of the byte written to 0xFF40.
   */
  lemma ControlBits(v: u8)
    ensures DisplayEnable(ToBv(v)) <==> BitSet(v, 7)
    ensures WindowTilemap(ToBv(v)) == (if BitSet(v, 6) then 0x9C00 else 0x9800)
    ensures WindowEnable(ToBv(v)) <==> BitSet(v, 5)
    ensures BgWindowTileData(ToBv(v)) == (if BitSet(v, 4) then 0x8800 else 0x8000)
    ensures BgTilemap(ToBv(v)) == (if BitSet(v, 3) then 0x9C00 else 0x9800)
    ensures SpriteSize(ToBv(v)) == (if BitSet(v, 2) then 16 else 8)
    ensures SpriteEnable(ToBv(v)) <==> BitSet(v, 1)
    ensures BgWindowPriority(ToBv(v)) <==> BitSet(v, 0)
  {
    assert Pow2(7) == 128 && Pow2(6) == 64 && Pow2(5) == 32 && Pow2(4) == 16;
    assert Pow2(3) == 8 && Pow2(2) == 4 && Pow2(1) == 2 && Pow2(0) == 1;
  }

  // ---- STAT (0xFF41): bits 0-6 are declared, bit 7 is not ----

  /** `LcdStatus::from_bits_truncate(v)`: bit 7 is dropped. */
  function StatusOf(v: u8): bv8
  {
    ToBv(v) & 0x7F
  }

  /** Bit 7 of a bit-vector byte is clear exactly when its value is below 0x80. */
  lemma Bit7Clear(x: bv8)
    ensures (x & 0x80 == 0) <==> x as int < 0x80
  {
  }

  /** A STAT write reads back below 0x80: the undeclared bit 7 is lost. */
  lemma StatusDropsBit7(v: u8)
    ensures FromBv(StatusOf(v)) < 0x80
    ensures v < 0x80 ==> FromBv(StatusOf(v)) == v
  {
    Bit7Clear(StatusOf(v));
    assert StatusOf(v) & 0x80 == 0;
    if v < 0x80 {
      ByteRoundTrip(v);
      Bit7Clear(ToBv(v));
      assert StatusOf(v) == ToBv(v);
    }
  }

  /** A STAT write keeps the written mode bits. */
  lemma StatusKeepsMode(v: u8)
    ensures CurrentMode(StatusOf(v)) == v % 4
  {
    assert StatusOf(v) & 0x03 == ToBv(v) & 0x03;
    LowBits(v);
  }

  /** `stat_interrupt`: bit 6, LY = LYC raises LCD STAT. */
  predicate StatInterrupt(s: bv8) { s & 0x40 != 0 }

  /** `oam_interrupt`: bit 5. */
  predicate OamInterrupt(s: bv8) { s & 0x20 != 0 }

  /** `vblank_interrupt`: bit 4, entering VBlank raises LCD STAT. */
  predicate VBlankInterrupt(s: bv8) { s & 0x10 != 0 }

  /** `hblank_interrupt`: bit 3, entering HBlank raises LCD STAT. */
  predicate HBlankInterrupt(s: bv8) { s & 0x08 != 0 }

  /** `equals_flag_set(b)`: bit 2 becomes `b`, every other bit is kept. */
  function EqualsFlagSet(s: bv8, b: bool): (r: bv8)
    ensures (r & 0x04 != 0) == b
    ensures r & 0xFB == s & 0xFB
  {
    (s & 0xFB) | (if b then 0x04 else 0)
  }

  lemma LowBitsAsInt(x: bv8)
    ensures (x & 0x03) as int == (x as int) % 4
  {
  }

  /** The two low bits of a byte are its remainder by 4. */
  lemma LowBits(v: u8)
    ensures FromBv(ToBv(v) & 0x03) == v % 4
  {
    LowBitsAsInt(ToBv(v));
    IntRoundTrip(v);
  }

  /** `current_mode`: the two mode bits. */
  function CurrentMode(s: bv8): u8
  {
    FromBv(s & 0x03)
  }

  /**
   * `current_mode_set(data)`: the two mode bits become the low two bits of
   * `data`; bits 2 to 6 are kept and the undeclared bit 7 is dropped.  The
   * source asserts the read-back.
   */
  function CurrentModeSet(s: bv8, data: u8): (r: bv8)
    ensures CurrentMode(r) == data % 4
    ensures r & 0x7C == s & 0x7C
    ensures r & 0x80 == 0
  {
    var r := ((s & 0xFC) | (ToBv(data) & 0x03)) & 0x7F;
    assert r & 0x03 == ToBv(data) & 0x03;
    LowBits(data);
    r
  }

  /** The mode the two STAT mode bits name. */
  function ModeOf(s: bv8): (m: Mode)
    ensures ModeValue(m) == CurrentMode(s)
  {
    var v := s & 0x03;
    if v == 0 then HBlank else if v == 1 then VBlank else if v == 2 then Oam else Transfer
  }

  /** Setting a mode's code makes STAT name that mode. */
  lemma ModeSetNamesMode(s: bv8, m: Mode)
    ensures ModeOf(CurrentModeSet(s, ModeValue(m))) == m
  {
    var r := CurrentModeSet(s, ModeValue(m));
    assert ModeValue(ModeOf(r)) == ModeValue(m);
  }

  /** Changing the coincidence flag keeps the mode bits and the four interrupt-select bits. */
  lemma EqualsFlagKeepsMode(s: bv8, b: bool)
    ensures ModeOf(EqualsFlagSet(s, b)) == ModeOf(s)
    ensures EqualsFlagSet(s, b) & 0x78 == s & 0x78
  {
    var r := EqualsFlagSet(s, b);
    assert r & 0x03 == s & 0x03;
  }

  // ---- Palettes ----

  /** `COLORS_DEFAULT`: the four shades as ARGB words, lightest first. */
  const ColorsDefault: seq<int> := [0xFFFFFFFF, 0xFFAAAAAA, 0xFF555555, 0xFF000000]

  /** `(d >> 2*i) & 0b11` on an unsigned byte: the shade index in bits 2i+1..2i of `d`. */
  function ShadeOf(d: u8, i: nat): (s: nat)
    requires i < 4
    ensures s < 4
  {
    (d / Pow2(2 * i)) % 4
  }

  /** The four colours `update_palette(d, _)` stores, entry `i` decoded from `ShadeOf(d, i)`. */
  function PaletteColors(d: u8): (cs: seq<int>)
    ensures |cs| == 4
  {
    [ColorsDefault[ShadeOf(d, 0)], ColorsDefault[ShadeOf(d, 1)],
     ColorsDefault[ShadeOf(d, 2)], ColorsDefault[ShadeOf(d, 3)]]
  }

  /** The shade index `ShadeOf(d, i)` is the base-4 digit `i` of `d`. */
  lemma ShadeIsDigit(d: u8, i: nat, high: nat, digit: nat, low: nat)
    requires i < 4 && digit < 4 && low < Pow2(2 * i)
    requires d == high * (4 * Pow2(2 * i)) + digit * Pow2(2 * i) + low
    ensures ShadeOf(d, i) == digit
  {
    var p := Pow2(2 * i);
    assert high * (4 * p) + digit * p == (4 * high + digit) * p;
    DivModUnique(d, p, 4 * high + digit, low);
    DivModUnique(4 * high + digit, 4, high, digit);
  }

  /**
   * A palette byte is four two-bit shade indices, entry 0 in the lowest
   * bits: packing four shades into a byte and decoding it gives them back.
   */
  lemma {:induction false} PaletteDecodesShades(s0: nat, s1: nat, s2: nat, s3: nat)
    requires s0 < 4 && s1 < 4 && s2 < 4 && s3 < 4
    ensures PaletteColors(64 * s3 + 16 * s2 + 4 * s1 + s0)
      == [ColorsDefault[s0], ColorsDefault[s1], ColorsDefault[s2], ColorsDefault[s3]]
  {
    var d := 64 * s3 + 16 * s2 + 4 * s1 + s0;
    assert Pow2(0) == 1 && Pow2(2) == 4 && Pow2(4) == 16 && Pow2(6) == 64;
    ShadeIsDigit(d, 0, 16 * s3 + 4 * s2 + s1, s0, 0);
    ShadeIsDigit(d, 1, 4 * s3 + s2, s1, s0);
    ShadeIsDigit(d, 2, s3, s2, 4 * s1 + s0);
    ShadeIsDigit(d, 3, 0, s3, 16 * s2 + 4 * s1 + s0);
  }

  /**
   * The sprite palettes are decoded from `value & 0b11111100`, so their
   * entry 0 (the transparent colour) is always the lightest shade.
   */
  lemma SpritePaletteEntryZero(value: u8)
    ensures PaletteColors(And8(value, 0xFC))[0] == ColorsDefault[0]
  {
    var x := ToBv(value) & 0xFC;
    assert And8(value, 0xFC) == FromBv(x);
    LowBits(FromBv(x));
    assert x & 0x03 == 0;
  }

  /** The addresses `lcd_read` and `lcd_write` have an arm for; any other is `unreachable!`. */
  predicate IsRegister(address: u16)
  {
    (0xFF40 <= address <= 0xFF45) || (0xFF47 <= address <= 0xFF4B)
  }

  /** What a register reads after `lcd_write(address, v)`: STAT drops bit 7, the rest keep `v`. */
  function Stored(address: u16, v: u8): u8
  {
    if address == 0xFF41 then FromBv(StatusOf(v)) else v
  }

  /** The eleven register bytes; `obp0` and `obp1` are `dmg_sprite_palette[0]` and `[1]`. */
  datatype Registers = Registers(
    control: bv8, status: bv8, scrollY: u8, scrollX: u8, ly: u8, lyCompare: u8,
    bgPalette: u8, obp0: u8, obp1: u8, windowY: u8, windowX: u8)

  /** The byte `lcd_read(address)` returns: LCDC and STAT as their bits. */
  function Read(r: Registers, address: u16): u8
    requires IsRegister(address)
  {
    if address == 0xFF40 then FromBv(r.control)
    else if address == 0xFF41 then FromBv(r.status)
    else if address == 0xFF42 then r.scrollY
    else if address == 0xFF43 then r.scrollX
    else if address == 0xFF44 then r.ly
    else if address == 0xFF45 then r.lyCompare
    else if address == 0xFF47 then r.bgPalette
    else if address == 0xFF48 then r.obp0
    else if address == 0xFF49 then r.obp1
    else if address == 0xFF4A then r.windowY
    else r.windowX
  }

  /** The registers after `lcd_write(address, v)`, colour tables aside. */
  function Write(r: Registers, address: u16, v: u8): Registers
    requires IsRegister(address)
  {
    if address == 0xFF40 then r.(control := ToBv(v))
    else if address == 0xFF41 then r.(status := StatusOf(v))
    else if address == 0xFF42 then r.(scrollY := v)
    else if address == 0xFF43 then r.(scrollX := v)
    else if address == 0xFF44 then r.(ly := v)
    else if address == 0xFF45 then r.(lyCompare := v)
    else if address == 0xFF47 then r.(bgPalette := v)
    else if address == 0xFF48 then r.(obp0 := v)
    else if address == 0xFF49 then r.(obp1 := v)
    else if address == 0xFF4A then r.(windowY := v)
    else r.(windowX := v)
  }

  /**
   * Every register reads back what was written, LCDC included since all
   * its bits are declared, except STAT, which reads back without bit 7.
   */
  lemma WriteReadsBack(r: Registers, address: u16, v: u8)
    requires IsRegister(address)
    ensures Read(Write(r, address, v), address) == Stored(address, v)
    ensures address != 0xFF41 ==> Read(Write(r, address, v), address) == v
  {
    if address == 0xFF40 {
      ByteRoundTrip(v);
    }
  }

  /** A write changes no other register. */
  lemma WriteKeepsOthers(r: Registers, address: u16, v: u8, other: u16)
    requires IsRegister(address) && IsRegister(other) && other != address
    ensures Read(Write(r, address, v), other) == Read(r, other)
  {
  }

  class Lcd {
    var control: bv8
    var status: bv8
    var scrollY: u8
    var scrollX: u8
    /** The current scanline. */
    var ly: u8
    var lyCompare: u8
    var bgPalette: u8
    const spritePalette: array<u8>
    var windowY: u8
    var windowX: u8
    const bgColors: array<int>
    const sp1Colors: array<int>
    const sp2Colors: array<int>

    /** The array sizes of the Rust struct, and STAT's undeclared bit clear. */
    ghost predicate Valid()
      reads this
    {
      spritePalette.Length == 2 && bgColors.Length == 4 && sp1Colors.Length == 4
      && sp2Colors.Length == 4 && bgColors != sp1Colors && bgColors != sp2Colors
      && sp1Colors != sp2Colors && status & 0x80 == 0
    }

    /**
     * `Lcd::default`: LCDC 0x91, STAT 4, BGP 0xFC, both sprite palettes 0xFF,
     * every other register 0, and all three colour tables set to
     * [0xFFFFFF, 0x555555, 0xAAAAAA, 0].
     */
    constructor ()
      ensures Valid()
      ensures control == 0x91 && status == 0x04 && scrollY == 0 && scrollX == 0
      ensures ly == 0 && lyCompare == 0 && bgPalette == 0xFC && windowY == 0 && windowX == 0
      ensures spritePalette[..] == [0xFF, 0xFF]
      ensures bgColors[..] == sp1Colors[..] == sp2Colors[..] == [0xFFFFFF, 0x555555, 0xAAAAAA, 0]
      ensures fresh(spritePalette) && fresh(bgColors) && fresh(sp1Colors) && fresh(sp2Colors)
    {
      control, status := 0x91, 0x04;
      scrollY, scrollX, ly, lyCompare := 0, 0, 0, 0;
      bgPalette, windowY, windowX := 0xFC, 0, 0;
      spritePalette := new u8[2](_ => 0xFF);
      bgColors := new int[4] [0xFFFFFF, 0x555555, 0xAAAAAA, 0];
      sp1Colors := new int[4] [0xFFFFFF, 0x555555, 0xAAAAAA, 0];
      sp2Colors := new int[4] [0xFFFFFF, 0x555555, 0xAAAAAA, 0];
    }

    /** The register bytes as a value. */
    function Regs(): Registers
      requires Valid()
      reads this, spritePalette
    {
      Registers(control, status, scrollY, scrollX, ly, lyCompare, bgPalette,
                spritePalette[0], spritePalette[1], windowY, windowX)
    }

    /** `lcd_read(address)`. */
    function LcdRead(address: u16): u8
      requires Valid() && IsRegister(address)
      reads this, spritePalette
    {
      Read(Regs(), address)
    }

    /**
     * `lcd_status.equals_flag_set(b)`: the coincidence flag becomes `b`; the
     * mode and the interrupt-select bits are kept.
     */
    method SetCoincidence(b: bool)
      requires Valid()
      modifies this`status
      ensures Valid()
      ensures status == EqualsFlagSet(old(status), b)
      ensures ModeOf(status) == ModeOf(old(status))
      ensures status & 0x78 == old(status) & 0x78
    {
      EqualsFlagKeepsMode(status, b);
      status := EqualsFlagSet(status, b);
    }

    /**
     * `lcd_status.current_mode_set(mode_value(m))`: STAT names mode `m`;
     * the coincidence flag and the interrupt-select bits are kept.
     */
    method SetMode(m: Mode)
      requires Valid()
      modifies this`status
      ensures Valid()
      ensures status == CurrentModeSet(old(status), ModeValue(m))
      ensures ModeOf(status) == m
      ensures status & 0x7C == old(status) & 0x7C
    {
      ModeSetNamesMode(status, m);
      status := CurrentModeSet(status, ModeValue(m));
    }

    /**
     * `update_palette(d, pal_1)`: colour table `sp1_colors` when `pal_1`,
     * otherwise `sp2_colors`, receives the four colours `d` encodes.
     */
    method UpdatePalette(d: u8, pal1: bool)
      requires Valid()
      modifies if pal1 then sp1Colors else sp2Colors
      ensures pal1 ==> sp1Colors[..] == PaletteColors(d)
      ensures !pal1 ==> sp2Colors[..] == PaletteColors(d)
    {
      var colors := if pal1 then sp1Colors else sp2Colors;
      for i := 0 to 4
        invariant colors[..i] == PaletteColors(d)[..i]
      {
        colors[i] := ColorsDefault[ShadeOf(d, i)];
      }
      assert colors[..] == colors[..4];
    }

    /**
     * `lcd_write(address, v)`: the registers become `Write(old, address, v)`
     * (see `WriteReadsBack`, `WriteKeepsOthers`).  BGP (0xFF47) redecodes
     * `sp2_colors` from `v`; OBP0 and OBP1 (0xFF48, 0xFF49) both redecode
     * `sp1_colors` from `v & 0xFC`; `bg_colors` never changes.
     */
    method LcdWrite(address: u16, v: u8)
      requires Valid() && IsRegister(address)
      modifies this, spritePalette, sp1Colors, sp2Colors
      ensures Valid()
      ensures Regs() == Write(old(Regs()), address, v)
      ensures address == 0xFF47 ==> sp2Colors[..] == PaletteColors(v) && sp1Colors[..] == old(sp1Colors[..])
      ensures (address == 0xFF48 || address == 0xFF49)
              ==> sp1Colors[..] == PaletteColors(And8(v, 0xFC)) && sp2Colors[..] == old(sp2Colors[..])
      ensures address != 0xFF47 && address != 0xFF48 && address != 0xFF49
              ==> sp1Colors[..] == old(sp1Colors[..]) && sp2Colors[..] == old(sp2Colors[..])
      ensures bgColors[..] == old(bgColors[..])
    {
      if address == 0xFF40 {
        control := ToBv(v);
      } else if address == 0xFF41 {
        status := StatusOf(v);
      } else if address == 0xFF42 {
        scrollY := v;
      } else if address == 0xFF43 {
        scrollX := v;
      } else if address == 0xFF44 {
        ly := v;
      } else if address == 0xFF45 {
        lyCompare := v;
      } else if address == 0xFF47 {
        bgPalette := v;
        UpdatePalette(v, false);
      } else if address == 0xFF48 {
        spritePalette[0] := v;
        UpdatePalette(And8(v, 0xFC), true);
      } else if address == 0xFF49 {
        spritePalette[1] := v;
        UpdatePalette(And8(v, 0xFC), true);
      } else if address == 0xFF4A {
        windowY := v;
      } else {
        windowX := v;
      }
    }
  }
}
