// The PPU's memories: 8 KiB of VRAM at 0x8000-0x9FFF and the 40 sprites of
// OAM at 0xFE00-0xFE9F, plus the LCD registers and the raster state the
// scanline state machine advances.
module Ppu {
  import opened Bits
  import opened Sprites
  import Lcd

  /** `FetchState`: the pixel fetcher's step; the state machine resets it to the first one. */
  datatype FetchState = Tile | DataLow | DataHigh | Sleep | Push

  /** `address & 0xFF`: the OAM byte index of an address. */
  function OamIndex(address: u16): (i: nat)
    ensures i < 0x100
  {
    address % 0x100
  }

  /** The addresses whose OAM byte index falls inside the 40 sprites (`index / 4 < 40`). */
  predicate InOam(address: u16)
  {
    OamIndex(address) < 0xA0
  }

  /** `read_oam(address)`: field `index % 4` of sprite `index / 4`. */
  function OamRead(oam: seq<Sprite>, address: u16): u8
    requires |oam| == 40 && InOam(address)
  {
    var i := OamIndex(address);
    GetAtOffset(oam[i / 4], (i % 4) as u8)
  }

  /** `write_oam(address, d)`: field `index % 4` of sprite `index / 4` receives `d`. */
  function OamWrite(oam: seq<Sprite>, address: u16, d: u8): (r: seq<Sprite>)
    requires |oam| == 40 && InOam(address)
    ensures |r| == 40
  {
    var i := OamIndex(address);
    oam[i / 4 := SetAtOffset(oam[i / 4], (i % 4) as u8, d)]
  }

  /** A byte written to OAM reads back from the same address. */
  lemma OamRoundTrip(oam: seq<Sprite>, address: u16, d: u8)
    requires |oam| == 40 && InOam(address)
    ensures OamRead(OamWrite(oam, address, d), address) == d
  {
    var i := OamIndex(address);
    SetThenGet(oam[i / 4], (i % 4) as u8, d);
  }

  /**
   * An OAM write changes no byte with a different index: neither the other
   * fields of the same sprite nor any other sprite.
   */
  lemma OamWriteKeepsOthers(oam: seq<Sprite>, address: u16, d: u8, other: u16)
    requires |oam| == 40 && InOam(address) && InOam(other)
    requires OamIndex(other) != OamIndex(address)
    ensures OamRead(OamWrite(oam, address, d), other) == OamRead(oam, other)
  {
    var i, j := OamIndex(address), OamIndex(other);
    if j / 4 == i / 4 {
      assert j % 4 != i % 4;
      SetKeepsOthers(oam[i / 4], (i % 4) as u8, d, (j % 4) as u8);
    }
  }

  /**
   * Addresses that differ only above their low byte reach the same OAM
   * byte: 0xFE00 + k and any other address ending in k are one cell.
   */
  lemma OamIgnoresHighByte(oam: seq<Sprite>, address: u16, other: u16)
    requires |oam| == 40 && InOam(address) && other % 0x100 == address % 0x100
    ensures InOam(other) && OamRead(oam, other) == OamRead(oam, address)
  {
  }

  class Ppu {
    const vram: array<u8>
    const oam: array<Sprite>
    const lcd: Lcd.Lcd
    /** The window's own line counter. */
    var windowLine: int
    /** Dots since the current line began (`line_ticks`). */
    var lineTicks: nat
    var currentFrame: nat
    /** The pixel fetcher's state and positions on the line (`pixel_fifo`). */
    var fetchState: FetchState
    var lineX: u8
    var fetchX: u8
    var pushX: u8
    var fifoX: u8

    /** The array sizes of the Rust struct, and a well-formed LCD. */
    ghost predicate Valid()
      reads this, lcd
    {
      vram.Length == 0x2000 && oam.Length == 40 && lcd.Valid()
    }

    /** `PPU::default`: VRAM zeroed, every sprite the default one, the LCD at its defaults. */
    constructor ()
      ensures Valid()
      ensures vram[..] == seq(0x2000, _ => 0)
      ensures oam[..] == seq(40, _ => Default)
      ensures lcd.control == 0x91 && lcd.status == 0x04 && lcd.scrollY == 0 && lcd.scrollX == 0
      ensures lcd.ly == 0 && lcd.lyCompare == 0 && lcd.bgPalette == 0xFC && lcd.windowY == 0 && lcd.windowX == 0
      ensures lcd.spritePalette[..] == [0xFF, 0xFF]
      ensures lcd.bgColors[..] == lcd.sp1Colors[..] == lcd.sp2Colors[..] == [0xFFFFFF, 0x555555, 0xAAAAAA, 0]
      ensures fresh(vram) && fresh(oam) && fresh(lcd)
    {
      vram := new u8[0x2000](_ => 0);
      oam := new Sprite[40](_ => Default);
      lcd := new Lcd.Lcd();
    }

    /** `read_vram(address)`: byte `address - 0x8000`; below 0x8000 the subtraction underflows. */
    function ReadVram(address: u16): u8
      requires Valid() && 0x8000 <= address < 0xA000
      reads this, lcd, vram
    {
      vram[address - 0x8000]
    }

    /** `write_vram(address, v)`: only byte `address - 0x8000` changes, and it reads back `v`. */
    method WriteVram(address: u16, v: u8)
      requires Valid() && 0x8000 <= address < 0xA000
      modifies vram
      ensures vram[..] == old(vram[..])[address - 0x8000 := v]
      ensures ReadVram(address) == v
      ensures forall a: u16 :: 0x8000 <= a < 0xA000 && a != address ==> ReadVram(a) == old(ReadVram(a))
    {
      vram[address - 0x8000] := v;
    }

    /** `read_oam(address)`. */
    function ReadOam(address: u16): u8
      requires Valid() && InOam(address)
      reads this, lcd, oam
    {
      OamRead(oam[..], address)
    }

    /** `write_oam(address, d)`: OAM becomes `OamWrite(old, address, d)`. */
    method WriteOam(address: u16, d: u8)
      requires Valid() && InOam(address)
      modifies oam
      ensures oam[..] == OamWrite(old(oam[..]), address, d)
      ensures ReadOam(address) == d
    {
      var i := OamIndex(address);
      oam[i / 4] := SetAtOffset(oam[i / 4], (i % 4) as u8, d);
      OamRoundTrip(old(oam[..]), address, d);
    }
  }
}
