// The cartridge image: the ROM bytes, the header fields copied out of them,
// and the old licensee-code table.
module Cartridge {
  import opened Bits

  /** The licensee name for an old licensee code, "UNKNOWN" for codes the table does not list. */
  function GetLic(code: u8): (name: string)
    ensures code > 0xA4 ==> name == "UNKNOWN"
    ensures name != ""
  {
    match code
    case 0x00 => "None"
    case 0x01 => "Nintendo R&D1"
    case 0x08 => "Capcom"
    case 0x13 => "Electronic Arts"
    case 0x18 => "Hudson Soft"
    case 0x19 => "b-ai"
    case 0x20 => "kss"
    case 0x22 => "pow"
    case 0x24 => "PCM Complete"
    case 0x25 => "san-x"
    case 0x28 => "Kemco Japan"
    case 0x29 => "seta"
    case 0x30 => "Viacom"
    case 0x31 => "Nintendo"
    case 0x32 => "Bandai"
    case 0x33 => "Ocean/Acclaim"
    case 0x34 => "Konami"
    case 0x35 => "Hector"
    case 0x37 => "Taito"
    case 0x38 => "Hudson"
    case 0x39 => "Banpresto"
    case 0x41 => "Ubi Soft"
    case 0x42 => "Atlus"
    case 0x44 => "Malibu"
    case 0x46 => "angel"
    case 0x47 => "Bullet-Proof"
    case 0x49 => "irem"
    case 0x50 => "Absolute"
    case 0x51 => "Acclaim"
    case 0x52 => "Activision"
    case 0x53 => "American sammy"
    case 0x54 => "Konami"
    case 0x55 => "Hi tech entertainment"
    case 0x56 => "LJN"
    case 0x57 => "Matchbox"
    case 0x58 => "Mattel"
    case 0x59 => "Milton Bradley"
    case 0x60 => "Titus"
    case 0x61 => "Virgin"
    case 0x64 => "LucasArts"
    case 0x67 => "Ocean"
    case 0x69 => "Electronic Arts"
    case 0x70 => "Infogrames"
    case 0x71 => "Interplay"
    case 0x72 => "Broderbund"
    case 0x73 => "sculptured"
    case 0x75 => "sci"
    case 0x78 => "THQ"
    case 0x79 => "Accolade"
    case 0x80 => "misawa"
    case 0x83 => "lozc"
    case 0x86 => "Tokuma Shoten Intermedia"
    case 0x87 => "Tsukuda Original"
    case 0x91 => "Chunsoft"
    case 0x92 => "Video system"
    case 0x93 => "Ocean/Acclaim"
    case 0x95 => "Varie"
    case 0x96 => "Yonezawa/s’pal"
    case 0x97 => "Kaneko"
    case 0x99 => "Pack in soft"
    case 0xA4 => "Konami (Yu-Gi-Oh!)"
    case _ => "UNKNOWN"
  }

  /** `lic_name(code)`: the table's name up to 0xA4, "UNKNOWN" above. */
  function LicName(code: u8): (name: string)
    ensures code > 0xA4 ==> name == "UNKNOWN"
    ensures code <= 0xA4 ==> name == GetLic(code)
  {
    if code <= 0xA4 then GetLic(code) else "UNKNOWN"
  }

  /**
   * The guard in `lic_name` changes no answer: the table itself names no
   * code above 0xA4, so both lookups agree on every byte.
   */
  lemma LicNameAgrees(code: u8)
    ensures LicName(code) == GetLic(code)
  {
  }

  /** The table's two ends. */
  lemma TableEnds()
    ensures GetLic(0x01) == "Nintendo R&D1" && GetLic(0xA4) == "Konami (Yu-Gi-Oh!)"
  {
  }

  /** Konami is listed under two codes. */
  lemma KonamiTwice()
    ensures GetLic(0x34) == GetLic(0x54) == "Konami"
  {
  }

  /** Codes inside the table's range that it does not list are unknown. */
  lemma GapsUnknown()
    ensures GetLic(0x02) == "UNKNOWN" && GetLic(0xA3) == "UNKNOWN"
  {
  }

  /** `Cartridge`: the ROM, a RAM vector never written here, and the header. */
  class Cartridge {
    var rom: seq<u8>
    var ram: seq<u8>
    const entry: array<u8>
    const logo: array<u8>
    const tile: array<u8>
    var newLicCode: u16
    var sgbFlag: u8
    var cartridgeType: u8
    var romSize: u8
    var ramSize: u8
    var destCode: u8
    var oldLicCode: u8
    var romVersion: u8
    var checksum: u8
    var globalChecksum: u16

    /** The header's array sizes: a 4-byte entry point, a 0x30-byte logo, a 16-byte title. */
    ghost predicate Valid()
      reads this
    {
      entry.Length == 4 && logo.Length == 0x30 && tile.Length == 16
      && entry != logo && logo != tile && entry != tile
    }

    /** `Cartridge::default()`: no ROM or RAM, every header byte 0. */
    constructor ()
      ensures Valid()
      ensures rom == [] && ram == []
      ensures entry[..] == seq(4, _ => 0) && logo[..] == seq(0x30, _ => 0) && tile[..] == seq(16, _ => 0)
      ensures newLicCode == 0 && sgbFlag == 0 && cartridgeType == 0 && romSize == 0 && ramSize == 0
      ensures destCode == 0 && oldLicCode == 0 && romVersion == 0 && checksum == 0 && globalChecksum == 0
      ensures fresh(entry) && fresh(logo) && fresh(tile)
    {
      rom, ram := [], [];
      entry := new u8[4](_ => 0);
      logo := new u8[0x30](_ => 0);
      tile := new u8[16](_ => 0);
      newLicCode, sgbFlag, cartridgeType, romSize, ramSize := 0, 0, 0, 0, 0;
      destCode, oldLicCode, romVersion, checksum, globalChecksum := 0, 0, 0, 0, 0;
    }

    /** `read_cart(address)`: the ROM byte at `address`; past the end the index panics. */
    function ReadCart(address: u16): u8
      requires address < |rom|
      reads this
    {
      rom[address]
    }

    /**
     * `from_rom_file(f)`: every byte of `f` is pushed in order, so the ROM
     * becomes the old ROM followed by `f`, and each new byte reads back
     * from its position.
     */
    method FromRomFile(f: seq<u8>)
      modifies this`rom
      ensures rom == old(rom) + f
      ensures forall a: u16 :: |old(rom)| <= a < |rom| ==> ReadCart(a) == f[a - |old(rom)|]
    {
      for k := 0 to |f|
        invariant rom == old(rom) + f[..k]
      {
        rom := rom + [f[k]];
      }
      assert f[..|f|] == f;
    }

    /**
     * `load_header(data)`: byte `i` of `data` goes to `entry[i]` for `i < 4`
     * and to `logo[i]` (the absolute position, not `i - 4`) after that.  The
     * logo has 0x30 cells, so the loop panics unless `data` has at most 0x30
     * bytes; within that bound no later header field is reached.
     */
    method LoadHeader(data: seq<u8>)
      requires Valid() && |data| <= 0x30
      modifies entry, logo
      ensures forall i :: 0 <= i < 4 ==> entry[i] == (if i < |data| then data[i] else old(entry[i]))
      ensures forall i :: 0 <= i < 4 ==> logo[i] == old(logo[i])
      ensures forall i :: 4 <= i < 0x30 ==> logo[i] == (if i < |data| then data[i] else old(logo[i]))
    {
      for i := 0 to |data|
        invariant forall j :: 0 <= j < 4 ==> entry[j] == (if j < i then data[j] else old(entry[j]))
        invariant forall j :: 0 <= j < 4 ==> logo[j] == old(logo[j])
        invariant forall j :: 4 <= j < 0x30 ==> logo[j] == (if j < i then data[j] else old(logo[j]))
      {
        if i < 4 {
          entry[i] := data[i];
        } else {
          logo[i] := data[i];
        }
      }
    }
  }
}
