// The memory bus: a flat 64 KiB array, with the I/O window 0xFF00-0xFF7F
// dispatched to the serial port, the timer and the interrupt request
// register; every other address, and every I/O address without a device,
// is a plain array cell.
module Mmu {
  import opened Bits
  import Serial
  import Timer
  import Interrupts

  // ----- The bus as a value -----------------------------------------------

  /** The memory array and the registers of the devices behind the I/O window. */
  datatype Bus = Bus(ram: seq<u8>, serial: Serial.SerialState, timer: Timer.TimerState,
                     enabled: u8, requested: u8)

  /** The array has one cell per 16-bit address. */
  predicate WellFormed(b: Bus)
  {
    |b.ram| == 0x10000
  }

  /** `MMU::new`: zeroed memory and every device in its default state. */
  const Initial := Bus(seq(0x10000, _ => 0), Serial.SerialState(0, 0), Timer.Default, 0, 0)

  /** The I/O window that `read_byte`/`write_byte` hand to `read_io`/`write_io`. */
  predicate IsIo(address: u16)
  {
    0xFF00 <= address < 0xFF80
  }

  /** The I/O addresses that have a device arm in `read_io`. */
  predicate IsDevice(address: u16)
  {
    address == 0xFF01 || address == 0xFF02 || 0xFF04 <= address <= 0xFF07 || address == 0xFF0F
  }

  /** `read_io(address)`. */
  function LoadIo(b: Bus, address: u16): u8
    requires WellFormed(b)
  {
    if address == 0xFF01 then b.serial.data
    else if address == 0xFF02 then FromBv(b.serial.control)
    else if 0xFF04 <= address <= 0xFF07 then Timer.Read(b.timer, address)
    else if address == 0xFF0F then b.requested
    else b.ram[address]
  }

  /** `read_byte(address)`. */
  function Load(b: Bus, address: u16): u8
    requires WellFormed(b)
  {
    if IsIo(address) then LoadIo(b, address) else b.ram[address]
  }

  /** `write_io(address, value)`. */
  function StoreIo(b: Bus, address: u16, value: u8): (r: Bus)
    requires WellFormed(b)
    ensures WellFormed(r)
  {
    if address == 0xFF01 then b.(serial := b.serial.(data := value))
    else if address == 0xFF02 then b.(serial := b.serial.(control := Serial.TruncateControl(value)))
    else if address == 0xFF04 then b.(timer := Timer.AfterWriteDiv(b.timer))
    else if address == 0xFF05 then b.(timer := Timer.AfterWriteCounter(b.timer, value))
    else if address == 0xFF06 then b.(timer := Timer.AfterWriteModulo(b.timer, value))
    else if address == 0xFF07 then b.(timer := Timer.AfterWriteControl(b.timer, value))
    else if address == 0xFF0F then b.(requested := value)
    else b.(ram := b.ram[address := value])
  }

  /** `write_byte(address, value)`. */
  function Store(b: Bus, address: u16, value: u8): (r: Bus)
    requires WellFormed(b)
    ensures WellFormed(r)
  {
    if IsIo(address) then StoreIo(b, address, value) else b.(ram := b.ram[address := value])
  }

  // ----- Properties of the bus --------------------------------------------

  /**
   * Outside the device registers a write touches exactly one array cell,
   * and reading that address gives the byte back.
   */
  lemma PlainCellRoundTrip(b: Bus, address: u16, value: u8)
    requires WellFormed(b) && !IsDevice(address)
    ensures Store(b, address, value) == b.(ram := b.ram[address := value])
    ensures Load(Store(b, address, value), address) == value
    ensures forall a: u16 :: a != address ==> Load(Store(b, address, value), a) == Load(b, a)
  {
  }

  /** A write outside the I/O window never disturbs another address. */
  lemma WriteOutsideIoIsLocal(b: Bus, address: u16, value: u8, other: u16)
    requires WellFormed(b) && !IsIo(address) && other != address
    ensures Load(Store(b, address, value), address) == value
    ensures Load(Store(b, address, value), other) == Load(b, other)
  {
  }

  /** Writing any value to DIV resets it, so it then reads 0. */
  lemma DivWriteReadsZero(b: Bus, value: u8)
    requires WellFormed(b)
    ensures Load(Store(b, 0xFF04, value), 0xFF04) == 0
  {
    Timer.WriteDivReadsZero(b.timer);
  }

  /** IF round-trips through the interrupt controller: all eight bits are kept. */
  lemma RequestedRoundTrip(b: Bus, value: u8)
    requires WellFormed(b)
    ensures Load(Store(b, 0xFF0F, value), 0xFF0F) == value
    ensures Store(b, 0xFF0F, value).ram == b.ram
  {
  }

  /** SB round-trips; SC reads back with its undeclared bits cleared. */
  lemma SerialRoundTrip(b: Bus, value: u8)
    requires WellFormed(b)
    ensures Load(Store(b, 0xFF01, value), 0xFF01) == value
    ensures Load(Store(b, 0xFF02, value), 0xFF02) == And8(value, 0x83)
  {
  }

  /** The interrupt-enable register at 0xFFFF is a plain array cell on this bus. */
  lemma EnableRegisterIsPlainCell(b: Bus, value: u8)
    requires WellFormed(b)
    ensures Store(b, 0xFFFF, value) == b.(ram := b.ram[0xFFFF := value])
    ensures Load(b, 0xFFFF) == b.ram[0xFFFF]
  {
  }

  // ----- Loading a ROM image ----------------------------------------------

  /** `from_rom_file(rom)`: byte `i` of the file written to address `i`, in order. */
  function LoadRom(b: Bus, rom: seq<u8>): (r: Bus)
    requires WellFormed(b) && |rom| <= 0x10000
    ensures WellFormed(r)
  {
    if rom == [] then b
    else Store(LoadRom(b, rom[..|rom| - 1]), |rom| - 1, rom[|rom| - 1])
  }

  /**
   * A file that ends below the I/O window lands verbatim at the start of
   * memory; the rest of memory and every device are untouched.
   */
  lemma {:induction false} LoadRomCopies(b: Bus, rom: seq<u8>)
    requires WellFormed(b) && |rom| <= 0xFF00
    ensures LoadRom(b, rom).ram == rom + b.ram[|rom|..]
    ensures LoadRom(b, rom).serial == b.serial && LoadRom(b, rom).timer == b.timer
    ensures LoadRom(b, rom).requested == b.requested && LoadRom(b, rom).enabled == b.enabled
  {
    if rom != [] {
      var n := |rom| - 1;
      LoadRomCopies(b, rom[..n]);
      var prev := LoadRom(b, rom[..n]);
      assert prev.ram == rom[..n] + b.ram[n..];
      assert LoadRom(b, rom).ram == prev.ram[n := rom[n]];
      assert prev.ram[n := rom[n]] == rom + b.ram[|rom|..];
    }
  }

  // ----- Memory map -------------------------------------------------------

  /** `mmu_section(address)`: the name of the region that holds `address`. */
  function MmuSection(address: u16): (name: string)
    ensures name == "I/O Registers | IO Registers" <==> IsIo(address)
    ensures name == "IE Register" <==> address == 0xFFFF
    ensures name == "Zero Page | HRAM" <==> 0xFF80 <= address < 0xFFFF
    ensures name == "ROM Bank 0 | ROM0" <==> address < 0x4000
    ensures name == "Object Attribute Memory | OAM" <==> 0xFE00 <= address < 0xFEA0
  {
    if address < 0x4000 then "ROM Bank 0 | ROM0"
    else if address < 0x8000 then "ROM Bank 1 - Switchable | ROMX"
    else if address < 0x9800 then "CHR RAM | VRAM"
    else if address < 0x9C00 then "BG Map 1 | VRAM"
    else if address < 0xA000 then "BG Map 2 | VRAM"
    else if address < 0xC000 then "Cartridge RAM | SRAM"
    else if address < 0xD000 then "RAM Bank 0 | WRAM0"
    else if address < 0xE000 then "RAM Bank 1-7 - switchable - Color only | WRAMX"
    else if address < 0xFE00 then "Reserved - Echo RAM | ECHO"
    else if address < 0xFEA0 then "Object Attribute Memory | OAM"
    else if address < 0xFF00 then "Reserved - Unusable | USED"
    else if address < 0xFF80 then "I/O Registers | IO Registers"
    else if address < 0xFFFF then "Zero Page | HRAM"
    else "IE Register"
  }

  // ----- The MMU object ---------------------------------------------------

  class MMU {
    const ram: array<u8>
    const serial: Serial.Serial
    const timer: Timer.Timer
    const interrupts: Interrupts.Interrupts

    /** The objects the bus is made of. */
    function Repr(): set<object>
    {
      {ram, serial, timer, interrupts}
    }

    predicate Valid()
    {
      ram.Length == 0x10000
    }

    /** The whole bus as a value. */
    function State(): (b: Bus)
      reads ram, serial, timer, interrupts
      requires Valid()
      ensures WellFormed(b)
    {
      Bus(ram[..], serial.State(), timer.State(), interrupts.enabled, interrupts.requested)
    }

    /** `MMU::new`. */
    constructor ()
      ensures Valid() && State() == Initial
      ensures fresh(ram) && fresh(serial) && fresh(timer) && fresh(interrupts)
    {
      ram := new u8[0x10000](_ => 0);
      serial := new Serial.Serial();
      timer := new Timer.Timer();
      interrupts := new Interrupts.Interrupts();
      new;
      assert ram[..] == seq(0x10000, _ => 0);
    }

    /** `read_io(address)`. */
    method ReadIo(address: u16) returns (v: u8)
      requires Valid()
      ensures v == LoadIo(State(), address)
    {
      if address == 0xFF01 {
        v := serial.GetData();
      } else if address == 0xFF02 {
        v := serial.GetControl();
      } else if 0xFF04 <= address <= 0xFF07 {
        v := Timer.Read(timer.State(), address);
      } else if address == 0xFF0F {
        v := interrupts.ReadRequested();
      } else {
        v := ram[address];
      }
    }

    /** `read_byte(address)`. */
    method ReadByte(address: u16) returns (v: u8)
      requires Valid()
      ensures v == Load(State(), address)
    {
      if 0xFF00 <= address && address < 0xFF80 {
        v := ReadIo(address);
      } else {
        v := ram[address];
      }
    }

    /** `write_io(address, value)`. */
    method WriteIo(address: u16, value: u8)
      requires Valid()
      modifies Repr()
      ensures State() == StoreIo(old(State()), address, value)
    {
      if address == 0xFF01 {
        serial.WriteData(value);
      } else if address == 0xFF02 {
        serial.WriteControl(value);
      } else if address == 0xFF04 {
        timer.WriteDiv();
      } else if address == 0xFF05 {
        timer.WriteCounter(value);
      } else if address == 0xFF06 {
        timer.WriteModulo(value);
      } else if address == 0xFF07 {
        timer.WriteControl(value);
      } else if address == 0xFF0F {
        interrupts.WriteRequested(value);
      } else {
        ram[address] := value;
      }
    }

    /** `write_byte(address, value)`. */
    method WriteByte(address: u16, value: u8)
      requires Valid()
      modifies Repr()
      ensures State() == Store(old(State()), address, value)
    {
      if 0xFF00 <= address && address < 0xFF80 {
        WriteIo(address, value);
      } else {
        ram[address] := value;
      }
    }

    /**
     * `from_rom_file(rom)`: the `u16` index overflows after the byte at
     * 0xFFFF, so the file must be shorter than 64 KiB.
     */
    method FromRomFile(rom: seq<u8>)
      requires Valid() && |rom| < 0x10000
      modifies Repr()
      ensures State() == LoadRom(old(State()), rom)
    {
      var i: u16 := 0;
      while i < |rom|
        invariant 0 <= i <= |rom|
        invariant State() == LoadRom(old(State()), rom[..i])
      {
        WriteByte(i, rom[i]);
        assert rom[..i + 1][..i] == rom[..i];
        i := i + 1;
      }
      assert rom[..i] == rom;
    }
  }
}
