// The opcode decoder: the base table that maps an opcode byte, together with
// the register file and memory it reads operands from, to an instruction;
// the 0xCB extended table; and the operand fetch that feeds both.
//
// Each table is one `match` in the emulator; here each is split by the top
// two bits of the byte into four sub-tables, whose arms are the emulator's
// arms for those bytes, in the emulator's order.
module Opcodes {
  import opened Bits
  import opened Instructions
  import Cpu
  import Mmu

  /**
   * What decoding produces: an instruction, the panic on a byte with no
   * arm, or the panic of the non-wrapping `pc + k` operand addresses.
   */
  datatype Decoded = Ok(ins: Instruction) | Unmapped(byte: u8) | AddressOverflow

  /**
   * `decoder(cpu, mmu, byte, n1, d16)`: the base table.  `n1` is the byte
   * after the opcode and `d16` the little-endian word after it; operands
   * named by the table are read from `r` and, through the bus, from `b`.
   */
  function Decoder(r: Cpu.Registers, b: Mmu.Bus, byte: u8, n1: u8, d16: u16): Decoded
    requires Mmu.WellFormed(b)
  {
    if byte < 0x40 then Ok(Block0(r, b, byte, n1, d16))
    else if byte < 0x80 then Ok(Block1(r, Mmu.Load(b, r.HL()), byte))
    else if byte < 0xC0 then Ok(Block2(r, Mmu.Load(b, r.HL()), byte, n1))
    else Block3(r, b, byte, n1, d16)
  }

  /** Bytes 0x00-0x3F: immediate loads, 16-bit arithmetic, INC/DEC, rotates of A and relative jumps. */
  function Block0(r: Cpu.Registers, b: Mmu.Bus, byte: u8, n1: u8, d16: u16): Instruction
    requires Mmu.WellFormed(b) && 0x00 <= byte < 0x40
  {
    match byte
    case 0x06 => LdN(0, n1)
    case 0x0E => LdN(1, n1)
    case 0x16 => LdN(2, n1)
    case 0x1E => LdN(3, n1)
    case 0x26 => LdN(4, n1)
    case 0x2E => LdN(5, n1)
    case 0x0A => LdAR2(1, Mmu.Load(b, r.BC()))
    case 0x1A => LdAR2(1, Mmu.Load(b, r.DE()))
    case 0x3E => LdAd8(n1)
    case 0x36 => LdHlR2(n1, true)
    case 0x02 => Ldn16A(r.BC(), r.a)
    case 0x12 => Ldn16A(r.DE(), r.a)
    case 0x3A => LddAHl(r.HL())
    case 0x32 => LddHlA(r.HL())
    case 0x2A => LdIAHl(r.HL())
    case 0x22 => LdIHlA(r.HL())
    case 0x01 => LdBc(d16)
    case 0x11 => LdDe(d16)
    case 0x21 => LdHl(d16)
    case 0x31 => LdSp(d16)
    case 0x08 => LdnnSp(d16)
    case 0x3C => IncN(0, r.a)
    case 0x04 => IncN(1, r.b)
    case 0x0C => IncN(2, r.c)
    case 0x14 => IncN(3, r.d)
    case 0x1C => IncN(4, r.e)
    case 0x24 => IncN(5, r.h)
    case 0x2C => IncN(6, r.l)
    case 0x34 => IncHl(r.HL())
    case 0x3D => DecN(0, r.a)
    case 0x05 => DecN(1, r.b)
    case 0x0D => DecN(2, r.c)
    case 0x15 => DecN(3, r.d)
    case 0x1D => DecN(4, r.e)
    case 0x25 => DecN(5, r.h)
    case 0x2D => DecN(6, r.l)
    case 0x35 => DecHl(r.HL())
    case 0x09 => AddHlN(r.BC())
    case 0x19 => AddHlN(r.DE())
    case 0x29 => AddHlN(r.HL())
    case 0x39 => AddHlN(r.sp)
    case 0x03 => IncNN(0, r.BC())
    case 0x13 => IncNN(1, r.DE())
    case 0x23 => IncNN(2, r.HL())
    case 0x33 => IncNN(3, r.sp)
    case 0x0B => DecNN(0, r.BC())
    case 0x1B => DecNN(1, r.DE())
    case 0x2B => DecNN(2, r.HL())
    case 0x3B => DecNN(3, r.sp)
    case 0x27 => Daa
    case 0x2F => Cpl(r.a)
    case 0x3F => Ccf
    case 0x37 => Scf
    case 0x00 => Nop
    case 0x10 => Stop
    case 0x07 => Rlca(r.a)
    case 0x17 => Rla(r.a)
    case 0x0F => Rrca(r.a)
    case 0x1F => Rra(r.a)
    case 0x18 => JrN(AsI8(n1))
    case 0x20 => Jrcc(AsI8(n1), 0)
    case 0x28 => Jrcc(AsI8(n1), 1)
    case 0x30 => Jrcc(AsI8(n1), 2)
    case 0x38 => Jrcc(AsI8(n1), 3)
    case _ => assert false; Nop
  }

  /** Bytes 0x40-0x7F: the register-to-register loads and HALT. */
  function Block1(r: Cpu.Registers, hl: u8, byte: u8): Instruction
    requires 0x40 <= byte < 0x80
  {
    match byte
    case 0x7F => LdAR2(0, r.a)
    case 0x78 => LdAR2(0, r.b)
    case 0x79 => LdAR2(0, r.c)
    case 0x7A => LdAR2(0, r.d)
    case 0x7B => LdAR2(0, r.e)
    case 0x7C => LdAR2(0, r.h)
    case 0x7D => LdAR2(0, r.l)
    case 0x7E => LdAR2(1, hl)
    case 0x40 => LdBR2(r.b, false)
    case 0x41 => LdBR2(r.c, false)
    case 0x42 => LdBR2(r.d, false)
    case 0x43 => LdBR2(r.e, false)
    case 0x44 => LdBR2(r.h, false)
    case 0x45 => LdBR2(r.l, false)
    case 0x46 => LdBR2(hl, true)
    case 0x48 => LdCR2(r.b, false)
    case 0x49 => LdCR2(r.c, false)
    case 0x4A => LdCR2(r.d, false)
    case 0x4B => LdCR2(r.e, false)
    case 0x4C => LdCR2(r.h, false)
    case 0x4D => LdCR2(r.l, false)
    case 0x4E => LdCR2(hl, true)
    case 0x50 => LdDR2(r.b, false)
    case 0x51 => LdDR2(r.c, false)
    case 0x52 => LdDR2(r.d, false)
    case 0x53 => LdDR2(r.e, false)
    case 0x54 => LdDR2(r.h, false)
    case 0x55 => LdDR2(r.l, false)
    case 0x56 => LdDR2(hl, true)
    case 0x58 => LdER2(r.b, false)
    case 0x59 => LdER2(r.c, false)
    case 0x5A => LdER2(r.d, false)
    case 0x5B => LdER2(r.e, false)
    case 0x5C => LdER2(r.h, false)
    case 0x5D => LdER2(r.l, false)
    case 0x5E => LdER2(hl, true)
    case 0x60 => LdHR2(r.b, false)
    case 0x61 => LdHR2(r.c, false)
    case 0x62 => LdHR2(r.d, false)
    case 0x63 => LdHR2(r.e, false)
    case 0x64 => LdHR2(r.h, false)
    case 0x65 => LdHR2(r.l, false)
    case 0x66 => LdHR2(hl, true)
    case 0x68 => LdLR2(r.b, false)
    case 0x69 => LdLR2(r.c, false)
    case 0x6A => LdLR2(r.d, false)
    case 0x6B => LdLR2(r.e, false)
    case 0x6C => LdLR2(r.h, false)
    case 0x6D => LdLR2(r.l, false)
    case 0x6E => LdLR2(hl, true)
    case 0x77 => LdHlR2(r.a, false)
    case 0x70 => LdHlR2(r.b, false)
    case 0x71 => LdHlR2(r.c, false)
    case 0x72 => LdHlR2(r.d, false)
    case 0x73 => LdHlR2(r.e, false)
    case 0x74 => LdHlR2(r.h, false)
    case 0x75 => LdHlR2(r.l, false)
    case 0x47 => LdnA(0, r.a)
    case 0x4F => LdnA(1, r.a)
    case 0x57 => LdnA(2, r.a)
    case 0x5F => LdnA(3, r.a)
    case 0x67 => LdnA(4, r.a)
    case 0x6F => LdnA(5, r.a)
    case 0x76 => Halt
    case _ => assert false; Nop
  }

  /** Bytes 0x80-0xBF: the 8-bit ALU operations on a register or (HL). */
  function Block2(r: Cpu.Registers, hl: u8, byte: u8, n1: u8): Instruction
    requires 0x80 <= byte < 0xC0
  {
    match byte
    case 0x87 => AddN(r.a)
    case 0x80 => AddN(r.b)
    case 0x81 => AddN(r.c)
    case 0x82 => AddN(r.d)
    case 0x83 => AddN(r.e)
    case 0x84 => AddN(r.h)
    case 0x85 => AddN(r.l)
    case 0x86 => AddHl(hl)
    case 0x8F => AdcN(r.a)
    case 0x88 => AdcN(r.b)
    case 0x89 => AdcN(r.c)
    case 0x8A => AdcN(r.d)
    case 0x8B => AdcN(r.e)
    case 0x8C => AdcN(r.h)
    case 0x8D => AdcN(r.l)
    case 0x8E => AdcHl(hl)
    case 0x97 => SubN(r.a)
    case 0x90 => SubN(r.b)
    case 0x91 => SubN(r.c)
    case 0x92 => SubN(r.d)
    case 0x93 => SubN(r.e)
    case 0x94 => SubN(r.h)
    case 0x95 => SubN(r.l)
    case 0x96 => SubHl(hl)
    case 0x9F => SbcN(r.a)
    case 0x98 => SbcN(r.b)
    case 0x99 => SbcN(r.c)
    case 0x9A => SbcN(r.d)
    case 0x9B => SbcN(r.e)
    case 0x9C => SbcN(r.h)
    case 0x9D => SbcN(r.l)
    case 0x9E => SbcHl(hl)
    case 0xA7 => Andn(r.a)
    case 0xA0 => Andn(r.b)
    case 0xA1 => Andn(r.c)
    case 0xA2 => Andn(r.d)
    case 0xA3 => Andn(r.e)
    case 0xA4 => Andn(r.h)
    case 0xA5 => Andn(r.l)
    case 0xA6 => AndHl(hl)
    case 0xB7 => OrN(r.a)
    case 0xB0 => OrN(r.b)
    case 0xB1 => OrN(r.c)
    case 0xB2 => OrN(r.d)
    case 0xB3 => OrN(r.e)
    case 0xB4 => OrN(r.h)
    case 0xB5 => OrN(r.l)
    case 0xB6 => OrHl(hl)
    case 0xAF => Xor(r.a)
    case 0xA8 => Xor(r.b)
    case 0xA9 => Xor(r.c)
    case 0xAA => Xor(r.d)
    case 0xAB => Xor(r.e)
    case 0xAC => Xor(r.h)
    case 0xAD => Xor(r.l)
    case 0xAE => XorHl(hl)
    case 0xBF => Cp(r.a)
    case 0xB8 => Cp(r.b)
    case 0xB9 => Cp(r.c)
    case 0xBA => Cp(r.d)
    case 0xBB => Cp(r.e)
    case 0xBC => Cp(r.h)
    case 0xBD => Cp(r.l)
    case 0xBE => CpHl(hl)
    case _ => assert false; Nop
  }

  /** Bytes 0xC0-0xFF: stack, jumps, calls, immediate ALU forms, the 0xCB prefix; eleven bytes have no arm. */
  function Block3(r: Cpu.Registers, b: Mmu.Bus, byte: u8, n1: u8, d16: u16): Decoded
    requires Mmu.WellFormed(b) && 0xC0 <= byte < 0x100
  {
    match byte
    case 0xFA => Ok(LdAnn(Mmu.Load(b, d16)))
    case 0xEA => Ok(Lda16A(d16, r.a))
    case 0xF2 => Ok(LdAc(r.c))
    case 0xE2 => Ok(LdCa(r.a))
    case 0xE0 => Ok(LdHnA(n1))
    case 0xF0 => Ok(LdHAn(n1))
    case 0xF9 => Ok(LdSpHl(r.HL()))
    case 0xF8 => Ok(LdHlSp(AsI8(n1)))
    case 0xF5 => Ok(Pushnn(r.AF()))
    case 0xC5 => Ok(Pushnn(r.BC()))
    case 0xD5 => Ok(Pushnn(r.DE()))
    case 0xE5 => Ok(Pushnn(r.HL()))
    case 0xF1 => Ok(Popnn(0))
    case 0xC1 => Ok(Popnn(1))
    case 0xD1 => Ok(Popnn(2))
    case 0xE1 => Ok(Popnn(3))
    case 0xC6 => Ok(AddD8(n1))
    case 0xCE => Ok(AdcD8(n1))
    case 0xD6 => Ok(SubD8(n1))
    case 0xDE => Ok(SbcD8(n1))
    case 0xE6 => Ok(AndD8(n1))
    case 0xF6 => Ok(OrD8(n1))
    case 0xEE => Ok(XorD8(n1))
    case 0xFE => Ok(CpD8(n1))
    case 0xE8 => Ok(AddSpN(AsI8(n1)))
    case 0xF3 => Ok(Di)
    case 0xFB => Ok(Ei)
    case 0xC3 => Ok(Jpnn(d16))
    case 0xC2 => Ok(Jpcc(d16, 0))
    case 0xCA => Ok(Jpcc(d16, 1))
    case 0xD2 => Ok(Jpcc(d16, 2))
    case 0xDA => Ok(Jpcc(d16, 3))
    case 0xE9 => Ok(JpHl(r.HL()))
    case 0xCD => Ok(Callnn(d16))
    case 0xC4 => Ok(Callcc(d16, 0))
    case 0xCC => Ok(Callcc(d16, 1))
    case 0xD4 => Ok(Callcc(d16, 2))
    case 0xDC => Ok(Callcc(d16, 3))
    case 0xC7 => Ok(Rst(0x00))
    case 0xCF => Ok(Rst(0x08))
    case 0xD7 => Ok(Rst(0x10))
    case 0xDF => Ok(Rst(0x18))
    case 0xE7 => Ok(Rst(0x20))
    case 0xEF => Ok(Rst(0x28))
    case 0xF7 => Ok(Rst(0x30))
    case 0xFF => Ok(Rst(0x38))
    case 0xC9 => Ok(Ret)
    case 0xC0 => Ok(Retcc(0))
    case 0xC8 => Ok(Retcc(1))
    case 0xD0 => Ok(Retcc(2))
    case 0xD8 => Ok(Retcc(3))
    case 0xD9 => Ok(Reti)
    case 0xCB => CbDecode(r, b, n1)
    case _ => Unmapped(byte)
  }

  /**
   * `cb_decoder(cpu, byte, mmu)`: the 0xCB table, which has an arm for every
   * byte.  The only memory operand it reads is the byte at HL, passed as `hl`.
   */
  function CbDecoder(r: Cpu.Registers, hl: u8, byte: u8): Instruction
  {
    if byte < 0x40 then CbBlock0(r, hl, byte)
    else if byte < 0x80 then CbBlock1(r, hl, byte)
    else if byte < 0xC0 then CbBlock2(r, hl, byte)
    else CbBlock3(r, hl, byte)
  }

  /** Bytes 0x00-0x3F: rotates, shifts and SWAP. */
  function CbBlock0(r: Cpu.Registers, hl: u8, byte: u8): Instruction
    requires 0x00 <= byte < 0x40
  {
    match byte
    case 0x37 => SwapN(0, r.a)
    case 0x30 => SwapN(1, r.b)
    case 0x31 => SwapN(2, r.c)
    case 0x32 => SwapN(3, r.d)
    case 0x33 => SwapN(4, r.e)
    case 0x34 => SwapN(5, r.h)
    case 0x35 => SwapN(6, r.l)
    case 0x36 => SwapHl(hl)
    case 0x07 => RlcN(0, r.a)
    case 0x00 => RlcN(1, r.b)
    case 0x01 => RlcN(2, r.c)
    case 0x02 => RlcN(3, r.d)
    case 0x03 => RlcN(4, r.e)
    case 0x04 => RlcN(5, r.h)
    case 0x05 => RlcN(6, r.l)
    case 0x06 => RlcN(7, hl)
    case 0x17 => RlN(0, r.a)
    case 0x10 => RlN(1, r.b)
    case 0x11 => RlN(2, r.c)
    case 0x12 => RlN(3, r.d)
    case 0x13 => RlN(4, r.e)
    case 0x14 => RlN(5, r.h)
    case 0x15 => RlN(6, r.l)
    case 0x16 => RlN(7, hl)
    case 0x0F => RrcN(0, r.a)
    case 0x08 => RrcN(1, r.b)
    case 0x09 => RrcN(2, r.c)
    case 0x0A => RrcN(3, r.d)
    case 0x0B => RrcN(4, r.e)
    case 0x0C => RrcN(5, r.h)
    case 0x0D => RrcN(6, r.l)
    case 0x0E => RrcN(7, hl)
    case 0x1F => RrN(0, r.a)
    case 0x18 => RrN(1, r.b)
    case 0x19 => RrN(2, r.c)
    case 0x1A => RrN(3, r.d)
    case 0x1B => RrN(4, r.e)
    case 0x1C => RrN(5, r.h)
    case 0x1D => RrN(6, r.l)
    case 0x1E => RrN(7, hl)
    case 0x27 => SlaN(0, r.a)
    case 0x20 => SlaN(1, r.b)
    case 0x21 => SlaN(2, r.c)
    case 0x22 => SlaN(3, r.d)
    case 0x23 => SlaN(4, r.e)
    case 0x24 => SlaN(5, r.h)
    case 0x25 => SlaN(6, r.l)
    case 0x26 => SlaN(7, hl)
    case 0x2F => SraN(0, r.a)
    case 0x28 => SraN(1, r.b)
    case 0x29 => SraN(2, r.c)
    case 0x2A => SraN(3, r.d)
    case 0x2B => SraN(4, r.e)
    case 0x2C => SraN(5, r.h)
    case 0x2D => SraN(6, r.l)
    case 0x2E => SraN(7, hl)
    case 0x3F => SrlN(0, r.a)
    case 0x38 => SrlN(1, r.b)
    case 0x39 => SrlN(2, r.c)
    case 0x3A => SrlN(3, r.d)
    case 0x3B => SrlN(4, r.e)
    case 0x3C => SrlN(5, r.h)
    case 0x3D => SrlN(6, r.l)
    case 0x3E => SrlN(7, hl)
    case _ => assert false; Nop
  }

  /** Bytes 0x40-0x7F: BIT. */
  function CbBlock1(r: Cpu.Registers, hl: u8, byte: u8): Instruction
    requires 0x40 <= byte < 0x80
  {
    match byte
    case 0x47 => BitbR(0x01, r.a)
    case 0x40 => BitbR(0x01, r.b)
    case 0x41 => BitbR(0x01, r.c)
    case 0x42 => BitbR(0x01, r.d)
    case 0x43 => BitbR(0x01, r.e)
    case 0x44 => BitbR(0x01, r.h)
    case 0x45 => BitbR(0x01, r.l)
    case 0x46 => BitbHl(0x01, hl)
    case 0x4F => BitbR(0x02, r.a)
    case 0x48 => BitbR(0x02, r.b)
    case 0x49 => BitbR(0x02, r.c)
    case 0x4A => BitbR(0x02, r.d)
    case 0x4B => BitbR(0x02, r.e)
    case 0x4C => BitbR(0x02, r.h)
    case 0x4D => BitbR(0x02, r.l)
    case 0x4E => BitbHl(0x02, hl)
    case 0x57 => BitbR(0x04, r.a)
    case 0x50 => BitbR(0x04, r.b)
    case 0x51 => BitbR(0x04, r.c)
    case 0x52 => BitbR(0x04, r.d)
    case 0x53 => BitbR(0x04, r.e)
    case 0x54 => BitbR(0x04, r.h)
    case 0x55 => BitbR(0x04, r.l)
    case 0x56 => BitbHl(0x04, hl)
    case 0x5F => BitbR(0x08, r.a)
    case 0x58 => BitbR(0x08, r.b)
    case 0x59 => BitbR(0x08, r.c)
    case 0x5A => BitbR(0x08, r.d)
    case 0x5B => BitbR(0x08, r.e)
    case 0x5C => BitbR(0x08, r.h)
    case 0x5D => BitbR(0x08, r.l)
    case 0x5E => BitbHl(0x08, hl)
    case 0x67 => BitbR(0x10, r.a)
    case 0x60 => BitbR(0x10, r.b)
    case 0x61 => BitbR(0x10, r.c)
    case 0x62 => BitbR(0x10, r.d)
    case 0x63 => BitbR(0x10, r.e)
    case 0x64 => BitbR(0x10, r.h)
    case 0x65 => BitbR(0x10, r.l)
    case 0x66 => BitbHl(0x10, hl)
    case 0x6F => BitbR(0x20, r.a)
    case 0x68 => BitbR(0x20, r.b)
    case 0x69 => BitbR(0x20, r.c)
    case 0x6A => BitbR(0x20, r.d)
    case 0x6B => BitbR(0x20, r.e)
    case 0x6C => BitbR(0x20, r.h)
    case 0x6D => BitbR(0x20, r.l)
    case 0x6E => BitbHl(0x20, hl)
    case 0x77 => BitbR(0x40, r.a)
    case 0x70 => BitbR(0x40, r.b)
    case 0x71 => BitbR(0x40, r.c)
    case 0x72 => BitbR(0x40, r.d)
    case 0x73 => BitbR(0x40, r.e)
    case 0x74 => BitbR(0x40, r.h)
    case 0x75 => BitbR(0x40, r.l)
    case 0x76 => BitbHl(0x40, hl)
    case 0x7F => BitbR(0x80, r.a)
    case 0x78 => BitbR(0x80, r.b)
    case 0x79 => BitbR(0x80, r.c)
    case 0x7A => BitbR(0x80, r.d)
    case 0x7B => BitbR(0x80, r.e)
    case 0x7C => BitbR(0x80, r.h)
    case 0x7D => BitbR(0x80, r.l)
    case 0x7E => BitbHl(0x80, hl)
    case _ => assert false; Nop
  }

  /** Bytes 0x80-0xBF: RES. */
  function CbBlock2(r: Cpu.Registers, hl: u8, byte: u8): Instruction
    requires 0x80 <= byte < 0xC0
  {
    match byte
    case 0x87 => ResbR(0x01, r.a, 0)
    case 0x80 => ResbR(0x01, r.b, 1)
    case 0x81 => ResbR(0x01, r.c, 2)
    case 0x82 => ResbR(0x01, r.d, 3)
    case 0x83 => ResbR(0x01, r.e, 4)
    case 0x84 => ResbR(0x01, r.h, 5)
    case 0x85 => ResbR(0x01, r.l, 6)
    case 0x86 => ResbR(0x01, hl, 7)
    case 0x8F => ResbR(0x02, r.a, 0)
    case 0x88 => ResbR(0x02, r.b, 1)
    case 0x89 => ResbR(0x02, r.c, 2)
    case 0x8A => ResbR(0x02, r.d, 3)
    case 0x8B => ResbR(0x02, r.e, 4)
    case 0x8C => ResbR(0x02, r.h, 5)
    case 0x8D => ResbR(0x02, r.l, 6)
    case 0x8E => ResbR(0x02, hl, 7)
    case 0x97 => ResbR(0x04, r.a, 0)
    case 0x90 => ResbR(0x04, r.b, 1)
    case 0x91 => ResbR(0x04, r.c, 2)
    case 0x92 => ResbR(0x04, r.d, 3)
    case 0x93 => ResbR(0x04, r.e, 4)
    case 0x94 => ResbR(0x04, r.h, 5)
    case 0x95 => ResbR(0x04, r.l, 6)
    case 0x96 => ResbR(0x04, hl, 7)
    case 0x9F => ResbR(0x08, r.a, 0)
    case 0x98 => ResbR(0x08, r.b, 1)
    case 0x99 => ResbR(0x08, r.c, 2)
    case 0x9A => ResbR(0x08, r.d, 3)
    case 0x9B => ResbR(0x08, r.e, 4)
    case 0x9C => ResbR(0x08, r.h, 5)
    case 0x9D => ResbR(0x08, r.l, 6)
    case 0x9E => ResbR(0x08, hl, 7)
    case 0xA7 => ResbR(0x10, r.a, 0)
    case 0xA0 => ResbR(0x10, r.b, 1)
    case 0xA1 => ResbR(0x10, r.c, 2)
    case 0xA2 => ResbR(0x10, r.d, 3)
    case 0xA3 => ResbR(0x10, r.e, 4)
    case 0xA4 => ResbR(0x10, r.h, 5)
    case 0xA5 => ResbR(0x10, r.l, 6)
    case 0xA6 => ResbR(0x10, hl, 7)
    case 0xAF => ResbR(0x20, r.a, 0)
    case 0xA8 => ResbR(0x20, r.b, 1)
    case 0xA9 => ResbR(0x20, r.c, 2)
    case 0xAA => ResbR(0x20, r.d, 3)
    case 0xAB => ResbR(0x20, r.e, 4)
    case 0xAC => ResbR(0x20, r.h, 5)
    case 0xAD => ResbR(0x20, r.l, 6)
    case 0xAE => ResbR(0x20, hl, 7)
    case 0xB7 => ResbR(0x40, r.a, 0)
    case 0xB0 => ResbR(0x40, r.b, 1)
    case 0xB1 => ResbR(0x40, r.c, 2)
    case 0xB2 => ResbR(0x40, r.d, 3)
    case 0xB3 => ResbR(0x40, r.e, 4)
    case 0xB4 => ResbR(0x40, r.h, 5)
    case 0xB5 => ResbR(0x40, r.l, 6)
    case 0xB6 => ResbR(0x40, hl, 7)
    case 0xBF => ResbR(0x80, r.a, 0)
    case 0xB8 => ResbR(0x80, r.b, 1)
    case 0xB9 => ResbR(0x80, r.c, 2)
    case 0xBA => ResbR(0x80, r.d, 3)
    case 0xBB => ResbR(0x80, r.e, 4)
    case 0xBC => ResbR(0x80, r.h, 5)
    case 0xBD => ResbR(0x80, r.l, 6)
    case 0xBE => ResbR(0x80, hl, 7)
    case _ => assert false; Nop
  }

  /** Bytes 0xC0-0xFF: SET. */
  function CbBlock3(r: Cpu.Registers, hl: u8, byte: u8): Instruction
    requires 0xC0 <= byte < 0x100
  {
    match byte
    case 0xC7 => SetbR(0x01, r.a, 0)
    case 0xC0 => SetbR(0x01, r.b, 1)
    case 0xC1 => SetbR(0x01, r.c, 2)
    case 0xC2 => SetbR(0x01, r.d, 3)
    case 0xC3 => SetbR(0x01, r.e, 4)
    case 0xC4 => SetbR(0x01, r.h, 5)
    case 0xC5 => SetbR(0x01, r.l, 6)
    case 0xC6 => SetbR(0x01, hl, 7)
    case 0xCF => SetbR(0x02, r.a, 0)
    case 0xC8 => SetbR(0x02, r.b, 1)
    case 0xC9 => SetbR(0x02, r.c, 2)
    case 0xCA => SetbR(0x02, r.d, 3)
    case 0xCB => SetbR(0x02, r.e, 4)
    case 0xCC => SetbR(0x02, r.h, 5)
    case 0xCD => SetbR(0x02, r.l, 6)
    case 0xCE => SetbR(0x02, hl, 7)
    case 0xD7 => SetbR(0x04, r.a, 0)
    case 0xD0 => SetbR(0x04, r.b, 1)
    case 0xD1 => SetbR(0x04, r.c, 2)
    case 0xD2 => SetbR(0x04, r.d, 3)
    case 0xD3 => SetbR(0x04, r.e, 4)
    case 0xD4 => SetbR(0x04, r.h, 5)
    case 0xD5 => SetbR(0x04, r.l, 6)
    case 0xD6 => SetbR(0x04, hl, 7)
    case 0xDF => SetbR(0x08, r.a, 0)
    case 0xD8 => SetbR(0x08, r.b, 1)
    case 0xD9 => SetbR(0x08, r.c, 2)
    case 0xDA => SetbR(0x08, r.d, 3)
    case 0xDB => SetbR(0x08, r.e, 4)
    case 0xDC => SetbR(0x08, r.h, 5)
    case 0xDD => SetbR(0x08, r.l, 6)
    case 0xDE => SetbR(0x08, hl, 7)
    case 0xE7 => SetbR(0x10, r.a, 0)
    case 0xE0 => SetbR(0x10, r.b, 1)
    case 0xE1 => SetbR(0x10, r.c, 2)
    case 0xE2 => SetbR(0x10, r.d, 3)
    case 0xE3 => SetbR(0x10, r.e, 4)
    case 0xE4 => SetbR(0x10, r.h, 5)
    case 0xE5 => SetbR(0x10, r.l, 6)
    case 0xE6 => SetbR(0x10, hl, 7)
    case 0xEF => SetbR(0x20, r.a, 0)
    case 0xE8 => SetbR(0x20, r.b, 1)
    case 0xE9 => SetbR(0x20, r.c, 2)
    case 0xEA => SetbR(0x20, r.d, 3)
    case 0xEB => SetbR(0x20, r.e, 4)
    case 0xEC => SetbR(0x20, r.h, 5)
    case 0xED => SetbR(0x20, r.l, 6)
    case 0xEE => SetbR(0x20, hl, 7)
    case 0xF7 => SetbR(0x40, r.a, 0)
    case 0xF0 => SetbR(0x40, r.b, 1)
    case 0xF1 => SetbR(0x40, r.c, 2)
    case 0xF2 => SetbR(0x40, r.d, 3)
    case 0xF3 => SetbR(0x40, r.e, 4)
    case 0xF4 => SetbR(0x40, r.h, 5)
    case 0xF5 => SetbR(0x40, r.l, 6)
    case 0xF6 => SetbR(0x40, hl, 7)
    case 0xFF => SetbR(0x80, r.a, 0)
    case 0xF8 => SetbR(0x80, r.b, 1)
    case 0xF9 => SetbR(0x80, r.c, 2)
    case 0xFA => SetbR(0x80, r.d, 3)
    case 0xFB => SetbR(0x80, r.e, 4)
    case 0xFC => SetbR(0x80, r.h, 5)
    case 0xFD => SetbR(0x80, r.l, 6)
    case 0xFE => SetbR(0x80, hl, 7)
    case _ => assert false; Nop
  }

  /**
   * `cb_decode(byte, mmu)`: reads the two bytes at `pc + 2` and `pc + 3`
   * (unused by the table, but the non-wrapping additions panic past 0xFFFF)
   * and decodes `byte` with the 0xCB table.
   */
  function CbDecode(r: Cpu.Registers, b: Mmu.Bus, byte: u8): Decoded
    requires Mmu.WellFormed(b)
  {
    if r.pc + 3 > 0xFFFF then AddressOverflow else Ok(CbDecoder(r, Mmu.Load(b, r.HL()), byte))
  }

  /**
   * `decode(byte, mmu)`: the operand bytes are the two after `pc`, read
   * through the bus, with `d16` little-endian.
   */
  function Decode(r: Cpu.Registers, b: Mmu.Bus, byte: u8): Decoded
    requires Mmu.WellFormed(b)
  {
    if r.pc + 2 > 0xFFFF then AddressOverflow
    else
      var n1 := Mmu.Load(b, r.pc + 1);
      var n2 := Mmu.Load(b, r.pc + 2);
      Decoder(r, b, byte, n1, Word(n2, n1))
  }

  // ----- Structure of the tables ------------------------------------------

  /**
   * The register or memory operand the low three bits of an opcode select,
   * in the order B, C, D, E, H, L, (HL), A.
   */
  function Operand(r: Cpu.Registers, hl: u8, o: nat): u8
    requires o < 8
  {
    if o == 6 then hl else r.R8(Selector(o))
  }

  /** The executor's selector for operand `o`: A = 0, B = 1 ... L = 6, (HL) = 7. */
  function Selector(o: nat): (sel: u8)
    requires o < 8
    ensures sel <= 7 && (sel == 7 <==> o == 6)
  {
    if o == 7 then 0 else if o == 6 then 7 else o + 1
  }

  /** `1 << k` as a byte. */
  function BitMask(k: nat): u8
    requires k < 8
  {
    match k
    case 0 => 0x01 case 1 => 0x02 case 2 => 0x04 case 3 => 0x08
    case 4 => 0x10 case 5 => 0x20 case 6 => 0x40 case _ => 0x80
  }

  lemma BitMaskIsPow2(k: nat)
    requires k < 8
    ensures BitMask(k) == Pow2(k)
  {
  }

  /**
   * The 0xCB table written by its structure: bits 7-3 choose the operation
   * (and for BIT, RES and SET the bit), bits 2-0 the operand.
   */
  function CbRegular(r: Cpu.Registers, hl: u8, byte: u8): Instruction
  {
    var g := byte / 8;
    var o := byte % 8;
    var v := Operand(r, hl, o);
    var sel := Selector(o);
    if g == 0 then RlcN(sel, v)
    else if g == 1 then RrcN(sel, v)
    else if g == 2 then RlN(sel, v)
    else if g == 3 then RrN(sel, v)
    else if g == 4 then SlaN(sel, v)
    else if g == 5 then SraN(sel, v)
    else if g == 6 then (if o == 6 then SwapHl(v) else SwapN(sel, v))
    else if g == 7 then SrlN(sel, v)
    else if g < 16 then (if o == 6 then BitbHl(BitMask(g % 8), v) else BitbR(BitMask(g % 8), v))
    else if g < 24 then ResbR(BitMask(g % 8), v, sel)
    else SetbR(BitMask(g % 8), v, sel)
  }

  /** Every one of the 256 arms of the 0xCB table follows that structure. */
  lemma CbDecoderIsRegular(r: Cpu.Registers, hl: u8, byte: u8)
    ensures CbDecoder(r, hl, byte) == CbRegular(r, hl, byte)
  {
    if byte < 0x40 {
      CbBlock0Regular(r, hl, byte);
    } else if byte < 0x80 {
      CbBlock1Regular(r, hl, byte);
    } else if byte < 0xC0 {
      CbBlock2Regular(r, hl, byte);
    } else {
      CbBlock3Regular(r, hl, byte);
    }
  }

  lemma CbBlock0Regular(r: Cpu.Registers, hl: u8, byte: u8)
    requires 0x00 <= byte < 0x40
    ensures CbBlock0(r, hl, byte) == CbRegular(r, hl, byte)
  {
    if byte < 0x08 {
      CbRows00To07(r, hl, byte);
    } else if byte < 0x10 {
      CbRows08To0F(r, hl, byte);
    } else if byte < 0x18 {
      CbRows10To17(r, hl, byte);
    } else if byte < 0x20 {
      CbRows18To1F(r, hl, byte);
    } else if byte < 0x28 {
      CbRows20To27(r, hl, byte);
    } else if byte < 0x30 {
      CbRows28To2F(r, hl, byte);
    } else if byte < 0x38 {
      CbRows30To37(r, hl, byte);
    } else {
      CbRows38To3F(r, hl, byte);
    }
  }

  lemma CbRows00To07(r: Cpu.Registers, hl: u8, byte: u8)
    requires 0x00 <= byte < 0x08
    ensures CbBlock0(r, hl, byte) == CbRegular(r, hl, byte)
  {
    assert byte / 8 == 0;
  }

  lemma CbRows08To0F(r: Cpu.Registers, hl: u8, byte: u8)
    requires 0x08 <= byte < 0x10
    ensures CbBlock0(r, hl, byte) == CbRegular(r, hl, byte)
  {
    assert byte / 8 == 1;
  }

  lemma CbRows10To17(r: Cpu.Registers, hl: u8, byte: u8)
    requires 0x10 <= byte < 0x18
    ensures CbBlock0(r, hl, byte) == CbRegular(r, hl, byte)
  {
    assert byte / 8 == 2;
  }

  lemma CbRows18To1F(r: Cpu.Registers, hl: u8, byte: u8)
    requires 0x18 <= byte < 0x20
    ensures CbBlock0(r, hl, byte) == CbRegular(r, hl, byte)
  {
    assert byte / 8 == 3;
  }

  lemma CbRows20To27(r: Cpu.Registers, hl: u8, byte: u8)
    requires 0x20 <= byte < 0x28
    ensures CbBlock0(r, hl, byte) == CbRegular(r, hl, byte)
  {
    assert byte / 8 == 4;
  }

  lemma CbRows28To2F(r: Cpu.Registers, hl: u8, byte: u8)
    requires 0x28 <= byte < 0x30
    ensures CbBlock0(r, hl, byte) == CbRegular(r, hl, byte)
  {
    assert byte / 8 == 5;
  }

  lemma CbRows30To37(r: Cpu.Registers, hl: u8, byte: u8)
    requires 0x30 <= byte < 0x38
    ensures CbBlock0(r, hl, byte) == CbRegular(r, hl, byte)
  {
    assert byte / 8 == 6;
  }

  lemma CbRows38To3F(r: Cpu.Registers, hl: u8, byte: u8)
    requires 0x38 <= byte < 0x40
    ensures CbBlock0(r, hl, byte) == CbRegular(r, hl, byte)
  {
    assert byte / 8 == 7;
  }

  lemma CbBlock1Regular(r: Cpu.Registers, hl: u8, byte: u8)
    requires 0x40 <= byte < 0x80
    ensures CbBlock1(r, hl, byte) == CbRegular(r, hl, byte)
  {
    if byte < 0x48 {
      CbRows40To47(r, hl, byte);
    } else if byte < 0x50 {
      CbRows48To4F(r, hl, byte);
    } else if byte < 0x58 {
      CbRows50To57(r, hl, byte);
    } else if byte < 0x60 {
      CbRows58To5F(r, hl, byte);
    } else if byte < 0x68 {
      CbRows60To67(r, hl, byte);
    } else if byte < 0x70 {
      CbRows68To6F(r, hl, byte);
    } else if byte < 0x78 {
      CbRows70To77(r, hl, byte);
    } else {
      CbRows78To7F(r, hl, byte);
    }
  }

  lemma CbRows40To47(r: Cpu.Registers, hl: u8, byte: u8)
    requires 0x40 <= byte < 0x48
    ensures CbBlock1(r, hl, byte) == CbRegular(r, hl, byte)
  {
    assert byte / 8 == 8;
  }

  lemma CbRows48To4F(r: Cpu.Registers, hl: u8, byte: u8)
    requires 0x48 <= byte < 0x50
    ensures CbBlock1(r, hl, byte) == CbRegular(r, hl, byte)
  {
    assert byte / 8 == 9;
  }

  lemma CbRows50To57(r: Cpu.Registers, hl: u8, byte: u8)
    requires 0x50 <= byte < 0x58
    ensures CbBlock1(r, hl, byte) == CbRegular(r, hl, byte)
  {
    assert byte / 8 == 10;
  }

  lemma CbRows58To5F(r: Cpu.Registers, hl: u8, byte: u8)
    requires 0x58 <= byte < 0x60
    ensures CbBlock1(r, hl, byte) == CbRegular(r, hl, byte)
  {
    assert byte / 8 == 11;
  }

  lemma CbRows60To67(r: Cpu.Registers, hl: u8, byte: u8)
    requires 0x60 <= byte < 0x68
    ensures CbBlock1(r, hl, byte) == CbRegular(r, hl, byte)
  {
    assert byte / 8 == 12;
  }

  lemma CbRows68To6F(r: Cpu.Registers, hl: u8, byte: u8)
    requires 0x68 <= byte < 0x70
    ensures CbBlock1(r, hl, byte) == CbRegular(r, hl, byte)
  {
    assert byte / 8 == 13;
  }

  lemma CbRows70To77(r: Cpu.Registers, hl: u8, byte: u8)
    requires 0x70 <= byte < 0x78
    ensures CbBlock1(r, hl, byte) == CbRegular(r, hl, byte)
  {
    assert byte / 8 == 14;
  }

  lemma CbRows78To7F(r: Cpu.Registers, hl: u8, byte: u8)
    requires 0x78 <= byte < 0x80
    ensures CbBlock1(r, hl, byte) == CbRegular(r, hl, byte)
  {
    assert byte / 8 == 15;
  }

  lemma CbBlock2Regular(r: Cpu.Registers, hl: u8, byte: u8)
    requires 0x80 <= byte < 0xC0
    ensures CbBlock2(r, hl, byte) == CbRegular(r, hl, byte)
  {
    if byte < 0x88 {
      CbRows80To87(r, hl, byte);
    } else if byte < 0x90 {
      CbRows88To8F(r, hl, byte);
    } else if byte < 0x98 {
      CbRows90To97(r, hl, byte);
    } else if byte < 0xA0 {
      CbRows98To9F(r, hl, byte);
    } else if byte < 0xA8 {
      CbRowsA0ToA7(r, hl, byte);
    } else if byte < 0xB0 {
      CbRowsA8ToAF(r, hl, byte);
    } else if byte < 0xB8 {
      CbRowsB0ToB7(r, hl, byte);
    } else {
      CbRowsB8ToBF(r, hl, byte);
    }
  }

  lemma CbRows80To87(r: Cpu.Registers, hl: u8, byte: u8)
    requires 0x80 <= byte < 0x88
    ensures CbBlock2(r, hl, byte) == CbRegular(r, hl, byte)
  {
    assert byte / 8 == 16;
  }

  lemma CbRows88To8F(r: Cpu.Registers, hl: u8, byte: u8)
    requires 0x88 <= byte < 0x90
    ensures CbBlock2(r, hl, byte) == CbRegular(r, hl, byte)
  {
    assert byte / 8 == 17;
  }

  lemma CbRows90To97(r: Cpu.Registers, hl: u8, byte: u8)
    requires 0x90 <= byte < 0x98
    ensures CbBlock2(r, hl, byte) == CbRegular(r, hl, byte)
  {
    assert byte / 8 == 18;
  }

  lemma CbRows98To9F(r: Cpu.Registers, hl: u8, byte: u8)
    requires 0x98 <= byte < 0xA0
    ensures CbBlock2(r, hl, byte) == CbRegular(r, hl, byte)
  {
    assert byte / 8 == 19;
  }

  lemma CbRowsA0ToA7(r: Cpu.Registers, hl: u8, byte: u8)
    requires 0xA0 <= byte < 0xA8
    ensures CbBlock2(r, hl, byte) == CbRegular(r, hl, byte)
  {
    assert byte / 8 == 20;
  }

  lemma CbRowsA8ToAF(r: Cpu.Registers, hl: u8, byte: u8)
    requires 0xA8 <= byte < 0xB0
    ensures CbBlock2(r, hl, byte) == CbRegular(r, hl, byte)
  {
    assert byte / 8 == 21;
  }

  lemma CbRowsB0ToB7(r: Cpu.Registers, hl: u8, byte: u8)
    requires 0xB0 <= byte < 0xB8
    ensures CbBlock2(r, hl, byte) == CbRegular(r, hl, byte)
  {
    assert byte / 8 == 22;
  }

  lemma CbRowsB8ToBF(r: Cpu.Registers, hl: u8, byte: u8)
    requires 0xB8 <= byte < 0xC0
    ensures CbBlock2(r, hl, byte) == CbRegular(r, hl, byte)
  {
    assert byte / 8 == 23;
  }

  lemma CbBlock3Regular(r: Cpu.Registers, hl: u8, byte: u8)
    requires 0xC0 <= byte < 0x100
    ensures CbBlock3(r, hl, byte) == CbRegular(r, hl, byte)
  {
    if byte < 0xC8 {
      CbRowsC0ToC7(r, hl, byte);
    } else if byte < 0xD0 {
      CbRowsC8ToCF(r, hl, byte);
    } else if byte < 0xD8 {
      CbRowsD0ToD7(r, hl, byte);
    } else if byte < 0xE0 {
      CbRowsD8ToDF(r, hl, byte);
    } else if byte < 0xE8 {
      CbRowsE0ToE7(r, hl, byte);
    } else if byte < 0xF0 {
      CbRowsE8ToEF(r, hl, byte);
    } else if byte < 0xF8 {
      CbRowsF0ToF7(r, hl, byte);
    } else {
      CbRowsF8ToFF(r, hl, byte);
    }
  }

  lemma CbRowsC0ToC7(r: Cpu.Registers, hl: u8, byte: u8)
    requires 0xC0 <= byte < 0xC8
    ensures CbBlock3(r, hl, byte) == CbRegular(r, hl, byte)
  {
    assert byte / 8 == 24;
  }

  lemma CbRowsC8ToCF(r: Cpu.Registers, hl: u8, byte: u8)
    requires 0xC8 <= byte < 0xD0
    ensures CbBlock3(r, hl, byte) == CbRegular(r, hl, byte)
  {
    assert byte / 8 == 25;
  }

  lemma CbRowsD0ToD7(r: Cpu.Registers, hl: u8, byte: u8)
    requires 0xD0 <= byte < 0xD8
    ensures CbBlock3(r, hl, byte) == CbRegular(r, hl, byte)
  {
    assert byte / 8 == 26;
  }

  lemma CbRowsD8ToDF(r: Cpu.Registers, hl: u8, byte: u8)
    requires 0xD8 <= byte < 0xE0
    ensures CbBlock3(r, hl, byte) == CbRegular(r, hl, byte)
  {
    assert byte / 8 == 27;
  }

  lemma CbRowsE0ToE7(r: Cpu.Registers, hl: u8, byte: u8)
    requires 0xE0 <= byte < 0xE8
    ensures CbBlock3(r, hl, byte) == CbRegular(r, hl, byte)
  {
    assert byte / 8 == 28;
  }

  lemma CbRowsE8ToEF(r: Cpu.Registers, hl: u8, byte: u8)
    requires 0xE8 <= byte < 0xF0
    ensures CbBlock3(r, hl, byte) == CbRegular(r, hl, byte)
  {
    assert byte / 8 == 29;
  }

  lemma CbRowsF0ToF7(r: Cpu.Registers, hl: u8, byte: u8)
    requires 0xF0 <= byte < 0xF8
    ensures CbBlock3(r, hl, byte) == CbRegular(r, hl, byte)
  {
    assert byte / 8 == 30;
  }

  lemma CbRowsF8ToFF(r: Cpu.Registers, hl: u8, byte: u8)
    requires 0xF8 <= byte < 0x100
    ensures CbBlock3(r, hl, byte) == CbRegular(r, hl, byte)
  {
    assert byte / 8 == 31;
  }

  /**
   * BIT: the mask is `1 << ((byte >> 3) & 7)`, and the (HL) column yields
   * `BitbHl` with the byte at HL.
   */
  lemma CbBitForms(r: Cpu.Registers, hl: u8, byte: u8)
    requires 0x40 <= byte < 0x80
    ensures byte % 8 == 6 ==> CbDecoder(r, hl, byte) == BitbHl(Pow2(byte / 8 % 8), hl)
    ensures byte % 8 != 6 ==> CbDecoder(r, hl, byte) == BitbR(Pow2(byte / 8 % 8), Operand(r, hl, byte % 8))
  {
    CbDecoderIsRegular(r, hl, byte);
  }

  /** Byte 0x00 is NOP and byte 0x76 is HALT. */
  lemma NopAndHalt(r: Cpu.Registers, b: Mmu.Bus, n1: u8, d16: u16)
    requires Mmu.WellFormed(b)
    ensures Decoder(r, b, 0x00, n1, d16) == Ok(Nop)
    ensures Decoder(r, b, 0x76, n1, d16) == Ok(Halt)
  {
  }

  /** Exactly eleven base bytes have no arm and reach the panic. */
  lemma UnmappedBytes(r: Cpu.Registers, b: Mmu.Bus, byte: u8, n1: u8, d16: u16)
    requires Mmu.WellFormed(b)
    ensures Decoder(r, b, byte, n1, d16).Unmapped?
            <==> byte in {0xD3, 0xDB, 0xDD, 0xE3, 0xE4, 0xEB, 0xEC, 0xED, 0xF4, 0xFC, 0xFD}
  {
  }

  /** Byte 0xCB hands the following byte to the extended table. */
  lemma CbPrefix(r: Cpu.Registers, b: Mmu.Bus, n1: u8, d16: u16)
    requires Mmu.WellFormed(b)
    ensures Decoder(r, b, 0xCB, n1, d16)
            == if r.pc + 3 > 0xFFFF then AddressOverflow else Ok(CbDecoder(r, Mmu.Load(b, r.HL()), n1))
  {
  }

  /** The eight RST bytes carry the vector `byte & 0x38`. */
  lemma RstVectors(r: Cpu.Registers, b: Mmu.Bus, byte: u8, n1: u8, d16: u16)
    requires Mmu.WellFormed(b) && byte in {0xC7, 0xCF, 0xD7, 0xDF, 0xE7, 0xEF, 0xF7, 0xFF}
    ensures Decoder(r, b, byte, n1, d16) == Ok(Rst(byte - 0xC7))
  {
  }

  /**
   * The conditional JP, JR, CALL and RET forms carry the condition
   * `(byte >> 3) & 3`: NZ = 0, Z = 1, NC = 2, C = 3.  One lemma per kind.
   */
  lemma JpConditions(r: Cpu.Registers, b: Mmu.Bus, byte: u8, n1: u8, d16: u16)
    requires Mmu.WellFormed(b) && byte in {0xC2, 0xCA, 0xD2, 0xDA}
    ensures Decoder(r, b, byte, n1, d16) == Ok(Jpcc(d16, byte / 8 % 4))
  {
  }

  lemma JrConditions(r: Cpu.Registers, b: Mmu.Bus, byte: u8, n1: u8, d16: u16)
    requires Mmu.WellFormed(b) && byte in {0x20, 0x28, 0x30, 0x38}
    ensures Decoder(r, b, byte, n1, d16) == Ok(Jrcc(AsI8(n1), byte / 8 % 4))
  {
  }

  lemma CallConditions(r: Cpu.Registers, b: Mmu.Bus, byte: u8, n1: u8, d16: u16)
    requires Mmu.WellFormed(b) && byte in {0xC4, 0xCC, 0xD4, 0xDC}
    ensures Decoder(r, b, byte, n1, d16) == Ok(Callcc(d16, byte / 8 % 4))
  {
  }

  lemma RetConditions(r: Cpu.Registers, b: Mmu.Bus, byte: u8, n1: u8, d16: u16)
    requires Mmu.WellFormed(b) && byte in {0xC0, 0xC8, 0xD0, 0xD8}
    ensures Decoder(r, b, byte, n1, d16) == Ok(Retcc(byte / 8 % 4))
  {
  }

  /** The `LD r,r'` constructor for destination `dst` (B = 0 ... L = 5). */
  function LoadRow(dst: nat, v: u8, fromMemory: bool): Instruction
    requires dst < 6
  {
    match dst
    case 0 => LdBR2(v, fromMemory)
    case 1 => LdCR2(v, fromMemory)
    case 2 => LdDR2(v, fromMemory)
    case 3 => LdER2(v, fromMemory)
    case 4 => LdHR2(v, fromMemory)
    case _ => LdLR2(v, fromMemory)
  }

  /**
   * In the `LD r,r'` block 0x40-0x6F (except the `LD r,A` column) the
   * destination is `(byte >> 3) - 8`, the source is chosen by the low three
   * bits, and the flag is true exactly for the (HL) source.
   */
  lemma LoadRegisterForms(r: Cpu.Registers, b: Mmu.Bus, byte: u8, n1: u8, d16: u16)
    requires Mmu.WellFormed(b) && 0x40 <= byte < 0x70 && byte % 8 != 7
    ensures Decoder(r, b, byte, n1, d16) == Ok(LoadRow(byte / 8 - 8, Operand(r, Mmu.Load(b, r.HL()), byte % 8), byte % 8 == 6))
  {
    if byte < 0x50 {
      LoadRows40To4F(r, Mmu.Load(b, r.HL()), byte);
    } else if byte < 0x60 {
      LoadRows50To5F(r, Mmu.Load(b, r.HL()), byte);
    } else {
      LoadRows60To6F(r, Mmu.Load(b, r.HL()), byte);
    }
  }

  lemma LoadRows40To4F(r: Cpu.Registers, hl: u8, byte: u8)
    requires 0x40 <= byte < 0x50 && byte % 8 != 7
    ensures Block1(r, hl, byte) == LoadRow(byte / 8 - 8, Operand(r, hl, byte % 8), byte % 8 == 6)
  {
  }

  lemma LoadRows50To5F(r: Cpu.Registers, hl: u8, byte: u8)
    requires 0x50 <= byte < 0x60 && byte % 8 != 7
    ensures Block1(r, hl, byte) == LoadRow(byte / 8 - 8, Operand(r, hl, byte % 8), byte % 8 == 6)
  {
  }

  lemma LoadRows60To6F(r: Cpu.Registers, hl: u8, byte: u8)
    requires 0x60 <= byte < 0x70 && byte % 8 != 7
    ensures Block1(r, hl, byte) == LoadRow(byte / 8 - 8, Operand(r, hl, byte % 8), byte % 8 == 6)
  {
  }

  /** The 8-bit ALU operation for group `g` (ADD, ADC, SUB, SBC, AND, XOR, OR, CP). */
  function AluRow(g: nat, v: u8, fromMemory: bool): Instruction
    requires g < 8
  {
    match g
    case 0 => if fromMemory then AddHl(v) else AddN(v)
    case 1 => if fromMemory then AdcHl(v) else AdcN(v)
    case 2 => if fromMemory then SubHl(v) else SubN(v)
    case 3 => if fromMemory then SbcHl(v) else SbcN(v)
    case 4 => if fromMemory then AndHl(v) else Andn(v)
    case 5 => if fromMemory then XorHl(v) else Xor(v)
    case 6 => if fromMemory then OrHl(v) else OrN(v)
    case _ => if fromMemory then CpHl(v) else Cp(v)
  }

  /** The ALU block 0x80-0xBF is regular in the operation and the operand. */
  lemma AluForms(r: Cpu.Registers, b: Mmu.Bus, byte: u8, n1: u8, d16: u16)
    requires Mmu.WellFormed(b) && 0x80 <= byte < 0xC0
    ensures Decoder(r, b, byte, n1, d16) == Ok(AluRow(byte / 8 - 16, Operand(r, Mmu.Load(b, r.HL()), byte % 8), byte % 8 == 6))
  {
  }

  /**
   * `decode` reads its immediate little-endian: for `JP nn` the target's low
   * byte is the one after the opcode and its high byte the next.
   */
  lemma DecodeLittleEndian(r: Cpu.Registers, b: Mmu.Bus)
    requires Mmu.WellFormed(b) && r.pc + 2 <= 0xFFFF
    ensures Decode(r, b, 0xC3).Ok? && Decode(r, b, 0xC3).ins.Jpnn?
    ensures Lo(Decode(r, b, 0xC3).ins.nn) == Mmu.Load(b, r.pc + 1)
    ensures Hi(Decode(r, b, 0xC3).ins.nn) == Mmu.Load(b, r.pc + 2)
  {
    SplitWord(Mmu.Load(b, r.pc + 2), Mmu.Load(b, r.pc + 1));
  }

  /**
   * Through `decode`, the 0xCB prefix decodes the byte after it with the
   * extended table, or panics when `pc + 3` would overflow.
   */
  lemma DecodeCbPrefix(r: Cpu.Registers, b: Mmu.Bus)
    requires Mmu.WellFormed(b)
    ensures r.pc + 3 > 0xFFFF ==> Decode(r, b, 0xCB) == AddressOverflow
    ensures r.pc + 3 <= 0xFFFF ==> Decode(r, b, 0xCB) == Ok(CbDecoder(r, Mmu.Load(b, r.HL()), Mmu.Load(b, r.pc + 1)))
  {
  }
}
