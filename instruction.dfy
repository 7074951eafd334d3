// The decoded form of one instruction, as built by the opcode tables and
// consumed by the executor.  Each constructor carries the operand values the
// decoder read from the register file and memory at decode time, and, where
// the executor needs it, a register selector: 8-bit registers are numbered
// A = 0, B = 1, C = 2, D = 3, E = 4, H = 5, L = 6 (and (HL) = 7 in the 0xCB
// forms), register pairs BC = 0, DE = 1, HL = 2, SP = 3 (AF = 0 for POP).
module Instructions {
  import opened Bits

  datatype Instruction =
    // 8-bit loads
    | LdN(sel: u8, n: u8)               // LD r,n: selector (B = 0 ... L = 5), immediate
    | LdAR2(sel: u8, n: u8)             // LD A,r / LD A,(rr): 0 register source, 1 memory source; value
    | LdAnn(n: u8)                      // LD A,(nn): the byte at nn
    | LdAd8(n: u8)                      // LD A,n
    | LdBR2(n: u8, fromHl: bool)        // LD B,r: value, whether it came from (HL)
    | LdCR2(n: u8, fromHl: bool)
    | LdDR2(n: u8, fromHl: bool)
    | LdER2(n: u8, fromHl: bool)
    | LdHR2(n: u8, fromHl: bool)
    | LdLR2(n: u8, fromHl: bool)
    | LdHlR2(n: u8, fromHl: bool)       // LD (HL),r / LD (HL),n
    | LdnA(sel: u8, n: u8)              // LD r,A: selector (B = 0 ... L = 5), A
    | Ldn16A(nn: u16, n: u8)            // LD (BC),A / LD (DE),A: address, A
    | Lda16A(nn: u16, n: u8)            // LD (nn),A
    | LdAc(n: u8)                       // LD A,(0xFF00+C): C
    | LdCa(n: u8)                       // byte 0xE2: A
    | LddAHl(nn: u16)                   // LDD A,(HL): HL
    | LddHlA(nn: u16)                   // LDD (HL),A
    | LdIAHl(nn: u16)                   // LDI A,(HL)
    | LdIHlA(nn: u16)                   // LDI (HL),A
    | LdHnA(n: u8)                      // LDH (n),A
    | LdHAn(n: u8)                      // LDH A,(n)
    // 16-bit loads and the stack
    | LdBc(nn: u16)
    | LdDe(nn: u16)
    | LdHl(nn: u16)
    | LdSp(nn: u16)
    | LdSpHl(nn: u16)                   // LD SP,HL: HL
    | LdHlSp(e: i8)                     // LD HL,SP+e
    | LdnnSp(nn: u16)                   // LD (nn),SP
    | Pushnn(nn: u16)                   // PUSH rr: the pair's value
    | Popnn(sel: u8)                    // POP rr: AF = 0, BC = 1, DE = 2, HL = 3
    // 8-bit arithmetic and logic: the operand value
    | AddN(n: u8) | AddHl(n: u8) | AddD8(n: u8)
    | AdcN(n: u8) | AdcHl(n: u8) | AdcD8(n: u8)
    | SubN(n: u8) | SubHl(n: u8) | SubD8(n: u8)
    | SbcN(n: u8) | SbcHl(n: u8) | SbcD8(n: u8)
    | Andn(n: u8) | AndHl(n: u8) | AndD8(n: u8)
    | OrN(n: u8) | OrHl(n: u8) | OrD8(n: u8)
    | Xor(n: u8) | XorHl(n: u8) | XorD8(n: u8)
    | Cp(n: u8) | CpHl(n: u8) | CpD8(n: u8)
    | IncN(sel: u8, n: u8)              // INC r: selector, value
    | IncHl(nn: u16)                    // INC (HL): HL
    | DecN(sel: u8, n: u8)              // DEC r: selector, value
    | DecHl(nn: u16)
    // 16-bit arithmetic
    | AddHlN(nn: u16)                   // ADD HL,rr: the pair's value
    | AddSpN(e: i8)
    | IncNN(sel: u8, nn: u16)           // INC rr: pair selector, value
    | DecNN(sel: u8, nn: u16)
    // miscellaneous
    | SwapN(sel: u8, n: u8)             // SWAP r: selector, value
    | SwapHl(n: u8)                     // SWAP (HL): the byte at HL
    | Daa
    | Cpl(n: u8)
    | Ccf
    | Scf
    | Nop
    | Halt
    | Stop
    | Di
    | Ei
    // rotates and shifts
    | Rlca(n: u8) | Rla(n: u8) | Rrca(n: u8) | Rra(n: u8)
    | RlcN(sel: u8, n: u8)              // selector (7 for (HL)), value
    | RlN(sel: u8, n: u8)
    | RlHl(n: u8)
    | RrcN(sel: u8, n: u8)
    | RrN(sel: u8, n: u8)
    | SlaN(sel: u8, n: u8)
    | SraN(sel: u8, n: u8)
    | SrlN(sel: u8, n: u8)
    // single-bit operations: mask, value (and selector)
    | BitbR(mask: u8, n: u8)
    | BitbHl(mask: u8, n: u8)
    | SetbR(mask: u8, n: u8, sel: u8)
    | ResbR(mask: u8, n: u8, sel: u8)
    // jumps, calls and returns
    | Jpnn(nn: u16)
    | Jpcc(nn: u16, cond: u8)           // target, condition (NZ = 0, Z = 1, NC = 2, C = 3)
    | JpHl(nn: u16)
    | JrN(e: i8)
    | Jrcc(e: i8, cond: u8)
    | JrZ(e: i8, flag: bool)            // offset, the Z value that makes the jump taken
    | JrC(e: i8, flag: bool)
    | Callnn(nn: u16)
    | Callcc(nn: u16, cond: u8)
    | Rst(n: u8)                        // vector
    | Ret
    | Retcc(cond: u8)
    | Reti
}
