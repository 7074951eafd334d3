# A verified model of a Game Boy emulator core

This project models, in Dafny, the core of a small Game Boy (DMG) emulator
written in Rust, and proves properties of it.

The model covers these parts of the emulator:

- **SM83 CPU.** The register file and the flag helpers. The ALU helpers
  `alu_add`, `alu_sub` and `swap`. `run_instruction`, the opcode decoder with
  its `0xCB` extension table, and the instruction executor `executer`.
- **Memory bus.** `read_byte`, `write_byte` and their I/O dispatch to the
  serial port, the timer and the interrupt flags. Also `from_rom_file` and
  `mmu_section`.
- **Interrupt controller.** The enable and request registers, the priority
  scan and the vector table.
- **Timer.** DIV, TIMA, TMA and TAC, with the falling-edge counter and the
  delayed TIMA reload.
- **Serial port** and the **OAM DMA** start state.
- **PPU memories.** VRAM, the 40 OAM sprites, and the LCD registers with
  their palette decoding.
- **Scanline state machine.** `increment_ly`, `mode_oam`, `mode_transfer`,
  `mode_vblank` and `mode_hblank`.
- **Joypad register.**
- **Cartridge.** The ROM image, its header and the licensee table.

How the model is built:

- **Integers.** Fixed-width Rust integers are `u8`/`u16` subset types of
  `int`. Wrap-around is written out (`Wrap8`, `Wrap16`). A non-wrapping add
  that would overflow is a panic.
- **Flag sets.** Registers kept as `bitflags` sets are `bv8` values.
  `from_bits_truncate` is an explicit mask.
- **Rust structs updated in place.** These are Dafny classes whose methods
  change the fields they name in `modifies`. Each method is proved against a
  pure function of the old state, and the lemmas about that function state
  what the source promises.
- **Instructions.** Each instruction is executed twice in the model:
  - as a function `Exec(regs, bus, ins)` returning an `Outcome`, which is
    the new registers and bus with a cycle count, or a panic;
  - as the method `Executor.ExecuteInstruction`, which updates the CPU and
    MMU objects. Its contract says it agrees with `Exec`.
- **Panics.** The executor's and decoder's panics are explicit outcomes.
  Index panics in the small devices are preconditions.
- **Scenario.** `Scenario.ProgramRuns` follows the program `3E 05 3C 76`
  (LD A,5; INC A; HALT) through `run_instruction` step by step.

Files, one module each: `bits.dfy`, `cpu.dfy`, `instruction.dfy`,
`opcodes.dfy`, `execute.dfy`, `executor.dfy`, `execute_laws.dfy`,
`scenario.dfy`, `mmu.dfy`, `interrupts.dfy`, `timer.dfy`, `serial.dfy`,
`dma.dfy`, `sprite.dfy`, `lcd.dfy`, `ppu.dfy`, `state_machine.dfy`,
`joypad.dfy`, `cartridge.dfy`.

## Model

| member | source | states |
|---|---|---|
| Bits.Wrap8 | src/cpu/mod.rs:160 | `wrapping_add`/`wrapping_sub` on `u8`: the result is congruent to the exact value modulo 2^8 |
| Bits.Wrap16 | src/cpu/execute.rs:195-208 | `wrapping_add` on `u16`: the result is congruent to the exact value modulo 2^16 |
| Bits.WordSplits | src/cpu/mod.rs:125-140 | a 16-bit register pair recombined from its high and low bytes is unchanged |
| Bits.SplitWord | src/cpu/mod.rs:142-145 | `(hi << 8) \| lo` splits back into `hi` (`>> 8`) and `lo` (`& 0xFF`) |
| Bits.AsI8 | src/cpu/opcodes.rs:404 | `n as i8` is the byte's two's-complement reading: it wraps back to the byte |
| Bits.SignExtend | src/cpu/execute.rs:746-750 | an `i8` widened to `u16` is congruent to the signed value modulo 2^16 |
| Bits.FromBv | src/mmu/interrupts.rs:74-79 | `bits()` of a flag set is the byte with the same bits |
| Bits.BvRoundTrip | src/mmu/interrupts.rs:67-79 | a flag set read as a byte and stored back is unchanged |
| Bits.ByteRoundTrip | src/ppu/lcd.rs:176 | a byte stored as a full flag set reads back unchanged |
| Bits.Pow2Doubles | src/mmu/interrupts.rs:30-34 | the table of `1 << k` is 1 at k = 0 and doubles with each further position, so it is 2^k |
| Bits.BitByQuotient | src/timer.rs:140-143 | `(x >> k) & 1 == 1` exactly when `x` modulo 2^(k+1) is at least 2^k |
| Cpu.FlagPositions | src/cpu/mod.rs:69-80 | Z, N, H and C are bits 7, 6, 5 and 4 and together make up the high nibble of F |
| Cpu.WithZ | src/cpu/mod.rs:83-85 | `set_flag_z(b)`: Z reads `b`; N, H, C and the low nibble are kept |
| Cpu.WithN | src/cpu/mod.rs:86-88 | `set_flag_n(b)`: N reads `b`; every other bit is kept |
| Cpu.WithH | src/cpu/mod.rs:89-91 | `set_flag_h(b)`: H reads `b`; every other bit is kept |
| Cpu.WithC | src/cpu/mod.rs:92-94 | `set_flag_c(b)`: C reads `b`; every other bit is kept |
| Cpu.FlagsDetermine | src/cpu/mod.rs:68-94 | two flag bytes that agree on the four flags and the low nibble are equal |
| Cpu.Registers.AF | src/cpu/mod.rs:125-128 | `get_af`: high byte A, low byte F |
| Cpu.Registers.BC | src/cpu/mod.rs:129-132 | `get_bc`: high byte B, low byte C |
| Cpu.Registers.DE | src/cpu/mod.rs:133-136 | `get_de`: high byte D, low byte E |
| Cpu.Registers.HL | src/cpu/mod.rs:137-140 | `get_hl`: high byte H, low byte L |
| Cpu.Registers.SetR8 | src/cpu/execute.rs:7-22 | register `sel` (A = 0 … L = 6) reads `v`; the other six registers, F, SP, PC and the three state bits are kept |
| Cpu.Registers.SetHL | src/cpu/mod.rs:142-145 | `set_hl(x)`: afterwards `get_hl() == x`; only H and L change |
| Cpu.CarryIn | src/cpu/mod.rs:159 | the carry-in is 1 exactly when `carry` is asked for and C is set |
| Cpu.LowNibbleOfWrap | src/cpu/mod.rs:160-162 | wrapping to a byte keeps the low nibble |
| Cpu.LowNibbleOfSum | src/cpu/mod.rs:162 | the low nibble of a sum depends only on the low nibbles of its terms |
| Cpu.CarryOut | src/cpu/mod.rs:160-164 | an 8-bit sum is its wrapped byte plus 0x100 exactly when it exceeds 0xFF, and likewise for the nibble sum and 0x10 |
| Cpu.BorrowOut | src/cpu/mod.rs:169-173 | a difference is its wrapped byte minus 0x100 exactly when it is negative, and likewise for nibbles |
| Cpu.Add8 | src/cpu/mod.rs:158-166 | `alu_add`: the result and C make up the 9-bit sum `a+n+cin`; the low nibble and H make up the nibble sum; Z iff the result is 0; N cleared; low nibble of F kept |
| Cpu.Sub8 | src/cpu/mod.rs:167-175 | `alu_sub`: C is the borrow of `a-n-cin`, H the nibble borrow, Z iff 0, N set |
| Cpu.SwapNibbles | src/cpu/mod.rs:181 | `(n << 4) \| (n >> 4)` exchanges the two nibbles |
| Cpu.SwapInvolution | src/cpu/mod.rs:176-182 | swapping nibbles twice gives the byte back |
| Cpu.Swap | src/cpu/mod.rs:176-182 | `swap`: the nibbles are exchanged; Z iff `n` is 0; N, H and C cleared |
| Cpu.CPU.constructor | src/cpu/mod.rs:49-66 | `CPU::new`: every register 0 and the three state bits false |
| Cpu.CPU.SetFlagZ | src/cpu/mod.rs:83-85 | F becomes `WithZ(old F, b)` |
| Cpu.CPU.SetFlagN | src/cpu/mod.rs:86-88 | F becomes `WithN(old F, b)` |
| Cpu.CPU.SetFlagH | src/cpu/mod.rs:89-91 | F becomes `WithH(old F, b)` |
| Cpu.CPU.SetFlagC | src/cpu/mod.rs:92-94 | F becomes `WithC(old F, b)` |
| Cpu.CPU.SetHL | src/cpu/mod.rs:142-145 | afterwards `get_hl() == hl`; only H and L change |
| Cpu.CPU.SetHalted | src/cpu/mod.rs:150-152 | `halted` becomes `b` |
| Cpu.CPU.SetIme | src/cpu/mod.rs:154-156 | `ime` becomes `b` |
| Cpu.CPU.SetR8 | src/cpu/execute.rs:7-22 | the CPU state becomes `SetR8(sel, v)` of the old state |
| Cpu.CPU.AluAdd | src/cpu/mod.rs:158-166 | returns the sum and leaves the flags of `Add8`; A is not written |
| Cpu.CPU.AluSub | src/cpu/mod.rs:167-175 | returns the difference and leaves the flags of `Sub8`; A is not written |
| Cpu.CPU.SwapOp | src/cpu/mod.rs:176-182 | returns the swapped byte and leaves the flags of `Swap` |
| Opcodes.Selector | src/cpu/opcodes.rs:12-31 | operand column `o` maps to the executor's register numbering, with 7 exactly for the (HL) column |
| Opcodes.BitMaskIsPow2 | src/cpu/opcodes.rs:562-631 | the BIT/RES/SET masks are `1 << k` |
| Opcodes.CbDecoderIsRegular | src/cpu/opcodes.rs:463-805 | every one of the 256 arms of `cb_decoder` follows the grid: operation from bits 7-3, register from bits 2-0, the byte at HL for column 6 |
| Opcodes.CbBitForms | src/cpu/opcodes.rs:562-631 | BIT b: the mask is `1 << ((byte >> 3) & 7)`; column 6 yields `BitbHl` with the byte at HL |
| Opcodes.NopAndHalt | src/cpu/opcodes.rs:343-348 | byte 0x00 decodes to NOP, byte 0x76 to HALT |
| Opcodes.UnmappedBytes | src/cpu/opcodes.rs:457-460 | exactly the eleven holes 0xD3, 0xDB, 0xDD, 0xE3, 0xE4, 0xEB, 0xEC, 0xED, 0xF4, 0xFC and 0xFD reach the panic |
| Opcodes.CbPrefix | src/cpu/opcodes.rs:449-456 | byte 0xCB decodes the next byte with `cb_decoder`, or panics when `pc + 3` overflows |
| Opcodes.RstVectors | src/cpu/opcodes.rs:424-431 | the eight RST bytes carry the vector `byte - 0xC7` |
| Opcodes.JpConditions | src/cpu/opcodes.rs:389-392 | conditional JP carries the condition `(byte >> 3) & 3` and the immediate word |
| Opcodes.JrConditions | src/cpu/opcodes.rs:404-407 | conditional JR carries the condition `(byte >> 3) & 3` and the signed immediate |
| Opcodes.CallConditions | src/cpu/opcodes.rs:416-419 | conditional CALL carries the condition `(byte >> 3) & 3` |
| Opcodes.RetConditions | src/cpu/opcodes.rs:440-443 | conditional RET carries the condition `(byte >> 3) & 3` |
| Opcodes.LoadRegisterForms | src/cpu/opcodes.rs:38-103 | in 0x40-0x6F, outside the `LD r,A` column, the destination is `(byte >> 3) - 8` and the source is the low three bits |
| Opcodes.AluForms | src/cpu/opcodes.rs:179-262 | 0x80-0xBF: the operation is `(byte >> 3) - 16`, the operand is the low three bits |
| Opcodes.DecodeLittleEndian | src/cpu/mod.rs:185-192 | `decode` builds `d16` little-endian: JP nn's target has the byte after the opcode as its low byte |
| Opcodes.DecodeCbPrefix | src/cpu/mod.rs:185-199 | through `decode`, 0xCB decodes the following byte with the extended table |
| Execute.DaaAdjust | src/cpu/execute.rs:557-576 | DAA's `adjust` is one of 0x00, 0x06, 0x60 and 0x66; what the correction achieves is stated by `ExecuteLaws.DaaAfterAdd` and `ExecuteLaws.DaaAfterSub` |
| Execute.ShiftLeft | src/cpu/execute.rs:649-671 | `(v << 1) \| bit0` drops bit 7 and puts `bit0` in bit 0 |
| Execute.ShiftRightArith | src/cpu/execute.rs:706-729 | the arithmetic shift right keeps bit 7 and moves the other bits down |
| ExecuteLaws.SetPairReads | src/cpu/execute.rs:167-194 | writing a 16-bit register reads back; the other three pairs are kept |
| ExecuteLaws.SetPairOwn | src/cpu/execute.rs:167-194 | writing a pair's own value changes nothing |
| ExecuteLaws.NopAdvances | src/cpu/execute.rs:593 | NOP: `pc + 1`, one cycle, nothing else changes |
| ExecuteLaws.NoPcAdvance | src/cpu/execute.rs:557-619 | DAA, HALT, DI, EI and LD (nn),SP leave `pc` on the same byte |
| ExecuteLaws.HaltIsInert | src/cpu/execute.rs:595-615 | HALT spends one cycle and changes nothing, `halted` included |
| ExecuteLaws.CompareForms | src/cpu/execute.rs:402-416 | the three CP forms go through `alu_sub` without carry; their lengths and cycle counts |
| ExecuteLaws.CompareKeepsA | src/cpu/execute.rs:402-406 | CP keeps A and memory; Z iff A equals the operand, N set, C iff A is below it |
| ExecuteLaws.LogicForms | src/cpu/execute.rs:307-401 | AND, OR and XOR forms select their operator |
| ExecuteLaws.LogicFlagsLaw | src/cpu/execute.rs:307-401 | A receives the bitwise result; Z iff 0; N and C cleared; H set only for AND |
| ExecuteLaws.StepPairInverse | src/cpu/execute.rs:502-531 | INC rr then DEC rr restores every register; each takes 2 cycles |
| ExecuteLaws.SetPairInverse | src/cpu/execute.rs:502-531 | writing a pair back one below the value it was stepped up to gives the original registers back, with 16-bit wrap-around at both ends |
| ExecuteLaws.PairIgnoresPc | src/cpu/execute.rs:167-194 | the 16-bit register pairs do not involve `pc` |
| ExecuteLaws.BitTest | src/cpu/execute.rs:730-745 | BIT: Z iff the tested bit is clear; N cleared; H set; C kept |
| ExecuteLaws.BitForms | src/cpu/execute.rs:730-745 | BIT b,r takes 2 cycles, BIT b,(HL) takes 4; both advance `pc` by 2 and change only F |
| ExecuteLaws.UnhandledPanics | src/cpu/execute.rs:796-799 | every form the decoder builds without an `executer` arm (`Unhandled`) reaches the fallback panic |
| ExecuteLaws.PackedRoundTrip | src/cpu/execute.rs:557-576 | packing a number below 100 into two BCD digits and reading it back gives the number |
| ExecuteLaws.DaaAddDigits | src/cpu/execute.rs:557-576 | after adding two digit pairs, the high correction is due exactly when the decimal sum reaches 100, and the corrected byte is the packed sum modulo 100 |
| ExecuteLaws.DaaSubDigits | src/cpu/execute.rs:557-576 | after subtracting digit pairs, the borrow is set exactly when the decimal difference is negative, and the corrected byte is the packed difference modulo 100 |
| ExecuteLaws.DaaAddBcd | src/cpu/execute.rs:557-576 | the byte-level form of `DaaAddDigits` on two packed-BCD bytes |
| ExecuteLaws.DaaSubBcd | src/cpu/execute.rs:557-576 | the byte-level form of `DaaSubDigits` on two packed-BCD bytes |
| ExecuteLaws.DaaRegsAdd | src/cpu/execute.rs:557-576 | after an addition DAA adds the correction with wrapping, C reports the high correction, H is cleared and Z tests A |
| ExecuteLaws.DaaRegsSub | src/cpu/execute.rs:557-576 | after a subtraction DAA subtracts the correction with wrapping and keeps C, H is cleared and Z tests A |
| ExecuteLaws.DaaAfterAdd | src/cpu/execute.rs:557-576 | ADD of two packed-BCD bytes then DAA leaves A the packed decimal sum modulo 100, C iff the sum reaches 100, Z iff A is 0, H clear |
| ExecuteLaws.DaaAfterSub | src/cpu/execute.rs:557-576 | SUB of two packed-BCD bytes then DAA leaves A the packed decimal difference modulo 100, C iff it borrowed, Z iff A is 0, H clear |
| ExecuteLaws.RelativeJump | src/cpu/execute.rs:746-773 | a taken jump adds the signed offset with wrapping; then the non-wrapping `pc += 2` panics past 0xFFFF |
| ExecuteLaws.JumpConditions | src/cpu/execute.rs:746-773 | JR always jumps; JR Z/NZ tests Z; JR C/NC tests N. The decoder builds `Jrcc` for every conditional JR, so the `JrZ`/`JrC` arms are not reached from `decode` (see `Scenario.JrNzPanics`) |
| ExecuteLaws.LoadHlSpOffset | src/cpu/execute.rs:195-208 | LD HL,SP+e: HL gets `sp + e` with wrapping; SP, Z and N are kept; e = -128 panics in `abs()` |
| ExecuteLaws.AddToHlLaw | src/cpu/execute.rs:490-500 | ADD HL,rr: the wrapped sum; C iff it carries out of bit 15; N cleared; H is bit 10 of the old HL |
| ExecuteLaws.LoadCFromHighPage | src/cpu/execute.rs:108-116 | byte 0xE2 loads C from `0xFF00 + A` and writes no memory |
| ExecuteLaws.RotateALaw | src/cpu/execute.rs:624-648 | RLCA/RLA: A is shifted left with bit 7 or the old C shifted in; C gets the old bit 7; Z, N and H cleared |
| ExecuteLaws.TwoStores | src/mmu.rs:41-55 | two bytes written to distinct plain addresses both read back |
| ExecuteLaws.StackSlots | src/cpu/execute.rs:215-243 | the two slots below SP are distinct and one step apart with wrap-around |
| ExecuteLaws.PopIntoOwn | src/cpu/execute.rs:225-243 | popping a pair's own bytes back into it changes nothing |
| ExecuteLaws.PushStores | src/cpu/execute.rs:215-223 | PUSH: SP drops by 2; the high byte goes to SP-1 and the low byte to SP-2; 4 cycles |
| ExecuteLaws.PushPopRoundTrip | src/cpu/execute.rs:215-243 | PUSH rr then POP rr restores every register and SP; only `pc` moves, by 2 |
| ExecuteLaws.PopAfterPush | src/cpu/execute.rs:225-243 | POP over the bytes a PUSH of the same pair stored gives the registers back |
| ExecuteLaws.PopReads | src/cpu/execute.rs:225-243 | POP: the pair receives the two bytes at SP and SP+1, and SP steps over them |
| ExecuteLaws.CallThenReturn | src/cpu/execute.rs:774-795 | CALL pushes the return address and jumps; RET comes back to it, but SP ends one below its start |
| Executor.LoadAOp | src/cpu/execute.rs:24-35 | `LdAR2` agrees with its specification, the selector matched after `pc += 1` |
| Executor.SelectLoadOp | src/cpu/execute.rs:77-92 | `LdN`/`LdnA` agree with their specification |
| Executor.StoreOp | src/cpu/execute.rs:93-102 | a store goes through `write_byte`, then `pc` advances |
| Executor.FetchOp | src/cpu/execute.rs:36-40 | a register receives `read_byte(address)`, then `pc` advances |
| Executor.FetchStepHlOp | src/cpu/execute.rs:117-124 | `LddAHl`/`LdIAHl` agree with their specification |
| Executor.StoreStepHlOp | src/cpu/execute.rs:125-135 | `LddHlA`/`LdIHlA` agree with their specification |
| Executor.PairOp | src/cpu/execute.rs:167-194 | the 16-bit loads write the selected pair, then `pc` advances |
| Executor.StepPairOp | src/cpu/execute.rs:502-531 | `IncNN`/`DecNN` agree with their specification |
| Executor.LoadHlSpOp | src/cpu/execute.rs:195-208 | `LdHlSp` agrees with its specification |
| Executor.StoreSpOp | src/cpu/execute.rs:209-214 | `LdnnSp`: two writes and no change to `pc` |
| Executor.PushOp | src/cpu/execute.rs:215-223 | `Pushnn` agrees with its specification |
| Executor.PopOp | src/cpu/execute.rs:225-243 | `Popnn` agrees with its specification; both reads happen before the selector is matched |
| Executor.ArithOp | src/cpu/execute.rs:245-306 | ADD/ADC/SUB/SBC/CP agree with `Arith`; A is written unless comparing |
| Executor.BitwiseOp | src/cpu/execute.rs:307-401 | AND/OR/XOR agree with `Logic` |
| Executor.IncRegisterOp | src/cpu/execute.rs:418-438 | `IncN` agrees with its specification |
| Executor.DecRegisterOp | src/cpu/execute.rs:452-474 | `DecN` agrees with its specification |
| Executor.StepMemoryOp | src/cpu/execute.rs:440-489 | `IncHl`/`DecHl`: read, write back stepped by one, then the flags |
| Executor.AddHlOp | src/cpu/execute.rs:490-500 | `AddHlN` agrees with `AddToHl`, in 2 cycles |
| Executor.SwapRegisterOp | src/cpu/execute.rs:534-550 | `SwapN` agrees with its specification |
| Executor.SwapMemoryOp | src/cpu/execute.rs:551-556 | `SwapHl` agrees with its specification |
| Executor.DaaValue | src/cpu/execute.rs:557-576 | DAA's correction is `DaaAdjust`, subtracted after a subtraction and added otherwise, with wrapping |
| Executor.DaaOp | src/cpu/execute.rs:557-576 | `Daa` agrees with `DaaRegs`; `pc` is not advanced |
| Executor.DaaRegsIs | src/cpu/execute.rs:557-576 | `DaaRegs` writes the corrected A, C from the high correction, H clear and Z from the new A |
| Executor.SetFlagsChz | src/cpu/execute.rs:571-573 | C, H and Z written in that order; every other bit and register kept |
| Executor.CplOp | src/cpu/execute.rs:578-584 | `Cpl`: A receives the complement; N and H set |
| Executor.ScfOp | src/cpu/execute.rs:585-592 | `Scf`: N and H cleared, C set |
| Executor.RotateAOp | src/cpu/execute.rs:624-648 | `Rlca`/`Rla` agree with `RotateA` |
| Executor.RotateRegisterOp | src/cpu/execute.rs:649-671 | `RlN` agrees with its specification |
| Executor.RotateMemoryOp | src/cpu/execute.rs:672-682 | `RlHl` agrees with its specification |
| Executor.ShiftOp | src/cpu/execute.rs:683-729 | `SlaN`/`SraN` agree with `Shift` |
| Executor.BitOp | src/cpu/execute.rs:730-745 | BIT changes only F, to `BitFlags`, then `pc += 2` |
| Executor.JumpOp | src/cpu/execute.rs:746-773 | JR agrees with `JumpIf` |
| Executor.CallOp | src/cpu/execute.rs:774-784 | `Callnn` agrees with `Call` |
| Executor.ReturnOp | src/cpu/execute.rs:786-795 | `Ret` agrees with `Return` |
| Executor.ExecuteLoadImmediate | src/cpu/execute.rs:7-45 | the immediate and A-selector loads agree with `ExecLoadImmediate` |
| Executor.ExecuteLoadRegister | src/cpu/execute.rs:46-76 | `LD B/C/D/E/H/L,r` agree with `ExecLoadRegister` |
| Executor.ExecuteLoadMemory | src/cpu/execute.rs:93-166 | the absolute and high-page loads and stores agree with `ExecLoadMemory` |
| Executor.ExecuteLoadHlStep | src/cpu/execute.rs:117-154 | LDD/LDI agree with `ExecLoadHlStep` |
| Executor.ExecuteLoadPair | src/cpu/execute.rs:167-194 | the 16-bit immediate loads agree with `ExecLoadPair` |
| Executor.ExecuteStack | src/cpu/execute.rs:195-243 | LD HL,SP+e, LD (nn),SP, PUSH and POP agree with `ExecStack` |
| Executor.ExecuteArith | src/cpu/execute.rs:245-306 | ADD/ADC/SUB/SBC/CP agree with `ExecArith` |
| Executor.ExecuteLogic | src/cpu/execute.rs:307-401 | AND/OR/XOR agree with `ExecLogic` |
| Executor.ExecuteIncDec | src/cpu/execute.rs:418-489 | 8-bit INC/DEC agree with `ExecIncDec` |
| Executor.ExecuteWide | src/cpu/execute.rs:490-531 | ADD HL,rr and INC/DEC rr agree with `ExecWide` |
| Executor.ExecuteMisc | src/cpu/execute.rs:534-592 | SWAP, DAA, CPL and SCF agree with `ExecMisc` |
| Executor.ExecuteControl | src/cpu/execute.rs:593-619 | NOP, HALT, DI and EI agree with `ExecControl` |
| Executor.ExecuteRotate | src/cpu/execute.rs:624-682 | RLCA, RLA and RL agree with `ExecRotate` |
| Executor.ExecuteShiftBit | src/cpu/execute.rs:683-745 | SLA, SRA and BIT agree with `ExecShiftBit` |
| Executor.ExecuteJump | src/cpu/execute.rs:746-795 | JR, CALL and RET agree with `ExecJump` |
| Executor.ExecuteInstruction | src/cpu/execute.rs:4-802 | `executer`: the returned cycles, or the panic, and the new CPU and bus agree with `Exec` |
| Executor.RunInstruction | src/cpu/mod.rs:206-216 | `run_instruction`: the opcode at `pc` is decoded and executed, in agreement with `Step` |
| Scenario.StepDecoded | src/cpu/mod.rs:206-216 | a step executes whatever the byte at `pc` decodes to |
| Scenario.FirstStep | src/cpu/opcodes.rs:19 | LD A,5 at address 0: A = 5, `pc` = 2, 2 cycles |
| Scenario.IncrementFive | src/cpu/execute.rs:418-438 | INC A with A = 5: A = 6; Z, N and H clear; C kept; 1 cycle |
| Scenario.SecondStep | src/cpu/execute.rs:418-438 | INC A at address 2: A = 6, `pc` = 3, Z clear |
| Scenario.HaltWaits | src/cpu/execute.rs:595-615 | HALT changes nothing, `pc` included, and takes 1 cycle |
| Scenario.ThirdStep | src/cpu/execute.rs:595-615 | HALT at address 3: nothing changes |
| Scenario.ProgramRuns | src/cpu/mod.rs:206-216 | the three steps of `3E 05 3C 76` from `pc = 0`: A = 6, Z clear, memory unchanged, and every later step stays on the HALT |
| Scenario.JrNzPanics | src/cpu/execute.rs:796-799 | a step on byte 0x20 (JR NZ) decodes to `Jrcc`, which has no `executer` arm, and reaches the fallback panic |
| Mmu.StoreIo | src/mmu.rs:67-78 | `write_io` keeps the bus well-formed |
| Mmu.Store | src/mmu.rs:49-55 | `write_byte` keeps the bus well-formed |
| Mmu.PlainCellRoundTrip | src/mmu.rs:49-55 | outside the device registers, a write changes exactly one cell and reads back |
| Mmu.WriteOutsideIoIsLocal | src/mmu.rs:41-55 | a write outside 0xFF00-0xFF7F reads back and disturbs no other address |
| Mmu.DivWriteReadsZero | src/mmu.rs:71 | any write to DIV resets it, so it reads 0 |
| Mmu.RequestedRoundTrip | src/mmu.rs:63-75 | IF at 0xFF0F round-trips all eight bits through the interrupt controller, not through RAM |
| Mmu.SerialRoundTrip | src/mmu.rs:60-70 | SB round-trips; SC reads back as `value & 0x83` |
| Mmu.EnableRegisterIsPlainCell | src/mmu.rs:41-55 | IE at 0xFFFF is a plain RAM cell on this bus |
| Mmu.LoadRom | src/mmu.rs:80-87 | `from_rom_file` keeps the bus well-formed |
| Mmu.LoadRomCopies | src/mmu.rs:80-87 | a file that ends below the I/O window lands verbatim from address 0; the rest of memory and every device are untouched |
| Mmu.MmuSection | src/mmu.rs:89-120 | `mmu_section`: the I/O, IE, HRAM, ROM0 and OAM names hold exactly on their ranges |
| Mmu.MMU.State | src/mmu.rs:23-28 | the bus as a value is well-formed |
| Mmu.MMU.constructor | src/mmu.rs:31-39 | `MMU::new`: zeroed RAM and the default devices |
| Mmu.MMU.ReadIo | src/mmu.rs:58-66 | `read_io` returns `LoadIo` of the bus |
| Mmu.MMU.ReadByte | src/mmu.rs:41-47 | `read_byte` returns `Load` of the bus |
| Mmu.MMU.WriteIo | src/mmu.rs:67-78 | the bus becomes `StoreIo(old, address, value)` |
| Mmu.MMU.WriteByte | src/mmu.rs:49-55 | the bus becomes `Store(old, address, value)` |
| Mmu.MMU.FromRomFile | src/mmu.rs:80-87 | the bus becomes `LoadRom(old, rom)`; the `u16` index limits the file to below 64 KiB |
| Interrupts.Index | src/mmu/interrupts.rs:6-12 | five sources, in priority order |
| Interrupts.Of | src/mmu/interrupts.rs:16-24 | `try_from(k).unwrap()` for k < 5 names the source with index `k` |
| Interrupts.TryFrom | src/mmu/interrupts.rs:13-26 | `try_from(v)` is `Ok` exactly for v < 5, naming the source with index `v` |
| Interrupts.IndexOfInjective | src/mmu/interrupts.rs:13-26 | index and `try_from` are inverse |
| Interrupts.Mask | src/mmu/interrupts.rs:28-49 | each source's flag is `1 << index` |
| Interrupts.WithRequest | src/mmu/interrupts.rs:166-168 | `requested.insert(t)` ORs in `t`'s bit |
| Interrupts.WithoutRequest | src/mmu/interrupts.rs:84 | `requested & !bit` clears `t`'s bit |
| Interrupts.HighestFrom | src/mmu/interrupts.rs:111-121 | the scan from index `k` returns the first pending source at `k` or later, or `None` if there is none |
| Interrupts.HighestIsFirstPending | src/mmu/interrupts.rs:100-121 | the highest interrupt is pending and no pending source outranks it; `None` iff nothing is pending |
| Interrupts.Address | src/mmu/interrupts.rs:123-131 | the vectors are 0x40 + 8·index |
| Interrupts.Interrupts.constructor | src/mmu/interrupts.rs:56-64 | nothing enabled, nothing requested |
| Interrupts.Interrupts.WriteEnabled | src/mmu/interrupts.rs:67-69 | the whole byte is stored and read back |
| Interrupts.Interrupts.WriteRequested | src/mmu/interrupts.rs:70-72 | the whole byte is stored and read back |
| Interrupts.Interrupts.IntCheck | src/mmu/interrupts.rs:91-98 | true iff the source is both requested and enabled; nothing changes |
| Interrupts.Interrupts.IntCheckRemove | src/mmu/interrupts.rs:81-90 | when pending: clears the request bit, un-halts the CPU and clears IME; otherwise changes nothing |
| Interrupts.Interrupts.PeekHighestInterrupt | src/mmu/interrupts.rs:111-121 | returns `Highest(enabled, requested)` |
| Interrupts.Interrupts.GetHighestInterrupt | src/mmu/interrupts.rs:100-109 | returns what peek would, and acknowledges it as `int_check_remove` does |
| Interrupts.Interrupts.InterruptAddresses | src/mmu/interrupts.rs:123-131 | the vector of source `t` |
| Interrupts.Interrupts.RequestInterrupt | src/mmu/interrupts.rs:166-168 | `requested` becomes `WithRequest(old, t)` |
| Interrupts.RequestSetsOnlyItsBit | src/mmu/interrupts.rs:166-168 | a request sets its own bit and keeps every other source's bit and the unused bits |
| Interrupts.RequestMakesPending | src/mmu/interrupts.rs:91-98 | requesting an enabled source makes it pending |
| Interrupts.AcknowledgeKeepsOthers | src/mmu/interrupts.rs:81-90 | acknowledging one source leaves every other source's pending status |
| Timer.FreqDividerBit | src/timer.rs:16-24 | TAC 0-3 select divider bits 9, 3, 5 and 7: periods of 1024, 16, 64 and 256 steps |
| Timer.TruncateControl | src/timer.rs:4-10 | `from_bits_truncate` for TAC clears bits 3 and 4 and keeps the rest |
| Timer.FallingEdge | src/timer.rs:125-134 | the selected bit falls on a divider step exactly when the new divider is a multiple of 2^(k+1) |
| Timer.FallingEdgeAtWrap | src/timer.rs:128 | at the 0xFFFF to 0 wrap every bit below 15 falls |
| Timer.FallingEdgeWithinPeriod | src/timer.rs:125-134 | within a period the bit cannot fall |
| Timer.FallingEdgeAtPeriodEnd | src/timer.rs:125-134 | at the end of a period the bit falls |
| Timer.ZeroDividerBitClear | src/timer.rs:70-78 | after DIV is reset the selected bit is clear |
| Timer.Increment | src/timer.rs:136-139 | TIMA wraps; `interrupt_next` iff it wrapped to 0; nothing else changes |
| Timer.WriteDivReadsZero | src/timer.rs:52-78 | after a DIV write the divider is 0 and DIV reads 0 |
| Timer.WriteDivAdvancesOnSelectedBit | src/timer.rs:70-78 | a DIV write advances TIMA exactly when the selected bit was 1, even with the timer disabled |
| Timer.WriteCounterEffect | src/timer.rs:79-91 | a TIMA write cancels a pending reload and loses to TMA during the reload tick |
| Timer.WriteModuloEffect | src/timer.rs:92-100 | a TMA write reads back, and during the reload tick also lands in TIMA |
| Timer.WriteControlReadsMasked | src/timer.rs:101-114 | TAC reads back as `data & 0xE7` |
| Timer.TickBookkeeping | src/timer.rs:115-135 | a tick advances DIV, raises the interrupt exactly when one was pending, and marks the reload tick |
| Timer.TickAdvancesOnPeriod | src/timer.rs:125-134 | outside the reload, TIMA advances exactly when enabled and the new divider ends a period |
| Timer.OverflowInterruptsOneTickLate | src/timer.rs:115-139 | TIMA overflow requests the interrupt one tick late, reloading TIMA from TMA |
| Timer.Timer.constructor | src/timer.rs:36-49 | `Timer::default`: divider 0xABCC, everything else 0 or false |
| Timer.Timer.IncrementTimer | src/timer.rs:136-139 | the state becomes `Increment(old)` |
| Timer.Timer.WriteDiv | src/timer.rs:70-78 | the state becomes `AfterWriteDiv(old)` |
| Timer.Timer.WriteCounter | src/timer.rs:79-91 | the state becomes `AfterWriteCounter(old, data)` |
| Timer.Timer.WriteModulo | src/timer.rs:92-100 | the state becomes `AfterWriteModulo(old, data)` |
| Timer.Timer.WriteControl | src/timer.rs:101-114 | the state becomes `AfterWriteControl(old, data)` |
| Timer.Timer.Ticks | src/timer.rs:115-135 | the state becomes `Tick(old).next`; the Timer interrupt is requested iff `interrupt_next` was set |
| Serial.TruncateControl | src/mmu/serial.rs:3-10 | SC keeps bits 0, 1 and 7 and clears bits 2-6 |
| Serial.ControlRoundTrips | src/mmu/serial.rs:27-35 | a written control byte reads back unchanged exactly when bits 2-6 are clear (0x81, start on the internal clock, is one) |
| Serial.Serial.constructor | src/mmu/serial.rs:18-23 | data and control are 0 |
| Serial.Serial.GetControl | src/mmu/serial.rs:27-29 | `get_control` returns the control bits as a byte |
| Serial.Serial.WriteData | src/mmu/serial.rs:30-32 | SB reads back `v`; SC is untouched |
| Serial.Serial.WriteControl | src/mmu/serial.rs:33-35 | SC reads back `v & 0x83`; SB is untouched |
| Dma.Started | src/mmu/dma.rs:12-18 | `dma_start`: address byte 0, delay 2, in transfer, value `start` |
| Dma.OamDma.constructor | src/mmu/dma.rs:3-9 | the default state is all zero and false |
| Dma.OamDma.DmaStart | src/mmu/dma.rs:12-23 | the state becomes `Started(start)`, so `read_register` gives 0 |
| Dma.StartRecordsPage | src/mmu/dma.rs:12-23 | two starts leave the same state exactly when their pages agree; a started state differs from the default, yet `read_register` reads 0 in both |
| Sprites.FlagsOf | src/ppu/sprite.rs:12-21 | the sprite flags cover all eight bits, so `from_bits_truncate` loses nothing |
| Sprites.SetThenGet | src/ppu/sprite.rs:32-51 | a byte set at an offset reads back from it |
| Sprites.SetKeepsOthers | src/ppu/sprite.rs:32-51 | setting one offset keeps the other three bytes |
| Sprites.SetOwnIsIdentity | src/ppu/sprite.rs:32-51 | setting an offset to its own byte changes nothing |
| Sprites.SetFlags | src/ppu/sprite.rs:74-79 | `set_flags(d)`: `flags()` reads `d`; Y, X and tile are kept |
| Lcd.ControlBits | src/ppu/lcd.rs:10-71 | the eight LCDC accessors read bits 7 to 0 |
| Lcd.StatusDropsBit7 | src/ppu/lcd.rs:73-82 | a STAT write reads back below 0x80, and unchanged when below 0x80 |
| Lcd.StatusKeepsMode | src/ppu/lcd.rs:105-107 | a STAT write keeps the written mode bits |
| Lcd.EqualsFlagSet | src/ppu/lcd.rs:101-103 | bit 2 becomes `b`; every other bit is kept |
| Lcd.LowBits | src/ppu/lcd.rs:105-107 | the two low bits of a byte are its remainder by 4 |
| Lcd.CurrentModeSet | src/ppu/lcd.rs:109-114 | the mode bits become `data & 3` (the source's assertion); bits 2-6 are kept; bit 7 is dropped |
| Lcd.ModeOf | src/ppu/lcd.rs:3-8 | the mode the STAT mode bits name |
| Lcd.ModeSetNamesMode | src/ppu/lcd/state_machine.rs:29-30 | setting a mode's value makes STAT name that mode |
| Lcd.EqualsFlagKeepsMode | src/ppu/lcd.rs:101-103 | changing the coincidence flag keeps the mode and the four interrupt-select bits |
| Lcd.ShadeOf | src/ppu/lcd.rs:194 | `(d >> 2i) & 3` is a shade index below 4 |
| Lcd.PaletteColors | src/ppu/lcd.rs:191-201 | a palette decodes to four colours |
| Lcd.ShadeIsDigit | src/ppu/lcd.rs:194 | the shade index `i` is base-4 digit `i` of the palette byte |
| Lcd.PaletteDecodesShades | src/ppu/lcd.rs:191-201 | four shades packed into a byte, entry 0 lowest, decode back to their colours |
| Lcd.SpritePaletteEntryZero | src/ppu/lcd.rs:183-184 | sprite palettes are decoded from `value & 0xFC`, so entry 0 is always the lightest colour |
| Lcd.WriteReadsBack | src/ppu/lcd.rs:157-189 | every register reads back what was written, except STAT, which loses bit 7 |
| Lcd.WriteKeepsOthers | src/ppu/lcd.rs:157-189 | a write changes no other register |
| Lcd.Lcd.constructor | src/ppu/lcd.rs:136-154 | LCDC 0x91, STAT 4, BGP 0xFC, OBP 0xFF, the rest 0, and the three colour tables |
| Lcd.Lcd.SetCoincidence | src/ppu/lcd.rs:101-103 | STAT becomes `EqualsFlagSet(old, b)`; the mode and the select bits are kept |
| Lcd.Lcd.SetMode | src/ppu/lcd.rs:109-114 | STAT becomes `CurrentModeSet(old, mode)` and names that mode; bits 2-6 are kept |
| Lcd.Lcd.UpdatePalette | src/ppu/lcd.rs:191-201 | `sp1_colors` if `pal_1`, else `sp2_colors`, becomes `PaletteColors(d)` |
| Lcd.Lcd.LcdWrite | src/ppu/lcd.rs:174-189 | the registers become `Write(old, address, v)`; BGP redecodes `sp2_colors`; OBP0/OBP1 redecode `sp1_colors` from `v & 0xFC`; `bg_colors` never changes |
| Ppu.OamIndex | src/ppu.rs:38 | `address & 0xFF` is below 0x100 |
| Ppu.OamWrite | src/ppu.rs:42-46 | `write_oam` keeps the 40 sprites |
| Ppu.OamRoundTrip | src/ppu.rs:37-46 | a byte written to OAM reads back from the same address |
| Ppu.OamWriteKeepsOthers | src/ppu.rs:37-46 | an OAM write changes no byte with another index |
| Ppu.OamIgnoresHighByte | src/ppu.rs:38-43 | addresses with the same low byte reach the same OAM byte |
| Ppu.Ppu.constructor | src/ppu.rs:19-27 | VRAM zeroed, every sprite the default one, and the LCD registers and colour tables at `Lcd::default`'s values (LCDC 0x91, STAT 4, BGP 0xFC, both sprite palettes 0xFF, the rest 0) |
| Ppu.Ppu.WriteVram | src/ppu.rs:30-35 | only byte `address - 0x8000` changes, and it reads back `v` |
| Ppu.Ppu.WriteOam | src/ppu.rs:42-46 | OAM becomes `OamWrite(old, address, d)`, and the byte reads back |
| StateMachine.WindowTestOverflows | src/ppu/lcd/state_machine.rs:11-12 | with WY = LY = 120 the `u8` sum `window_y + 144` overflows, while the window line should count |
| StateMachine.WindowTestAgrees | src/ppu/lcd/state_machine.rs:11-12 | the test overflows exactly when visible, reached and WY ≥ 112; otherwise it agrees with `WindowLineCounts` |
| StateMachine.StepKeepsConsistent | src/ppu/lcd/state_machine.rs:27-96 | every mode step keeps LY within the frame and in step with the mode |
| StateMachine.LyBoundAloneNotKept | src/ppu/lcd/state_machine.rs:75-96 | HBlank at LY 153, reachable only out of step, moves to 154 |
| StateMachine.FrameBoundaries | src/ppu/lcd/state_machine.rs:62-96 | in step, VBlank starts only after line 143, and the frame wraps only after line 153 |
| StateMachine.IncrementLy | src/ppu/lcd/state_machine.rs:10-25 | LY + 1; the coincidence flag iff LY = LYC; LCD STAT requested only then and if enabled; the window line counts as `WindowLineCounts` |
| StateMachine.ModeOam | src/ppu/lcd/state_machine.rs:27-37 | from dot 80, STAT goes to transfer and the fetcher restarts at position 0 |
| StateMachine.ModeTransfer | src/ppu/lcd/state_machine.rs:47-60 | once 160 pixels are pushed, HBlank, with LCD STAT if its HBlank source is enabled |
| StateMachine.ModeVBlank | src/ppu/lcd/state_machine.rs:62-73 | at dot 456, LY advances; STAT's coincidence bit then says whether the new LY equals LYC, the select bits are kept, and the window line counts as `WindowLineCounts`; at 154 the frame restarts at line 0 in OAM with window line 0 |
| StateMachine.StatAfterLine | src/ppu/lcd/state_machine.rs:10-25 | after the LY = LYC check and any mode change, STAT's bit 2 says whether LY equals LYC and bits 3-6 are those of before |
| StateMachine.NextLineMode | src/ppu/lcd/state_machine.rs:75-96 | from line 144 VBlank with its interrupt, LCD STAT if enabled, and a frame count; otherwise OAM; STAT's bits 2-6 kept |
| StateMachine.ModeHBlank | src/ppu/lcd/state_machine.rs:75-96 | at dot 456, LY advances, STAT's coincidence bit says whether the new LY equals LYC, the select bits are kept and the window line counts as `WindowLineCounts`; from line 144, VBlank with its interrupt, LCD STAT if enabled, and a frame count; otherwise OAM |
| Joypad.Position | src/joypad.rs:14-26 | Start is bit 7 down to Right at bit 0 |
| Joypad.Mask | src/joypad.rs:28-41 | a button's flag is `1 << position` |
| Joypad.MasksDisjoint | src/joypad.rs:14-26 | distinct buttons own distinct bits |
| Joypad.Pressed | src/joypad.rs:85-87 | `press_joypad`: the button's bit is cleared, the others kept |
| Joypad.Released | src/joypad.rs:89-91 | `release_joypad`: the button's bit is set, the others kept |
| Joypad.PressReleaseIdempotent | src/joypad.rs:85-91 | pressing or releasing twice equals once |
| Joypad.ReleaseUndoesPress | src/joypad.rs:85-91 | releasing a pressed button restores a set in which it was released |
| Joypad.PressReleaseCommute | src/joypad.rs:85-91 | pressing one button and releasing another commute |
| Joypad.Read | src/joypad.rs:67-78 | `read_joypad` never sets bits 4 and 5 |
| Joypad.ReadWithinMask | src/joypad.rs:67-78 | the read is a bitwise subset of 0xCF, and exactly 0xCF with both lines deselected |
| Joypad.ReadGroups | src/joypad.rs:67-78 | with one line selected, low bit `k` reads 0 iff button bit `k + 4` (buttons) or `k` (directions) is set |
| Joypad.JoyPad.constructor | src/joypad.rs:49-57 | both lines deselected, no bit set; P1 reads 0xCF |
| Joypad.JoyPad.WriteJoypad | src/joypad.rs:80-83 | bit 5 clear selects the buttons, bit 4 clear selects the directions |
| Joypad.JoyPad.PressJoypad | src/joypad.rs:85-87 | `buttons` becomes `Pressed(old, b)` |
| Joypad.JoyPad.ReleaseJoypad | src/joypad.rs:89-91 | `buttons` becomes `Released(old, b)` |
| Cartridge.GetLic | src/cartridge.rs:109-173 | the name table: "UNKNOWN" for every code above 0xA4; never empty |
| Cartridge.LicName | src/cartridge.rs:101-107 | "UNKNOWN" above 0xA4, otherwise the table's name |
| Cartridge.LicNameAgrees | src/cartridge.rs:101-173 | the guard in `lic_name` changes no answer: both lookups agree on every byte |
| Cartridge.TableEnds | src/cartridge.rs:112-171 | 0x01 is "Nintendo R&D1" and 0xA4 is "Konami (Yu-Gi-Oh!)" |
| Cartridge.KonamiTwice | src/cartridge.rs:134-142 | Konami is listed under both 0x34 and 0x54 |
| Cartridge.GapsUnknown | src/cartridge.rs:172 | unlisted codes in range, such as 0x02 and 0xA3, are "UNKNOWN" |
| Cartridge.Cartridge.constructor | src/cartridge.rs:18-49 | no ROM or RAM, every header byte 0 |
| Cartridge.Cartridge.FromRomFile | src/cartridge.rs:51-55 | the ROM becomes the old ROM followed by the file, and `read_cart` returns each new byte |
| Cartridge.Cartridge.LoadHeader | src/cartridge.rs:61-68 | byte `i` goes to `entry[i]` for i < 4, else to `logo[i]` at the absolute index; `logo[0..3]` is never written |

## Findings

| source | as written | input that shows it | evidently intended | confidence | as-written member | corrected member |
|---|---|---|---|---|---|---|
| src/ppu/lcd/state_machine.rs:11-12 | `ppu.lcd.ly < ppu.lcd.window_y + YRES as u8` adds in `u8`. For WY ≥ 112 the sum exceeds 255 and panics in a debug build, or wraps in release. | window visible, WY = 120, LY = 120 | count the window line while `WY ≤ LY < WY + 144`, computed without overflow | not executed | StateMachine.WindowTestOverflows | StateMachine.WindowTestAgrees |

`StateMachine.WindowTestAsWritten` models the comparison as written: `None`
stands for the overflow. `StateMachine.WindowLineCounts` is the intended
test, and `StateMachine.IncrementLy` uses it.

## Left out

- I/O and the driver: `main.rs` file loading, the infinite loop, and the
  `println!` calls in `run_instruction` and `JrC` are not modelled.
- `src/cpu.rs` and `src/decoder.rs` are earlier drafts that the live code
  does not call; `src/instruction.rs` is a stale enum. The instruction
  datatype follows the decoder (`src/cpu/opcodes.rs`) and the executor.
- `src/ppu/fifo.rs`, `src/dbg.rs` and `src/rustPract.rs` are not part of
  this model.
- The pixel FIFO is not modelled:
  - `pipeline_process` and `pipeline_reset`;
  - the sprite selection at dot 1 (`selected_oam_reset`, `sprite_count`,
    `load_sprites`).
  `ModeTransfer` takes the push position as it finds it.
- `window_visible()` is not shown in the source. It is a parameter of
  `IncrementLy`, `ModeVBlank` and `ModeHBlank`.
- PPU fields that the shown struct does not declare have assumed types:
  `window_line` (int), `line_ticks`, `current_frame` and the fetcher
  positions. `Ppu.Ppu.constructor` leaves them unspecified.
- `mode_value(m)` is not shown. It is taken as the enum's discriminant
  (HBLANK 0, VBLANK 1, OAM 2, XFER 3). The source writes `Mode::TRANSFER`
  for XFER.
- Panics in the small devices are preconditions, not outcomes:
  - `read_vram`/`write_vram` below 0x8000;
  - an OAM index of 0xA0 or above;
  - LCD addresses outside the register set;
  - sprite offsets above 3;
  - `ly` overflow in `increment_ly`;
  - `read_cart` past the ROM;
  - `load_header` with more than 0x30 bytes.
  The state a panic leaves behind is not modelled.
- Cartridge.Cartridge.LoadHeader: the `tile`, licensee, type, size,
  checksum and other header branches are unreachable. The logo index
  overflows first, at i = 0x30, so the model covers only `entry` and `logo`.
- Cartridge.Cartridge: `NINTENDO_LOGO_DATA` is declared but never used, and
  RAM is never written.
- Lcd.Lcd.LcdWrite: the palette quirks are kept as written:
  - BGP writes `sp2_colors`;
  - both OBP registers write `sp1_colors`;
  - `bg_colors` is never updated;
  - the default colour tables differ from `COLORS_DEFAULT`.
  The colours are opaque integers.
- Joypad.Pressed: pressing clears the button's bit and releasing sets it,
  as written. The P1 read therefore reports a pressed button as 1.
- Executor deviations that the model keeps as written:
  - 0xE2 loads C from `0xFF00 + A`;
  - JR C/NC tests N;
  - ADD HL,rr takes H from `hl + hl`;
  - RET increments SP once;
  - INC r takes H from the register selector;
  - HALT does not set `halted`;
  - DAA, HALT, DI, EI and LD (nn),SP do not advance `pc`;
  - decoder forms without an executor arm reach the fallback panic
    (`ExecuteLaws.UnhandledPanics`, and `Scenario.JrNzPanics` for JR NZ);
  - IE at 0xFFFF is a plain RAM cell.
- HALT suspension, STOP and the EI delay are not implemented in the
  source: `do_cycle` is empty. The commented-out interrupt dispatch is
  not modelled.
