// The executor: one step of the CPU for an already decoded instruction.
//
// `Exec` is the specification: for a register file and a bus it gives the
// new register file, the new bus and the machine-cycle count the emulator
// returns, or the panic that aborts the emulator.  It is split into groups of
// arms; the imperative methods below perform each group on the `CPU` object
// and the `MMU`, step by step as the emulator does, and are proved to agree
// with it.  Rust's `pc += k` does not wrap: an overflow is the panic
// `PcOverflow`.
module Execute {
  import opened Bits
  import opened Instructions
  import Cpu
  import Mmu
  import Opcodes

  /** The ways one step can panic. */
  datatype Fault =
    | NoArm           // the catch-all arm of `executer`
    | BadSelector     // a register selector without an arm
    | PcOverflow      // a non-wrapping `pc + k` (or `pc + 1` while decoding) beyond 0xFFFF
    | NegateOverflow  // `s8.abs()` of -128
    | NoOpcode        // the decoder's panic on a byte without an arm

  /** What one step produces. */
  datatype Outcome = Done(regs: Cpu.Registers, bus: Mmu.Bus, cycles: nat) | Panicked(fault: Fault)

  /** What the imperative executor returns: the cycle count, or the panic. */
  datatype StepResult = Cycles(n: nat) | Panic(fault: Fault)

  /** An imperative run matches a specified outcome. */
  predicate Agrees(o: Outcome, res: StepResult, r: Cpu.Registers, mem: Mmu.Bus)
  {
    match o
    case Done(r1, m1, c) => res == Cycles(c) && r == r1 && mem == m1
    case Panicked(f) => res == Panic(f)
  }

  // ----- Shared pieces of the arms ----------------------------------------

  /** `cpu.pc += k; cycles`. */
  function Next(r: Cpu.Registers, mem: Mmu.Bus, k: nat, cycles: nat): Outcome
  {
    if r.pc + k > 0xFFFF then Panicked(PcOverflow) else Done(r.(pc := r.pc + k), mem, cycles)
  }

  /** A register file with A and F taken from an ALU helper. */
  function WithAlu(r: Cpu.Registers, o: Cpu.AluOut): Cpu.Registers
  {
    r.(a := o.value, f := o.flags)
  }

  /** Z from the result, N cleared, H as given, C cleared: the flags of AND, OR and XOR. */
  function LogicFlags(f: bv8, result: u8, half: bool): bv8
  {
    Cpu.WithC(Cpu.WithH(Cpu.WithN(Cpu.WithZ(f, result == 0), false), half), false)
  }

  /** Z as given, N and H cleared, C as given: the flags of the rotates and shifts. */
  function ShiftFlags(f: bv8, zero: bool, carry: bool): bv8
  {
    Cpu.WithC(Cpu.WithH(Cpu.WithN(Cpu.WithZ(f, zero), false), false), carry)
  }

  /** Z from the result, N as given (clear for INC, set for DEC), H as given; C is kept. */
  function IncDecFlags(f: bv8, result: u8, subtract: bool, half: bool): bv8
  {
    Cpu.WithH(Cpu.WithN(Cpu.WithZ(f, result == 0), subtract), half)
  }

  /** The 16-bit register the `IncNN`/`DecNN` selector names: BC = 0, DE = 1, HL = 2, SP = 3. */
  function Pair(r: Cpu.Registers, sel: nat): u16
    requires sel < 4
  {
    match sel
    case 0 => r.BC() case 1 => r.DE() case 2 => r.HL() case _ => r.sp
  }

  /** The register file with that 16-bit register replaced by `w`. */
  function SetPair(r: Cpu.Registers, sel: nat, w: u16): Cpu.Registers
    requires sel < 4
  {
    match sel
    case 0 => r.(b := Hi(w), c := Lo(w))
    case 1 => r.(d := Hi(w), e := Lo(w))
    case 2 => r.(h := Hi(w), l := Lo(w))
    case _ => r.(sp := w)
  }

  /** The register pair PUSH and POP name: AF = 0, BC = 1, DE = 2, HL = 3. */
  function StackPair(r: Cpu.Registers, sel: nat): u16
    requires sel < 4
  {
    match sel
    case 0 => r.AF() case 1 => r.BC() case 2 => r.DE() case _ => r.HL()
  }

  /** The pair `sel` loaded with the popped bytes; for AF the low byte becomes the flag byte. */
  function PopInto(r: Cpu.Registers, sel: nat, hi: u8, lo: u8): Cpu.Registers
    requires sel < 4
  {
    match sel
    case 0 => r.(a := hi, f := ToBv(lo))
    case 1 => r.(b := hi, c := lo)
    case 2 => r.(d := hi, e := lo)
    case _ => r.(h := hi, l := lo)
  }

  /**
   * The flags of `LdHlSp`: for a non-negative offset C and H are the carries
   * out of bits 7 and 3 of SP + s; for a negative one they compare the low
   * byte and nibble of the result with those of SP.  Z and N are kept.
   */
  function HlSpFlags(f: bv8, sp: u16, s: i8): bv8
  {
    var result := Wrap16(sp + s);
    if s >= 0 then Cpu.WithH(Cpu.WithC(f, sp % 0x100 + s > 0xFF), sp % 0x10 + s % 0x10 > 0xF)
    else Cpu.WithH(Cpu.WithC(f, result % 0x100 <= sp % 0x100), result % 0x10 <= sp % 0x10)
  }

  /** `LdHlSp`: HL = SP + s (wrapping), with the flags above. */
  function HlSpOffset(r: Cpu.Registers, s: i8): Cpu.Registers
  {
    r.(f := HlSpFlags(r.f, r.sp, s)).SetHL(Wrap16(r.sp + s))
  }

  /**
   * DAA's `adjust` only ever holds 0x06 and 0x60, so it is kept as two
   * booleans: the low correction is due for H, or (after an addition) for a
   * low nibble above 9; the high correction for C, or (after an addition)
   * for A above 0x99.
   */
  function DaaAdjust(a: u8, f: bv8): (adjust: u8)
    ensures adjust in {0x00, 0x06, 0x60, 0x66}
  {
    var low := Cpu.FlagH(f) || (!Cpu.FlagN(f) && a % 0x10 > 9);
    var high := Cpu.FlagC(f) || (!Cpu.FlagN(f) && a > 0x99);
    (if high then 0x60 else 0) + (if low then 0x06 else 0)
  }

  /** `Daa`: A corrected by `adjust`, C iff the high correction was applied, H cleared, Z from A. */
  function DaaRegs(r: Cpu.Registers): Cpu.Registers
  {
    var adjust := DaaAdjust(r.a, r.f);
    var a := if Cpu.FlagN(r.f) then Wrap8(r.a - adjust) else Wrap8(r.a + adjust);
    r.(a := a, f := Cpu.WithZ(Cpu.WithH(Cpu.WithC(r.f, adjust >= 0x60), false), a == 0))
  }

  /** `(v << 1) | bit0` on a byte. */
  function ShiftLeft(v: u8, bit0: bool): (res: u8)
    ensures res / 2 == v % 0x80 && (res % 2 == 1 <==> bit0)
  {
    (v * 2) % 0x100 + (if bit0 then 1 else 0)
  }

  /** `v >> 1 | (v & 0x80)`: the arithmetic shift right, bit 7 kept. */
  function ShiftRightArith(v: u8): (res: u8)
    ensures res % 0x80 == v / 2 && (res >= 0x80 <==> v >= 0x80)
  {
    v / 2 + (if v >= 0x80 then 0x80 else 0)
  }

  /**
   * The tail of `SlaN`/`SraN`: `pc += 2`, then the result goes to register
   * `sel` (2 cycles) or, for selector 7, to the byte at HL (4 cycles).
   */
  function ShiftTo(r: Cpu.Registers, mem: Mmu.Bus, sel: u8, res: u8): Outcome
    requires Mmu.WellFormed(mem)
  {
    if r.pc + 2 > 0xFFFF then Panicked(PcOverflow)
    else if sel <= 6 then Done(r.(pc := r.pc + 2).SetR8(sel, res), mem, 2)
    else if sel == 7 then Done(r.(pc := r.pc + 2), Mmu.Store(mem, r.HL(), res), 4)
    else Panicked(BadSelector)
  }

  /** `pc.wrapping_add(n as u16)`: the relative jump target before the `pc += 2`. */
  function JumpBase(pc: u16, n: i8): u16
  {
    Wrap16(pc + SignExtend(n))
  }

  // ----- The arms ---------------------------------------------------------

  /** `LdN`/`LdnA`: the register a selector names (B = 0 ... L = 5) receives `n`. */
  function SelectLoad(r: Cpu.Registers, mem: Mmu.Bus, sel: u8, n: u8, len: nat, cycles: nat): Outcome
  {
    if sel > 5 then Panicked(BadSelector) else Next(r.SetR8(sel + 1, n), mem, len, cycles)
  }

  /** `LdAR2`: A receives `n`, `pc` advances, then the selector picks 1 or 2 cycles. */
  function LoadA(r: Cpu.Registers, mem: Mmu.Bus, sel: u8, n: u8): Outcome
  {
    if r.pc + 1 > 0xFFFF then Panicked(PcOverflow)
    else if sel > 1 then Panicked(BadSelector)
    else Done(r.(a := n, pc := r.pc + 1), mem, sel + 1)
  }

  /** A register (A = 0 ... L = 6) receives the byte at `address`. */
  function Fetch(r: Cpu.Registers, mem: Mmu.Bus, dst: u8, address: u16, len: nat, cycles: nat): Outcome
    requires dst <= 6 && Mmu.WellFormed(mem)
  {
    Next(r.SetR8(dst, Mmu.Load(mem, address)), mem, len, cycles)
  }

  /** LDD/LDI A,(HL): A receives the byte at `nn`, then HL := nn -/+ 1. */
  function FetchStepHl(r: Cpu.Registers, mem: Mmu.Bus, nn: u16, increment: bool): Outcome
    requires Mmu.WellFormed(mem)
  {
    var hl := if increment then Wrap16(nn + 1) else Wrap16(nn - 1);
    Next(r.(a := Mmu.Load(mem, nn)).SetHL(hl), mem, 1, 2)
  }

  /** LDD/LDI (HL),A: A is stored at `nn`, then HL := nn -/+ 1. */
  function StoreStepHl(r: Cpu.Registers, mem: Mmu.Bus, nn: u16, increment: bool): Outcome
    requires Mmu.WellFormed(mem)
  {
    var hl := if increment then Wrap16(nn + 1) else Wrap16(nn - 1);
    Next(r.SetHL(hl), Mmu.Store(mem, nn, r.a), 1, 2)
  }

  /** `LdHlSp`: `s8.abs()` panics for -128. */
  function LoadHlSp(r: Cpu.Registers, mem: Mmu.Bus, e: i8): Outcome
  {
    if e == -0x80 then Panicked(NegateOverflow) else Next(HlSpOffset(r, e), mem, 2, 3)
  }

  /** `LdnnSp`: the low byte of SP at `nn`, the high byte at `nn + 1`; `pc` is not advanced. */
  function StoreSp(r: Cpu.Registers, mem: Mmu.Bus, nn: u16): Outcome
    requires Mmu.WellFormed(mem)
  {
    Done(r, Mmu.Store(Mmu.Store(mem, nn, Lo(r.sp)), Wrap16(nn + 1), Hi(r.sp)), 5)
  }

  /** `Pushnn(w)`: SP decremented twice, the high byte stored first, then the low byte. */
  function Push(r: Cpu.Registers, mem: Mmu.Bus, w: u16): Outcome
    requires Mmu.WellFormed(mem)
  {
    var sp1 := Wrap16(r.sp - 1);
    var sp2 := Wrap16(sp1 - 1);
    Next(r.(sp := sp2), Mmu.Store(Mmu.Store(mem, sp1, Hi(w)), sp2, Lo(w)), 1, 4)
  }

  /** `Popnn(sel)`: the low byte at SP, the high byte above it, SP incremented twice. */
  function Pop(r: Cpu.Registers, mem: Mmu.Bus, sel: u8): Outcome
    requires Mmu.WellFormed(mem)
  {
    var lo := Mmu.Load(mem, r.sp);
    var sp1 := Wrap16(r.sp + 1);
    var hi := Mmu.Load(mem, sp1);
    if sel > 3 then Panicked(BadSelector)
    else Next(PopInto(r.(sp := Wrap16(sp1 + 1)), sel, hi, lo), mem, 1, 3)
  }

  /** ADD, ADC, SUB, SBC and CP: A (unless comparing) and the flags from the ALU helper. */
  function Arith(r: Cpu.Registers, mem: Mmu.Bus, n: u8, add: bool, carry: bool, compare: bool, len: nat, cycles: nat): Outcome
  {
    var o := if add then Cpu.Add8(r.a, r.f, n, carry) else Cpu.Sub8(r.a, r.f, n, carry);
    Next(if compare then r.(f := o.flags) else WithAlu(r, o), mem, len, cycles)
  }

  /** The bitwise operations of the logic arms. */
  datatype LogicOp = AndOp | OrOp | XorOp

  /** AND, OR and XOR: A receives the result; H is set only by AND. */
  function Logic(r: Cpu.Registers, mem: Mmu.Bus, op: LogicOp, n: u8, len: nat, cycles: nat): Outcome
  {
    var v := match op case AndOp => And8(r.a, n) case OrOp => Or8(r.a, n) case XorOp => Xor8(r.a, n);
    Next(r.(a := v, f := LogicFlags(r.f, v, op == AndOp)), mem, len, cycles)
  }

  /** `IncN(sel)`: the register is incremented; the half carry is computed from the selector. */
  function IncRegister(r: Cpu.Registers, mem: Mmu.Bus, sel: u8): Outcome
  {
    if sel > 6 then Panicked(BadSelector)
    else
      var res := Wrap8(r.R8(sel) + 1);
      Next(r.SetR8(sel, res).(f := IncDecFlags(r.f, res, false, sel % 0x10 + 1 > 0xF)), mem, 1, 1)
  }

  /** `DecN(sel, n)`: the register is decremented; the half carry is computed from `n`. */
  function DecRegister(r: Cpu.Registers, mem: Mmu.Bus, sel: u8, n: u8): Outcome
  {
    if sel > 6 then Panicked(BadSelector)
    else
      var res := Wrap8(r.R8(sel) - 1);
      Next(r.SetR8(sel, res).(f := IncDecFlags(r.f, res, true, n % 0x10 == 0)), mem, 1, 1)
  }

  /** `IncHl`/`DecHl`: the byte at `nn` is read, stepped by one and written back. */
  function StepMemory(r: Cpu.Registers, mem: Mmu.Bus, nn: u16, increment: bool): Outcome
    requires Mmu.WellFormed(mem)
  {
    var n := Mmu.Load(mem, nn);
    var res := if increment then Wrap8(n + 1) else Wrap8(n - 1);
    var half := if increment then n % 0x10 + 1 > 0xF else n % 0x10 == 0;
    Next(r.(f := IncDecFlags(r.f, res, !increment, half)), Mmu.Store(mem, nn, res), 1, 3)
  }

  /** `AddHlN(nn)`: HL += nn (wrapping), N cleared, C the carry out of bit 15, H from HL alone. */
  function AddToHl(r: Cpu.Registers, nn: u16): Cpu.Registers
  {
    var hl := r.HL();
    var f := Cpu.WithC(Cpu.WithN(Cpu.WithH(r.f, (hl % 0x800) * 2 > 0x7FF), false), hl > 0xFFFF - nn);
    r.(f := f).SetHL(Wrap16(hl + nn))
  }

  /** `IncNN`/`DecNN`: the pair `sel` receives `nn` plus or minus one, wrapping; no flag changes. */
  function StepPair(r: Cpu.Registers, mem: Mmu.Bus, sel: u8, nn: u16, increment: bool): Outcome
  {
    if sel > 3 then Panicked(BadSelector)
    else Next(SetPair(r, sel, if increment then Wrap16(nn + 1) else Wrap16(nn - 1)), mem, 1, 2)
  }

  /** `SwapN(sel, n)`: the register receives `n` with its nibbles exchanged. */
  function SwapRegister(r: Cpu.Registers, mem: Mmu.Bus, sel: u8, n: u8): Outcome
  {
    if sel > 6 then Panicked(BadSelector)
    else var o := Cpu.Swap(r.f, n); Next(r.SetR8(sel, o.value).(f := o.flags), mem, 2, 2)
  }

  /** `SwapHl(n)`: the byte at HL receives `n` with its nibbles exchanged. */
  function SwapMemory(r: Cpu.Registers, mem: Mmu.Bus, n: u8): Outcome
    requires Mmu.WellFormed(mem)
  {
    var o := Cpu.Swap(r.f, n);
    Next(r.(f := o.flags), Mmu.Store(mem, r.HL(), o.value), 2, 4)
  }

  /** `Rlca(n)` / `Rla(n)`: A receives `n` rotated left with `bit0` shifted in; C is bit 7 of `n`. */
  function RotateA(r: Cpu.Registers, mem: Mmu.Bus, n: u8, bit0: bool): Outcome
  {
    Next(r.(a := ShiftLeft(n, bit0), f := ShiftFlags(r.f, false, n >= 0x80)), mem, 1, 1)
  }

  /** `RlN(sel, n)`: rotate left through the carry into a register. */
  function RotateRegister(r: Cpu.Registers, mem: Mmu.Bus, sel: u8, n: u8): Outcome
  {
    var res := ShiftLeft(n, Cpu.FlagC(r.f));
    if sel > 6 then Panicked(BadSelector)
    else Next(r.SetR8(sel, res).(f := ShiftFlags(r.f, res == 0, n >= 0x80)), mem, 2, 2)
  }

  /** `RlHl(n)`: rotate left through the carry into the byte at HL. */
  function RotateMemory(r: Cpu.Registers, mem: Mmu.Bus, n: u8): Outcome
    requires Mmu.WellFormed(mem)
  {
    var res := ShiftLeft(n, Cpu.FlagC(r.f));
    Next(r.(f := ShiftFlags(r.f, res == 0, n >= 0x80)), Mmu.Store(mem, r.HL(), res), 2, 4)
  }

  /** `SlaN`/`SraN`: shift `n` left, or arithmetically right, into a register or (HL). */
  function Shift(r: Cpu.Registers, mem: Mmu.Bus, sel: u8, n: u8, right: bool): Outcome
    requires Mmu.WellFormed(mem)
  {
    var res := if right then ShiftRightArith(n) else ShiftLeft(n, false);
    var carry := if right then n % 2 == 1 else n >= 0x80;
    ShiftTo(r.(f := ShiftFlags(r.f, res == 0, carry)), mem, sel, res)
  }

  /** BIT: Z iff the masked bit is clear, N cleared, H set, C kept. */
  function BitFlags(f: bv8, mask: u8, v: u8): bv8
  {
    Cpu.WithH(Cpu.WithN(Cpu.WithZ(f, And8(v, mask) == 0), false), true)
  }

  /** `JrN`/`JrZ`/`JrC`: jump by `e` when `taken`; `pc += 2` either way. */
  function JumpIf(r: Cpu.Registers, mem: Mmu.Bus, taken: bool, e: i8): Outcome
  {
    Next(if taken then r.(pc := JumpBase(r.pc, e)) else r, mem, 2, 2)
  }

  /** `Callnn(target)`: the address after the call pushed high byte first, then `pc := target`. */
  function Call(r: Cpu.Registers, mem: Mmu.Bus, target: u16): Outcome
    requires Mmu.WellFormed(mem)
  {
    if r.pc + 3 > 0xFFFF then Panicked(PcOverflow)
    else
      var ret := r.pc + 3;
      var sp1 := Wrap16(r.sp - 1);
      var sp2 := Wrap16(sp1 - 1);
      Done(r.(sp := sp2, pc := target), Mmu.Store(Mmu.Store(mem, sp1, Hi(ret)), sp2, Lo(ret)), 3)
  }

  /** `Ret`: `pc` from the low byte at SP and the high byte above it; SP is incremented once. */
  function Return(r: Cpu.Registers, mem: Mmu.Bus): Outcome
    requires Mmu.WellFormed(mem)
  {
    var lo := Mmu.Load(mem, r.sp);
    var sp1 := Wrap16(r.sp + 1);
    var hi := Mmu.Load(mem, sp1);
    Done(r.(sp := sp1, pc := Word(hi, lo)), mem, 2)
  }

  // ----- The groups of arms -----------------------------------------------
  //
  // Each group tests the constructor and reads its fields by name; an
  // instruction outside the group falls through to `NoArm`.

  predicate IsLoadImmediate(ins: Instruction)
  {
    ins.LdN? || ins.LdAR2? || ins.LdAnn? || ins.LdAd8? || ins.LdnA?
  }

  function ExecLoadImmediate(r: Cpu.Registers, mem: Mmu.Bus, ins: Instruction): Outcome
  {
    if ins.LdN? then SelectLoad(r, mem, ins.sel, ins.n, 2, 2)
    else if ins.LdAR2? then LoadA(r, mem, ins.sel, ins.n)
    else if ins.LdAnn? then Next(r.SetR8(0, ins.n), mem, 3, 4)
    else if ins.LdAd8? then Next(r.SetR8(0, ins.n), mem, 2, 2)
    else if ins.LdnA? then SelectLoad(r, mem, ins.sel, ins.n, 1, 1)
    else Panicked(NoArm)
  }

  predicate IsLoadRegister(ins: Instruction)
  {
    ins.LdBR2? || ins.LdCR2? || ins.LdDR2? || ins.LdER2? || ins.LdHR2? || ins.LdLR2?
  }

  /** `LdBR2` ... `LdLR2`: B = 1, C = 2, D = 3, E = 4, H = 5, L = 6 receives the value. */
  function ExecLoadRegister(r: Cpu.Registers, mem: Mmu.Bus, ins: Instruction): Outcome
  {
    if ins.LdBR2? then Next(r.SetR8(1, ins.n), mem, 1, if ins.fromHl then 2 else 1)
    else if ins.LdCR2? then Next(r.SetR8(2, ins.n), mem, 1, if ins.fromHl then 2 else 1)
    else if ins.LdDR2? then Next(r.SetR8(3, ins.n), mem, 1, if ins.fromHl then 2 else 1)
    else if ins.LdER2? then Next(r.SetR8(4, ins.n), mem, 1, if ins.fromHl then 2 else 1)
    else if ins.LdHR2? then Next(r.SetR8(5, ins.n), mem, 1, if ins.fromHl then 2 else 1)
    else if ins.LdLR2? then Next(r.SetR8(6, ins.n), mem, 1, if ins.fromHl then 2 else 1)
    else Panicked(NoArm)
  }

  predicate IsLoadMemory(ins: Instruction)
  {
    ins.Ldn16A? || ins.Lda16A? || ins.LdAc? || ins.LdCa? || ins.LdHnA? || ins.LdHAn?
  }

  function ExecLoadMemory(r: Cpu.Registers, mem: Mmu.Bus, ins: Instruction): Outcome
    requires Mmu.WellFormed(mem)
  {
    if ins.Ldn16A? then Next(r, Mmu.Store(mem, ins.nn, ins.n), 1, 2)
    else if ins.Lda16A? then Next(r, Mmu.Store(mem, ins.nn, ins.n), 3, 4)
    else if ins.LdAc? then Fetch(r, mem, 0, 0xFF00 + ins.n, 2, 2)
    else if ins.LdCa? then Fetch(r, mem, 2, 0xFF00 + ins.n, 2, 2)
    else if ins.LdHnA? then Next(r, Mmu.Store(mem, 0xFF00 + ins.n, r.a), 2, 3)
    else if ins.LdHAn? then Fetch(r, mem, 0, 0xFF00 + ins.n, 2, 3)
    else Panicked(NoArm)
  }

  predicate IsLoadHlStep(ins: Instruction)
  {
    ins.LddAHl? || ins.LddHlA? || ins.LdIAHl? || ins.LdIHlA?
  }

  function ExecLoadHlStep(r: Cpu.Registers, mem: Mmu.Bus, ins: Instruction): Outcome
    requires Mmu.WellFormed(mem)
  {
    if ins.LddAHl? then FetchStepHl(r, mem, ins.nn, false)
    else if ins.LddHlA? then StoreStepHl(r, mem, ins.nn, false)
    else if ins.LdIAHl? then FetchStepHl(r, mem, ins.nn, true)
    else if ins.LdIHlA? then StoreStepHl(r, mem, ins.nn, true)
    else Panicked(NoArm)
  }

  predicate IsLoadPair(ins: Instruction)
  {
    ins.LdBc? || ins.LdDe? || ins.LdHl? || ins.LdSp? || ins.LdSpHl?
  }

  function ExecLoadPair(r: Cpu.Registers, mem: Mmu.Bus, ins: Instruction): Outcome
  {
    if ins.LdBc? then Next(SetPair(r, 0, ins.nn), mem, 3, 3)
    else if ins.LdDe? then Next(SetPair(r, 1, ins.nn), mem, 3, 3)
    else if ins.LdHl? then Next(SetPair(r, 2, ins.nn), mem, 3, 3)
    else if ins.LdSp? then Next(SetPair(r, 3, ins.nn), mem, 3, 3)
    else if ins.LdSpHl? then Next(SetPair(r, 3, ins.nn), mem, 1, 3)
    else Panicked(NoArm)
  }

  predicate IsStack(ins: Instruction)
  {
    ins.LdHlSp? || ins.LdnnSp? || ins.Pushnn? || ins.Popnn?
  }

  function ExecStack(r: Cpu.Registers, mem: Mmu.Bus, ins: Instruction): Outcome
    requires Mmu.WellFormed(mem)
  {
    if ins.LdHlSp? then LoadHlSp(r, mem, ins.e)
    else if ins.LdnnSp? then StoreSp(r, mem, ins.nn)
    else if ins.Pushnn? then Push(r, mem, ins.nn)
    else if ins.Popnn? then Pop(r, mem, ins.sel)
    else Panicked(NoArm)
  }

  /** ADD, ADC, SUB, SBC and CP through `alu_add`/`alu_sub`. */
  predicate IsArith(ins: Instruction)
  {
    ins.AddN? || ins.AddHl? || ins.AddD8? || ins.AdcN? || ins.AdcHl? || ins.AdcD8?
    || ins.SubN? || ins.SubHl? || ins.SubD8? || ins.SbcN? || ins.SbcHl? || ins.SbcD8?
    || ins.Cp? || ins.CpHl? || ins.CpD8?
  }

  /** The `pc` advance of an operand form: 1 for a register or (HL), 2 for an immediate. */
  function OperandLength(ins: Instruction): nat
  {
    if ins.AddD8? || ins.AdcD8? || ins.SubD8? || ins.SbcD8? || ins.CpD8?
       || ins.AndD8? || ins.OrD8? || ins.XorD8? then 2 else 1
  }

  /** The cycles of an operand form: 1 for a register, 2 for (HL) or an immediate. */
  function OperandCycles(ins: Instruction): nat
  {
    if ins.AddN? || ins.AdcN? || ins.SubN? || ins.SbcN? || ins.Cp?
       || ins.Andn? || ins.OrN? || ins.Xor? then 1 else 2
  }

  function ExecArith(r: Cpu.Registers, mem: Mmu.Bus, ins: Instruction): Outcome
  {
    if !IsArith(ins) then Panicked(NoArm)
    else
      Arith(r, mem, ins.n, Adds(ins), UsesCarry(ins), Compares(ins), OperandLength(ins), OperandCycles(ins))
  }

  /** ADD and ADC go through `alu_add`; the others through `alu_sub`. */
  predicate Adds(ins: Instruction)
  {
    ins.AddN? || ins.AddHl? || ins.AddD8? || ins.AdcN? || ins.AdcHl? || ins.AdcD8?
  }

  /** ADC and SBC take the carry flag in. */
  predicate UsesCarry(ins: Instruction)
  {
    ins.AdcN? || ins.AdcHl? || ins.AdcD8? || ins.SbcN? || ins.SbcHl? || ins.SbcD8?
  }

  /** CP keeps A. */
  predicate Compares(ins: Instruction)
  {
    ins.Cp? || ins.CpHl? || ins.CpD8?
  }

  /** AND, OR and XOR. */
  predicate IsLogic(ins: Instruction)
  {
    ins.Andn? || ins.AndHl? || ins.AndD8? || ins.OrN? || ins.OrHl? || ins.OrD8?
    || ins.Xor? || ins.XorHl? || ins.XorD8?
  }

  function ExecLogic(r: Cpu.Registers, mem: Mmu.Bus, ins: Instruction): Outcome
  {
    if !IsLogic(ins) then Panicked(NoArm)
    else
      Logic(r, mem, LogicOpOf(ins), ins.n, OperandLength(ins), OperandCycles(ins))
  }

  /** The bitwise operator of an AND, OR or XOR form. */
  function LogicOpOf(ins: Instruction): LogicOp
  {
    if ins.Andn? || ins.AndHl? || ins.AndD8? then AndOp
    else if ins.OrN? || ins.OrHl? || ins.OrD8? then OrOp else XorOp
  }

  /** 8-bit INC and DEC. */
  predicate IsIncDec(ins: Instruction)
  {
    ins.IncN? || ins.IncHl? || ins.DecN? || ins.DecHl?
  }

  function ExecIncDec(r: Cpu.Registers, mem: Mmu.Bus, ins: Instruction): Outcome
    requires Mmu.WellFormed(mem)
  {
    if ins.IncN? then IncRegister(r, mem, ins.sel)
    else if ins.IncHl? then StepMemory(r, mem, ins.nn, true)
    else if ins.DecN? then DecRegister(r, mem, ins.sel, ins.n)
    else if ins.DecHl? then StepMemory(r, mem, ins.nn, false)
    else Panicked(NoArm)
  }

  /** The 16-bit arithmetic. */
  predicate IsWide(ins: Instruction)
  {
    ins.AddHlN? || ins.IncNN? || ins.DecNN?
  }

  function ExecWide(r: Cpu.Registers, mem: Mmu.Bus, ins: Instruction): Outcome
  {
    if ins.AddHlN? then Next(AddToHl(r, ins.nn), mem, 1, 2)
    else if ins.IncNN? then StepPair(r, mem, ins.sel, ins.nn, true)
    else if ins.DecNN? then StepPair(r, mem, ins.sel, ins.nn, false)
    else Panicked(NoArm)
  }

  /** SWAP, DAA, CPL and SCF. */
  predicate IsMisc(ins: Instruction)
  {
    ins.SwapN? || ins.SwapHl? || ins.Daa? || ins.Cpl? || ins.Scf?
  }

  function ExecMisc(r: Cpu.Registers, mem: Mmu.Bus, ins: Instruction): Outcome
    requires Mmu.WellFormed(mem)
  {
    if ins.SwapN? then SwapRegister(r, mem, ins.sel, ins.n)
    else if ins.SwapHl? then SwapMemory(r, mem, ins.n)
    else if ins.Daa? then Done(DaaRegs(r), mem, 1)
    else if ins.Cpl? then Next(r.(a := Not8(ins.n), f := Cpu.WithH(Cpu.WithN(r.f, true), true)), mem, 1, 1)
    else if ins.Scf? then Next(r.(f := Cpu.WithC(Cpu.WithH(Cpu.WithN(r.f, false), false), true)), mem, 1, 1)
    else Panicked(NoArm)
  }

  /** NOP, HALT, DI and EI. */
  predicate IsControl(ins: Instruction)
  {
    ins.Nop? || ins.Halt? || ins.Di? || ins.Ei?
  }

  function ExecControl(r: Cpu.Registers, mem: Mmu.Bus, ins: Instruction): Outcome
  {
    if ins.Nop? then Next(r, mem, 1, 1)
    else if ins.Halt? then Done(r, mem, 1)
    else if ins.Di? then Done(r.(ime := false), mem, 1)
    else if ins.Ei? then Done(r.(ei := true), mem, 1)
    else Panicked(NoArm)
  }

  /** The rotates that have an arm. */
  predicate IsRotate(ins: Instruction)
  {
    ins.Rlca? || ins.Rla? || ins.RlN? || ins.RlHl?
  }

  function ExecRotate(r: Cpu.Registers, mem: Mmu.Bus, ins: Instruction): Outcome
    requires Mmu.WellFormed(mem)
  {
    if ins.Rlca? then RotateA(r, mem, ins.n, ins.n >= 0x80)
    else if ins.Rla? then RotateA(r, mem, ins.n, Cpu.FlagC(r.f))
    else if ins.RlN? then RotateRegister(r, mem, ins.sel, ins.n)
    else if ins.RlHl? then RotateMemory(r, mem, ins.n)
    else Panicked(NoArm)
  }

  /** The shifts that have an arm, and BIT. */
  predicate IsShiftBit(ins: Instruction)
  {
    ins.SlaN? || ins.SraN? || ins.BitbR? || ins.BitbHl?
  }

  function ExecShiftBit(r: Cpu.Registers, mem: Mmu.Bus, ins: Instruction): Outcome
    requires Mmu.WellFormed(mem)
  {
    if ins.SlaN? then Shift(r, mem, ins.sel, ins.n, false)
    else if ins.SraN? then Shift(r, mem, ins.sel, ins.n, true)
    else if ins.BitbR? then Next(r.(f := BitFlags(r.f, ins.mask, ins.n)), mem, 2, 2)
    else if ins.BitbHl? then Next(r.(f := BitFlags(r.f, ins.mask, ins.n)), mem, 2, 4)
    else Panicked(NoArm)
  }

  /** Relative jumps, CALL and RET. */
  predicate IsJump(ins: Instruction)
  {
    ins.JrN? || ins.JrZ? || ins.JrC? || ins.Callnn? || ins.Ret?
  }

  function ExecJump(r: Cpu.Registers, mem: Mmu.Bus, ins: Instruction): Outcome
    requires Mmu.WellFormed(mem)
  {
    if ins.JrN? then JumpIf(r, mem, true, ins.e)
    else if ins.JrZ? then JumpIf(r, mem, Cpu.FlagZ(r.f) == ins.flag, ins.e)
    else if ins.JrC? then JumpIf(r, mem, Cpu.FlagN(r.f) == ins.flag, ins.e)
    else if ins.Callnn? then Call(r, mem, ins.nn)
    else if ins.Ret? then Return(r, mem)
    else Panicked(NoArm)
  }

  // ----- Families of groups and the whole executor -------------------------

  predicate IsLoad(ins: Instruction)
  {
    IsLoadImmediate(ins) || IsLoadRegister(ins) || IsLoadMemory(ins) || IsLoadHlStep(ins)
  }

  function ExecLoad(r: Cpu.Registers, mem: Mmu.Bus, ins: Instruction): Outcome
    requires Mmu.WellFormed(mem)
  {
    if IsLoadImmediate(ins) then ExecLoadImmediate(r, mem, ins)
    else if IsLoadRegister(ins) then ExecLoadRegister(r, mem, ins)
    else if IsLoadMemory(ins) then ExecLoadMemory(r, mem, ins)
    else if IsLoadHlStep(ins) then ExecLoadHlStep(r, mem, ins)
    else Panicked(NoArm)
  }

  predicate IsAlu(ins: Instruction)
  {
    IsArith(ins) || IsLogic(ins) || IsIncDec(ins) || IsWide(ins)
  }

  function ExecAlu(r: Cpu.Registers, mem: Mmu.Bus, ins: Instruction): Outcome
    requires Mmu.WellFormed(mem)
  {
    if IsArith(ins) then ExecArith(r, mem, ins)
    else if IsLogic(ins) then ExecLogic(r, mem, ins)
    else if IsIncDec(ins) then ExecIncDec(r, mem, ins)
    else if IsWide(ins) then ExecWide(r, mem, ins)
    else Panicked(NoArm)
  }

  predicate IsOther(ins: Instruction)
  {
    IsMisc(ins) || IsControl(ins) || IsRotate(ins) || IsShiftBit(ins)
  }

  function ExecOther(r: Cpu.Registers, mem: Mmu.Bus, ins: Instruction): Outcome
    requires Mmu.WellFormed(mem)
  {
    if IsMisc(ins) then ExecMisc(r, mem, ins)
    else if IsControl(ins) then ExecControl(r, mem, ins)
    else if IsRotate(ins) then ExecRotate(r, mem, ins)
    else if IsShiftBit(ins) then ExecShiftBit(r, mem, ins)
    else Panicked(NoArm)
  }

  /** The constructors the decoder builds but `executer` has no arm for. */
  predicate Unhandled(ins: Instruction)
  {
    ins.LdHlR2? || ins.AddSpN? || ins.Ccf? || ins.Stop? || ins.Rrca? || ins.Rra? || ins.RlcN?
    || ins.RrcN? || ins.RrN? || ins.SrlN? || ins.SetbR? || ins.ResbR? || ins.Jpnn? || ins.Jpcc?
    || ins.JpHl? || ins.Jrcc? || ins.Callcc? || ins.Rst? || ins.Retcc? || ins.Reti?
  }

  /** `executer(cpu, instruction, mmu)`. */
  function Exec(r: Cpu.Registers, mem: Mmu.Bus, ins: Instruction): Outcome
    requires Mmu.WellFormed(mem)
  {
    if IsLoad(ins) then ExecLoad(r, mem, ins)
    else if IsLoadPair(ins) then ExecLoadPair(r, mem, ins)
    else if IsStack(ins) then ExecStack(r, mem, ins)
    else if IsAlu(ins) then ExecAlu(r, mem, ins)
    else if IsOther(ins) then ExecOther(r, mem, ins)
    else if IsJump(ins) then ExecJump(r, mem, ins)
    else Panicked(NoArm)
  }

  /**
   * `run_instruction`: fetch the byte at `pc`, decode it with its operands,
   * and execute it.
   */
  function Step(r: Cpu.Registers, mem: Mmu.Bus): Outcome
    requires Mmu.WellFormed(mem)
  {
    match Opcodes.Decode(r, mem, Mmu.Load(mem, r.pc))
    case Ok(ins) => Exec(r, mem, ins)
    case Unmapped(_) => Panicked(NoOpcode)
    case AddressOverflow => Panicked(PcOverflow)
  }
}
