// The executor on the `CPU` and `MMU` objects: `executer` and
// `run_instruction` as the emulator performs them, field by field and write
// by write.  Every method is proved to agree with the value-level
// specification in module `Execute`: on success it leaves the registers and
// the bus that `Execute.Exec` gives and returns the same cycle count, and it
// reports the same panic otherwise.
//
// The arms are methods over plain arguments; the group methods only pick
// the arm, in the order of the specification's groups.  A method that
// cannot touch the bus takes the bus it is proved against as a ghost
// parameter `mem`.
module Executor {
  import opened Bits
  import opened Instructions
  import Cpu
  import Mmu
  import Opcodes
  import opened Execute

  // ----- The arms ---------------------------------------------------------

  /** `cpu.pc += k; cycles`: the non-wrapping add panics beyond 0xFFFF. */
  method Advance(cpu: Cpu.CPU, k: nat, cycles: nat, ghost mem: Mmu.Bus) returns (res: StepResult)
    modifies cpu`pc
    ensures Agrees(Next(old(cpu.State()), mem, k, cycles), res, cpu.State(), mem)
  {
    if cpu.pc + k > 0xFFFF {
      res := Panic(PcOverflow);
    } else {
      cpu.pc := cpu.pc + k;
      res := Cycles(cycles);
    }
  }

  /** The flag writes `set_flag_z`, `set_flag_n`, `set_flag_h`, `set_flag_c`, in that order. */
  method SetFlagsZnhc(cpu: Cpu.CPU, z: bool, n: bool, h: bool, c: bool)
    modifies cpu`f
    ensures cpu.State() == old(cpu.State()).(f := Cpu.WithC(Cpu.WithH(Cpu.WithN(Cpu.WithZ(old(cpu.f), z), n), h), c))
  {
    cpu.SetFlagZ(z);
    cpu.SetFlagN(n);
    cpu.SetFlagH(h);
    cpu.SetFlagC(c);
  }

  /** The flag writes `set_flag_z`, `set_flag_n`, `set_flag_h`, in that order; C is kept. */
  method SetFlagsZnh(cpu: Cpu.CPU, z: bool, n: bool, h: bool)
    modifies cpu`f
    ensures cpu.State() == old(cpu.State()).(f := Cpu.WithH(Cpu.WithN(Cpu.WithZ(old(cpu.f), z), n), h))
  {
    cpu.SetFlagZ(z);
    cpu.SetFlagN(n);
    cpu.SetFlagH(h);
  }

  /** The flag writes `set_flag_c`, `set_flag_h`, `set_flag_z`, in that order; N is kept. */
  method SetFlagsChz(cpu: Cpu.CPU, c: bool, h: bool, z: bool)
    modifies cpu`f
    ensures cpu.State() == old(cpu.State()).(f := Cpu.WithZ(Cpu.WithH(Cpu.WithC(old(cpu.f), c), h), z))
  {
    cpu.SetFlagC(c);
    cpu.SetFlagH(h);
    cpu.SetFlagZ(z);
  }

  /** A register (A = 0 ... L = 6) receives `v`, then `pc += k`. */
  method LoadOp(cpu: Cpu.CPU, dst: u8, v: u8, k: nat, cycles: nat, ghost mem: Mmu.Bus) returns (res: StepResult)
    requires dst <= 6
    modifies cpu
    ensures Agrees(Next(old(cpu.State()).SetR8(dst, v), mem, k, cycles), res, cpu.State(), mem)
  {
    cpu.SetR8(dst, v);
    res := Advance(cpu, k, cycles, mem);
  }

  /** `LdN`/`LdnA`. */
  method SelectLoadOp(cpu: Cpu.CPU, sel: u8, n: u8, len: nat, cycles: nat, ghost mem: Mmu.Bus) returns (res: StepResult)
    modifies cpu
    ensures Agrees(SelectLoad(old(cpu.State()), mem, sel, n, len, cycles), res, cpu.State(), mem)
  {
    if sel > 5 {
      res := Panic(BadSelector);
    } else {
      res := LoadOp(cpu, sel + 1, n, len, cycles, mem);
    }
  }

  /** `LdAR2`: the selector is matched after `pc += 1`. */
  method LoadAOp(cpu: Cpu.CPU, sel: u8, n: u8, ghost mem: Mmu.Bus) returns (res: StepResult)
    modifies cpu
    ensures Agrees(LoadA(old(cpu.State()), mem, sel, n), res, cpu.State(), mem)
  {
    cpu.a := n;
    if cpu.pc + 1 > 0xFFFF {
      res := Panic(PcOverflow);
    } else {
      cpu.pc := cpu.pc + 1;
      if sel > 1 {
        res := Panic(BadSelector);
      } else {
        res := Cycles(sel + 1);
      }
    }
  }

  /** `mmu.write_byte(address, v)`, then `pc += k`. */
  method StoreOp(cpu: Cpu.CPU, mmu: Mmu.MMU, address: u16, v: u8, k: nat, cycles: nat) returns (res: StepResult)
    requires mmu.Valid()
    modifies cpu, mmu.Repr()
    ensures Agrees(Next(old(cpu.State()), Mmu.Store(old(mmu.State()), address, v), k, cycles),
                   res, cpu.State(), mmu.State())
  {
    mmu.WriteByte(address, v);
    res := Advance(cpu, k, cycles, mmu.State());
  }

  /** A register receives `mmu.read_byte(address)`, then `pc += k`. */
  method FetchOp(cpu: Cpu.CPU, mmu: Mmu.MMU, dst: u8, address: u16, k: nat, cycles: nat) returns (res: StepResult)
    requires mmu.Valid() && dst <= 6
    modifies cpu
    ensures Agrees(Fetch(old(cpu.State()), mmu.State(), dst, address, k, cycles), res, cpu.State(), mmu.State())
  {
    var v := mmu.ReadByte(address);
    res := LoadOp(cpu, dst, v, k, cycles, mmu.State());
  }

  /** `LddAHl`/`LdIAHl`. */
  method FetchStepHlOp(cpu: Cpu.CPU, mmu: Mmu.MMU, nn: u16, increment: bool) returns (res: StepResult)
    requires mmu.Valid()
    modifies cpu
    ensures Agrees(FetchStepHl(old(cpu.State()), mmu.State(), nn, increment), res, cpu.State(), mmu.State())
  {
    cpu.a := mmu.ReadByte(nn);
    var hl := if increment then Wrap16(nn + 1) else Wrap16(nn - 1);
    cpu.SetHL(hl);
    res := Advance(cpu, 1, 2, mmu.State());
  }

  /** `LddHlA`/`LdIHlA`. */
  method StoreStepHlOp(cpu: Cpu.CPU, mmu: Mmu.MMU, nn: u16, increment: bool) returns (res: StepResult)
    requires mmu.Valid()
    modifies cpu, mmu.Repr()
    ensures Agrees(StoreStepHl(old(cpu.State()), old(mmu.State()), nn, increment), res, cpu.State(), mmu.State())
  {
    mmu.WriteByte(nn, cpu.a);
    var hl := if increment then Wrap16(nn + 1) else Wrap16(nn - 1);
    cpu.SetHL(hl);
    res := Advance(cpu, 1, 2, mmu.State());
  }

  /** The 16-bit register `sel` (BC, DE, HL, SP) receives `w`, then `pc += k`. */
  method PairOp(cpu: Cpu.CPU, sel: nat, w: u16, k: nat, cycles: nat, ghost mem: Mmu.Bus) returns (res: StepResult)
    requires sel < 4
    modifies cpu
    ensures Agrees(Next(SetPair(old(cpu.State()), sel, w), mem, k, cycles), res, cpu.State(), mem)
  {
    if sel == 0 {
      cpu.b, cpu.c := Hi(w), Lo(w);
    } else if sel == 1 {
      cpu.d, cpu.e := Hi(w), Lo(w);
    } else if sel == 2 {
      cpu.h, cpu.l := Hi(w), Lo(w);
    } else {
      cpu.sp := w;
    }
    assert cpu.State() == SetPair(old(cpu.State()), sel, w);
    res := Advance(cpu, k, cycles, mem);
  }

  /** `IncNN`/`DecNN`. */
  method StepPairOp(cpu: Cpu.CPU, sel: u8, nn: u16, increment: bool, ghost mem: Mmu.Bus) returns (res: StepResult)
    modifies cpu
    ensures Agrees(StepPair(old(cpu.State()), mem, sel, nn, increment), res, cpu.State(), mem)
  {
    var w := if increment then Wrap16(nn + 1) else Wrap16(nn - 1);
    if sel > 3 {
      res := Panic(BadSelector);
    } else {
      res := PairOp(cpu, sel, w, 1, 2, mem);
    }
  }

  /** The flag writes of `LdHlSp`: C, then H. */
  method HlSpFlagsOp(cpu: Cpu.CPU, e: i8)
    modifies cpu`f
    ensures cpu.State() == old(cpu.State()).(f := HlSpFlags(old(cpu.f), cpu.sp, e))
  {
    var result := Wrap16(cpu.sp + e);
    if e >= 0 {
      cpu.SetFlagC(cpu.sp % 0x100 + e > 0xFF);
      cpu.SetFlagH(cpu.sp % 0x10 + e % 0x10 > 0xF);
    } else {
      cpu.SetFlagC(result % 0x100 <= cpu.sp % 0x100);
      cpu.SetFlagH(result % 0x10 <= cpu.sp % 0x10);
    }
  }

  /** `LdHlSp`. */
  method LoadHlSpOp(cpu: Cpu.CPU, e: i8, ghost mem: Mmu.Bus) returns (res: StepResult)
    modifies cpu
    ensures Agrees(LoadHlSp(old(cpu.State()), mem, e), res, cpu.State(), mem)
  {
    if e == -0x80 {
      return Panic(NegateOverflow);
    }
    HlSpOffsetOp(cpu, e);
    res := Advance(cpu, 2, 3, mem);
  }

  /** The register part of `LD HL, SP+e`: the flags, then HL. */
  method HlSpOffsetOp(cpu: Cpu.CPU, e: i8)
    modifies cpu`f, cpu`h, cpu`l
    ensures cpu.State() == HlSpOffset(old(cpu.State()), e)
  {
    ghost var r0 := cpu.State();
    var hl := Wrap16(cpu.sp + e);
    HlSpFlagsOp(cpu, e);
    HlSpOffsetIs(r0, e, cpu.f, hl);
    cpu.SetHL(hl);
  }

  /** `HlSpOffset` as its two parts, the new flags `fl` and the new HL `hl`. */
  lemma HlSpOffsetIs(r: Cpu.Registers, e: i8, fl: bv8, hl: u16)
    requires fl == HlSpFlags(r.f, r.sp, e) && hl == Wrap16(r.sp + e)
    ensures HlSpOffset(r, e) == r.(f := fl).SetHL(hl)
  {
  }

  /** `LdnnSp`: two writes and no `pc` change. */
  method StoreSpOp(cpu: Cpu.CPU, mmu: Mmu.MMU, nn: u16) returns (res: StepResult)
    requires mmu.Valid()
    modifies mmu.Repr()
    ensures Agrees(StoreSp(cpu.State(), old(mmu.State()), nn), res, cpu.State(), mmu.State())
  {
    mmu.WriteByte(nn, Lo(cpu.sp));
    mmu.WriteByte(Wrap16(nn + 1), Hi(cpu.sp));
    res := Cycles(5);
  }

  /** `Pushnn`. */
  method PushOp(cpu: Cpu.CPU, mmu: Mmu.MMU, w: u16) returns (res: StepResult)
    requires mmu.Valid()
    modifies cpu, mmu.Repr()
    ensures Agrees(Push(old(cpu.State()), old(mmu.State()), w), res, cpu.State(), mmu.State())
  {
    cpu.sp := Wrap16(cpu.sp - 1);
    mmu.WriteByte(cpu.sp, Hi(w));
    cpu.sp := Wrap16(cpu.sp - 1);
    mmu.WriteByte(cpu.sp, Lo(w));
    res := Advance(cpu, 1, 4, mmu.State());
  }

  /** The two reads of `Popnn`, each followed by `sp += 1` (wrapping). */
  method PopBytesOp(cpu: Cpu.CPU, mmu: Mmu.MMU) returns (hi: u8, lo: u8)
    requires mmu.Valid()
    modifies cpu`sp
    ensures lo == Mmu.Load(mmu.State(), old(cpu.sp))
    ensures hi == Mmu.Load(mmu.State(), Wrap16(old(cpu.sp) + 1))
    ensures cpu.State() == old(cpu.State()).(sp := Wrap16(Wrap16(old(cpu.sp) + 1) + 1))
  {
    lo := mmu.ReadByte(cpu.sp);
    cpu.sp := Wrap16(cpu.sp + 1);
    hi := mmu.ReadByte(cpu.sp);
    cpu.sp := Wrap16(cpu.sp + 1);
  }

  /** The pair `sel` of `Popnn` (AF, BC, DE, HL) receives the popped bytes. */
  method PopIntoOp(cpu: Cpu.CPU, sel: u8, hi: u8, lo: u8)
    requires sel < 4
    modifies cpu`a, cpu`f, cpu`b, cpu`c, cpu`d, cpu`e, cpu`h, cpu`l
    ensures cpu.State() == PopInto(old(cpu.State()), sel, hi, lo)
  {
    if sel == 0 {
      cpu.a, cpu.f := hi, ToBv(lo);
    } else if sel == 1 {
      cpu.b, cpu.c := hi, lo;
    } else if sel == 2 {
      cpu.d, cpu.e := hi, lo;
    } else {
      cpu.h, cpu.l := hi, lo;
    }
  }

  /** `Popnn`: both reads and both increments happen before the selector is matched. */
  method PopOp(cpu: Cpu.CPU, mmu: Mmu.MMU, sel: u8) returns (res: StepResult)
    requires mmu.Valid()
    modifies cpu
    ensures Agrees(Pop(old(cpu.State()), mmu.State(), sel), res, cpu.State(), mmu.State())
  {
    var hi, lo := PopBytesOp(cpu, mmu);
    if sel > 3 {
      return Panic(BadSelector);
    }
    PopIntoOp(cpu, sel, hi, lo);
    res := Advance(cpu, 1, 3, mmu.State());
  }

  /** ADD, ADC, SUB, SBC and CP: `alu_add`/`alu_sub`, A written unless comparing. */
  method ArithOp(cpu: Cpu.CPU, n: u8, add: bool, carry: bool, compare: bool, k: nat, cycles: nat, ghost mem: Mmu.Bus)
    returns (res: StepResult)
    modifies cpu
    ensures Agrees(Arith(old(cpu.State()), mem, n, add, carry, compare, k, cycles), res, cpu.State(), mem)
  {
    var result;
    if add {
      result := cpu.AluAdd(n, carry);
    } else {
      result := cpu.AluSub(n, carry);
    }
    ghost var o := if add then Cpu.Add8(old(cpu.a), old(cpu.f), n, carry) else Cpu.Sub8(old(cpu.a), old(cpu.f), n, carry);
    assert Cpu.AluOut(result, cpu.f) == o;
    if !compare {
      cpu.a := result;
    }
    assert cpu.State() == if compare then old(cpu.State()).(f := o.flags) else WithAlu(old(cpu.State()), o);
    res := Advance(cpu, k, cycles, mem);
  }

  /** AND, OR and XOR: A receives the result, then Z, N, H and C are set in turn. */
  method BitwiseOp(cpu: Cpu.CPU, op: LogicOp, n: u8, k: nat, cycles: nat, ghost mem: Mmu.Bus) returns (res: StepResult)
    modifies cpu
    ensures Agrees(Logic(old(cpu.State()), mem, op, n, k, cycles), res, cpu.State(), mem)
  {
    var result := match op case AndOp => And8(cpu.a, n) case OrOp => Or8(cpu.a, n) case XorOp => Xor8(cpu.a, n);
    cpu.a := result;
    SetFlagsZnhc(cpu, result == 0, false, op == AndOp, false);
    res := Advance(cpu, k, cycles, mem);
  }

  /** `IncN`. */
  method IncRegisterOp(cpu: Cpu.CPU, sel: u8, ghost mem: Mmu.Bus) returns (res: StepResult)
    modifies cpu
    ensures Agrees(IncRegister(old(cpu.State()), mem, sel), res, cpu.State(), mem)
  {
    if sel > 6 {
      return Panic(BadSelector);
    }
    var r := Wrap8(cpu.State().R8(sel) + 1);
    cpu.SetR8(sel, r);
    SetFlagsZnh(cpu, r == 0, false, sel % 0x10 + 1 > 0xF);
    res := Advance(cpu, 1, 1, mem);
  }

  /** `DecN`. */
  method DecRegisterOp(cpu: Cpu.CPU, sel: u8, n: u8, ghost mem: Mmu.Bus) returns (res: StepResult)
    modifies cpu
    ensures Agrees(DecRegister(old(cpu.State()), mem, sel, n), res, cpu.State(), mem)
  {
    if sel > 6 {
      return Panic(BadSelector);
    }
    var r := Wrap8(cpu.State().R8(sel) - 1);
    cpu.SetR8(sel, r);
    SetFlagsZnh(cpu, r == 0, true, n % 0x10 == 0);
    res := Advance(cpu, 1, 1, mem);
  }

  /** The bus half of `IncHl`/`DecHl`: read the byte, write it back stepped by one. */
  method StepByteOp(mmu: Mmu.MMU, nn: u16, increment: bool) returns (n: u8, r: u8)
    requires mmu.Valid()
    modifies mmu.Repr()
    ensures n == Mmu.Load(old(mmu.State()), nn)
    ensures r == if increment then Wrap8(n + 1) else Wrap8(n - 1)
    ensures mmu.State() == Mmu.Store(old(mmu.State()), nn, r)
  {
    n := mmu.ReadByte(nn);
    r := if increment then Wrap8(n as int + 1) else Wrap8(n as int - 1);
    mmu.WriteByte(nn, r);
  }

  /** `IncHl`/`DecHl`: read, write back, then the flags. */
  method StepMemoryOp(cpu: Cpu.CPU, mmu: Mmu.MMU, nn: u16, increment: bool) returns (res: StepResult)
    requires mmu.Valid()
    modifies cpu, mmu.Repr()
    ensures Agrees(StepMemory(old(cpu.State()), old(mmu.State()), nn, increment), res, cpu.State(), mmu.State())
  {
    var n, r := StepByteOp(mmu, nn, increment);
    assert cpu.State() == old(cpu.State());
    ghost var m := mmu.State();
    SetFlagsZnh(cpu, r == 0, !increment, if increment then n % 0x10 + 1 > 0xF else n % 0x10 == 0);
    assert mmu.State() == m;
    res := Advance(cpu, 1, 3, m);
  }

  /** `AddHlN`: H, N and C from the old HL, then HL. */
  method AddHlOp(cpu: Cpu.CPU, nn: u16, ghost mem: Mmu.Bus) returns (res: StepResult)
    modifies cpu
    ensures Agrees(Next(AddToHl(old(cpu.State()), nn), mem, 1, 2), res, cpu.State(), mem)
  {
    var hl := cpu.State().HL();
    var r := Wrap16(hl + nn);
    cpu.SetFlagH((hl % 0x800) * 2 > 0x7FF);
    cpu.SetFlagN(false);
    cpu.SetFlagC(hl > 0xFFFF - nn);
    cpu.SetHL(r);
    res := Advance(cpu, 1, 2, mem);
  }

  /** `SwapN`: the register receives `cpu.swap(v)`. */
  method SwapRegisterOp(cpu: Cpu.CPU, sel: u8, n: u8, ghost mem: Mmu.Bus) returns (res: StepResult)
    modifies cpu
    ensures Agrees(SwapRegister(old(cpu.State()), mem, sel, n), res, cpu.State(), mem)
  {
    if sel > 6 {
      return Panic(BadSelector);
    }
    var v := cpu.SwapOp(n);
    cpu.SetR8(sel, v);
    res := Advance(cpu, 2, 2, mem);
  }

  /** `SwapHl`: HL is read before `cpu.swap(v)` runs. */
  method SwapMemoryOp(cpu: Cpu.CPU, mmu: Mmu.MMU, n: u8) returns (res: StepResult)
    requires mmu.Valid()
    modifies cpu, mmu.Repr()
    ensures Agrees(SwapMemory(old(cpu.State()), old(mmu.State()), n), res, cpu.State(), mmu.State())
  {
    var hl := cpu.State().HL();
    var v := cpu.SwapOp(n);
    mmu.WriteByte(hl, v);
    res := Advance(cpu, 2, 4, mmu.State());
  }

  /** DAA's correction: `adjust` built up from C, H and (after an addition) A, then applied. */
  method DaaValue(a: u8, f: bv8) returns (adjust: u8, result: u8)
    ensures adjust == DaaAdjust(a, f)
    ensures result == if Cpu.FlagN(f) then Wrap8(a - adjust) else Wrap8(a + adjust)
  {
    var high := Cpu.FlagC(f);
    var low := Cpu.FlagH(f);
    if !Cpu.FlagN(f) {
      if a % 0x10 > 9 { low := true; }
      if a > 0x99 { high := true; }
    }
    adjust := (if high then 0x60 else 0) + (if low then 0x06 else 0);
    if Cpu.FlagN(f) {
      result := Wrap8(a as int - adjust);
    } else {
      result := Wrap8(a as int + adjust);
    }
  }

  /** `DaaRegs` in terms of the correction and the corrected A that `DaaValue` returns. */
  lemma DaaRegsIs(r: Cpu.Registers, adjust: u8, a: u8)
    requires adjust == DaaAdjust(r.a, r.f)
    requires a == if Cpu.FlagN(r.f) then Wrap8(r.a - adjust) else Wrap8(r.a + adjust)
    ensures DaaRegs(r) == r.(a := a, f := Cpu.WithZ(Cpu.WithH(Cpu.WithC(r.f, adjust >= 0x60), false), a == 0))
  {
  }

  /** `Daa`: C, H and Z are written, then A; `pc` is not advanced. */
  method DaaOp(cpu: Cpu.CPU, ghost mem: Mmu.Bus) returns (res: StepResult)
    modifies cpu
    ensures Agrees(Done(DaaRegs(old(cpu.State())), mem, 1), res, cpu.State(), mem)
  {
    var adjust, a := DaaValue(cpu.a, cpu.f);
    DaaRegsIs(cpu.State(), adjust, a);
    SetFlagsChz(cpu, adjust >= 0x60, false, a == 0);
    cpu.a := a;
    res := Cycles(1);
  }

  /** `Cpl(a)`: A receives the complement of the operand. */
  method CplOp(cpu: Cpu.CPU, n: u8, ghost mem: Mmu.Bus) returns (res: StepResult)
    modifies cpu
    ensures Agrees(Next(old(cpu.State()).(a := Not8(n), f := Cpu.WithH(Cpu.WithN(old(cpu.f), true), true)), mem, 1, 1),
                   res, cpu.State(), mem)
  {
    cpu.a := Not8(n);
    cpu.SetFlagN(true);
    cpu.SetFlagH(true);
    res := Advance(cpu, 1, 1, mem);
  }

  /** `Scf`. */
  method ScfOp(cpu: Cpu.CPU, ghost mem: Mmu.Bus) returns (res: StepResult)
    modifies cpu
    ensures Agrees(Next(old(cpu.State()).(f := Cpu.WithC(Cpu.WithH(Cpu.WithN(old(cpu.f), false), false), true)), mem, 1, 1),
                   res, cpu.State(), mem)
  {
    cpu.SetFlagN(false);
    cpu.SetFlagH(false);
    cpu.SetFlagC(true);
    res := Advance(cpu, 1, 1, mem);
  }

  /** `Rlca`/`Rla`. */
  method RotateAOp(cpu: Cpu.CPU, n: u8, bit0: bool, ghost mem: Mmu.Bus) returns (res: StepResult)
    modifies cpu
    ensures Agrees(RotateA(old(cpu.State()), mem, n, bit0), res, cpu.State(), mem)
  {
    cpu.a := ShiftLeft(n, bit0);
    SetFlagsZnhc(cpu, false, false, false, n >= 0x80);
    res := Advance(cpu, 1, 1, mem);
  }

  /** `RlN`: the carry is read before the register is written. */
  method RotateRegisterOp(cpu: Cpu.CPU, sel: u8, n: u8, ghost mem: Mmu.Bus) returns (res: StepResult)
    modifies cpu
    ensures Agrees(RotateRegister(old(cpu.State()), mem, sel, n), res, cpu.State(), mem)
  {
    var r := ShiftLeft(n, Cpu.FlagC(cpu.f));
    if sel > 6 {
      return Panic(BadSelector);
    }
    cpu.SetR8(sel, r);
    SetFlagsZnhc(cpu, r == 0, false, false, n >= 0x80);
    res := Advance(cpu, 2, 2, mem);
  }

  /** `RlHl`. */
  method RotateMemoryOp(cpu: Cpu.CPU, mmu: Mmu.MMU, n: u8) returns (res: StepResult)
    requires mmu.Valid()
    modifies cpu, mmu.Repr()
    ensures Agrees(RotateMemory(old(cpu.State()), old(mmu.State()), n), res, cpu.State(), mmu.State())
  {
    var r := ShiftLeft(n, Cpu.FlagC(cpu.f));
    mmu.WriteByte(cpu.State().HL(), r);
    SetFlagsZnhc(cpu, r == 0, false, false, n >= 0x80);
    res := Advance(cpu, 2, 4, mmu.State());
  }

  /** `SlaN`/`SraN`: the flags and `pc += 2` come before the selector is matched. */
  method ShiftOp(cpu: Cpu.CPU, mmu: Mmu.MMU, sel: u8, n: u8, right: bool) returns (res: StepResult)
    requires mmu.Valid()
    modifies cpu, mmu.Repr()
    ensures Agrees(Shift(old(cpu.State()), old(mmu.State()), sel, n, right), res, cpu.State(), mmu.State())
  {
    var r := if right then ShiftRightArith(n) else ShiftLeft(n, false);
    SetFlagsZnhc(cpu, r == 0, false, false, if right then n % 2 == 1 else n >= 0x80);
    res := ShiftToOp(cpu, mmu, sel, r);
  }

  /** The tail of `SlaN`/`SraN`: `pc += 2`, then the selector picks a register or (HL). */
  method ShiftToOp(cpu: Cpu.CPU, mmu: Mmu.MMU, sel: u8, r: u8) returns (res: StepResult)
    requires mmu.Valid()
    modifies cpu, mmu.Repr()
    ensures Agrees(ShiftTo(old(cpu.State()), old(mmu.State()), sel, r), res, cpu.State(), mmu.State())
  {
    if cpu.pc + 2 > 0xFFFF {
      return Panic(PcOverflow);
    }
    cpu.pc := cpu.pc + 2;
    if sel <= 6 {
      cpu.SetR8(sel, r);
      res := Cycles(2);
    } else if sel == 7 {
      mmu.WriteByte(cpu.State().HL(), r);
      res := Cycles(4);
    } else {
      res := Panic(BadSelector);
    }
  }

  /** `BitbR`/`BitbHl`: C is left alone. */
  method BitOp(cpu: Cpu.CPU, mask: u8, n: u8, cycles: nat, ghost mem: Mmu.Bus) returns (res: StepResult)
    modifies cpu
    ensures Agrees(Next(old(cpu.State()).(f := BitFlags(old(cpu.f), mask, n)), mem, 2, cycles), res, cpu.State(), mem)
  {
    SetFlagsZnh(cpu, And8(n, mask) == 0, false, true);
    res := Advance(cpu, 2, cycles, mem);
  }

  /** `JrN`/`JrZ`/`JrC`: the wrapping jump, then the non-wrapping `pc += 2`. */
  method JumpOp(cpu: Cpu.CPU, taken: bool, e: i8, ghost mem: Mmu.Bus) returns (res: StepResult)
    modifies cpu
    ensures Agrees(JumpIf(old(cpu.State()), mem, taken, e), res, cpu.State(), mem)
  {
    if taken {
      cpu.pc := JumpBase(cpu.pc, e);
    }
    res := Advance(cpu, 2, 2, mem);
  }

  /** `Callnn`. */
  method CallOp(cpu: Cpu.CPU, mmu: Mmu.MMU, target: u16) returns (res: StepResult)
    requires mmu.Valid()
    modifies cpu, mmu.Repr()
    ensures Agrees(Call(old(cpu.State()), old(mmu.State()), target), res, cpu.State(), mmu.State())
  {
    if cpu.pc + 3 > 0xFFFF {
      return Panic(PcOverflow);
    }
    cpu.pc := cpu.pc + 3;
    cpu.sp := Wrap16(cpu.sp - 1);
    mmu.WriteByte(cpu.sp, Hi(cpu.pc));
    cpu.sp := Wrap16(cpu.sp - 1);
    mmu.WriteByte(cpu.sp, Lo(cpu.pc));
    cpu.pc := target;
    res := Cycles(3);
  }

  /** `Ret`: both writes of `sp` store the same `sp + 1`. */
  method ReturnOp(cpu: Cpu.CPU, mmu: Mmu.MMU) returns (res: StepResult)
    requires mmu.Valid()
    modifies cpu
    ensures Agrees(Return(old(cpu.State()), mmu.State()), res, cpu.State(), mmu.State())
  {
    var sp := cpu.sp;
    var low := mmu.ReadByte(sp);
    cpu.sp := Wrap16(sp as int + 1);
    var high := mmu.ReadByte(cpu.sp);
    cpu.sp := Wrap16(sp as int + 1);
    cpu.pc := Word(high, low);
    res := Cycles(2);
  }

  // ----- The groups: pick the arm, in the specification's order -------------

  method ExecuteLoadImmediate(cpu: Cpu.CPU, ins: Instruction, ghost mem: Mmu.Bus) returns (res: StepResult)
    modifies cpu
    ensures Agrees(ExecLoadImmediate(old(cpu.State()), mem, ins), res, cpu.State(), mem)
  {
    if ins.LdN? {
      res := SelectLoadOp(cpu, ins.sel, ins.n, 2, 2, mem);
    } else if ins.LdAR2? {
      res := LoadAOp(cpu, ins.sel, ins.n, mem);
    } else if ins.LdAnn? {
      res := LoadOp(cpu, 0, ins.n, 3, 4, mem);
    } else if ins.LdAd8? {
      res := LoadOp(cpu, 0, ins.n, 2, 2, mem);
    } else if ins.LdnA? {
      res := SelectLoadOp(cpu, ins.sel, ins.n, 1, 1, mem);
    } else {
      res := Panic(NoArm);
    }
  }

  method ExecuteLoadRegister(cpu: Cpu.CPU, ins: Instruction, ghost mem: Mmu.Bus) returns (res: StepResult)
    modifies cpu
    ensures Agrees(ExecLoadRegister(old(cpu.State()), mem, ins), res, cpu.State(), mem)
  {
    if ins.LdBR2? {
      res := LoadOp(cpu, 1, ins.n, 1, if ins.fromHl then 2 else 1, mem);
    } else if ins.LdCR2? {
      res := LoadOp(cpu, 2, ins.n, 1, if ins.fromHl then 2 else 1, mem);
    } else if ins.LdDR2? {
      res := LoadOp(cpu, 3, ins.n, 1, if ins.fromHl then 2 else 1, mem);
    } else if ins.LdER2? {
      res := LoadOp(cpu, 4, ins.n, 1, if ins.fromHl then 2 else 1, mem);
    } else if ins.LdHR2? {
      res := LoadOp(cpu, 5, ins.n, 1, if ins.fromHl then 2 else 1, mem);
    } else if ins.LdLR2? {
      res := LoadOp(cpu, 6, ins.n, 1, if ins.fromHl then 2 else 1, mem);
    } else {
      res := Panic(NoArm);
    }
  }

  method ExecuteLoadMemory(cpu: Cpu.CPU, mmu: Mmu.MMU, ins: Instruction) returns (res: StepResult)
    requires mmu.Valid()
    modifies cpu, mmu.Repr()
    ensures Agrees(ExecLoadMemory(old(cpu.State()), old(mmu.State()), ins), res, cpu.State(), mmu.State())
  {
    if ins.Ldn16A? {
      res := StoreOp(cpu, mmu, ins.nn, ins.n, 1, 2);
    } else if ins.Lda16A? {
      res := StoreOp(cpu, mmu, ins.nn, ins.n, 3, 4);
    } else if ins.LdAc? {
      res := FetchOp(cpu, mmu, 0, 0xFF00 + ins.n, 2, 2);
    } else if ins.LdCa? {
      res := FetchOp(cpu, mmu, 2, 0xFF00 + ins.n, 2, 2);
    } else if ins.LdHnA? {
      res := StoreOp(cpu, mmu, 0xFF00 + ins.n, cpu.a, 2, 3);
    } else if ins.LdHAn? {
      res := FetchOp(cpu, mmu, 0, 0xFF00 + ins.n, 2, 3);
    } else {
      res := Panic(NoArm);
    }
  }

  method ExecuteLoadHlStep(cpu: Cpu.CPU, mmu: Mmu.MMU, ins: Instruction) returns (res: StepResult)
    requires mmu.Valid()
    modifies cpu, mmu.Repr()
    ensures Agrees(ExecLoadHlStep(old(cpu.State()), old(mmu.State()), ins), res, cpu.State(), mmu.State())
  {
    if ins.LddAHl? {
      res := FetchStepHlOp(cpu, mmu, ins.nn, false);
    } else if ins.LddHlA? {
      res := StoreStepHlOp(cpu, mmu, ins.nn, false);
    } else if ins.LdIAHl? {
      res := FetchStepHlOp(cpu, mmu, ins.nn, true);
    } else if ins.LdIHlA? {
      res := StoreStepHlOp(cpu, mmu, ins.nn, true);
    } else {
      res := Panic(NoArm);
    }
  }

  method ExecuteLoadPair(cpu: Cpu.CPU, ins: Instruction, ghost mem: Mmu.Bus) returns (res: StepResult)
    modifies cpu
    ensures Agrees(ExecLoadPair(old(cpu.State()), mem, ins), res, cpu.State(), mem)
  {
    if ins.LdBc? {
      res := PairOp(cpu, 0, ins.nn, 3, 3, mem);
    } else if ins.LdDe? {
      res := PairOp(cpu, 1, ins.nn, 3, 3, mem);
    } else if ins.LdHl? {
      res := PairOp(cpu, 2, ins.nn, 3, 3, mem);
    } else if ins.LdSp? {
      res := PairOp(cpu, 3, ins.nn, 3, 3, mem);
    } else if ins.LdSpHl? {
      res := PairOp(cpu, 3, ins.nn, 1, 3, mem);
    } else {
      res := Panic(NoArm);
    }
  }

  method ExecuteStack(cpu: Cpu.CPU, mmu: Mmu.MMU, ins: Instruction) returns (res: StepResult)
    requires mmu.Valid()
    modifies cpu, mmu.Repr()
    ensures Agrees(ExecStack(old(cpu.State()), old(mmu.State()), ins), res, cpu.State(), mmu.State())
  {
    if ins.LdHlSp? {
      res := LoadHlSpOp(cpu, ins.e, mmu.State());
    } else if ins.LdnnSp? {
      res := StoreSpOp(cpu, mmu, ins.nn);
    } else if ins.Pushnn? {
      res := PushOp(cpu, mmu, ins.nn);
    } else if ins.Popnn? {
      res := PopOp(cpu, mmu, ins.sel);
    } else {
      res := Panic(NoArm);
    }
  }

  method ExecuteArith(cpu: Cpu.CPU, ins: Instruction, ghost mem: Mmu.Bus) returns (res: StepResult)
    modifies cpu
    ensures Agrees(ExecArith(old(cpu.State()), mem, ins), res, cpu.State(), mem)
  {
    if !IsArith(ins) {
      res := Panic(NoArm);
    } else {
      res := ArithOp(cpu, ins.n, Adds(ins), UsesCarry(ins), Compares(ins), OperandLength(ins), OperandCycles(ins), mem);
    }
  }

  method ExecuteLogic(cpu: Cpu.CPU, ins: Instruction, ghost mem: Mmu.Bus) returns (res: StepResult)
    modifies cpu
    ensures Agrees(ExecLogic(old(cpu.State()), mem, ins), res, cpu.State(), mem)
  {
    if !IsLogic(ins) {
      res := Panic(NoArm);
    } else {
      res := BitwiseOp(cpu, LogicOpOf(ins), ins.n, OperandLength(ins), OperandCycles(ins), mem);
    }
  }

  method ExecuteIncDec(cpu: Cpu.CPU, mmu: Mmu.MMU, ins: Instruction) returns (res: StepResult)
    requires mmu.Valid()
    modifies cpu, mmu.Repr()
    ensures Agrees(ExecIncDec(old(cpu.State()), old(mmu.State()), ins), res, cpu.State(), mmu.State())
  {
    if ins.IncN? {
      res := IncRegisterOp(cpu, ins.sel, mmu.State());
    } else if ins.IncHl? {
      res := StepMemoryOp(cpu, mmu, ins.nn, true);
    } else if ins.DecN? {
      res := DecRegisterOp(cpu, ins.sel, ins.n, mmu.State());
    } else if ins.DecHl? {
      res := StepMemoryOp(cpu, mmu, ins.nn, false);
    } else {
      res := Panic(NoArm);
    }
  }

  method ExecuteWide(cpu: Cpu.CPU, ins: Instruction, ghost mem: Mmu.Bus) returns (res: StepResult)
    modifies cpu
    ensures Agrees(ExecWide(old(cpu.State()), mem, ins), res, cpu.State(), mem)
  {
    if ins.AddHlN? {
      res := AddHlOp(cpu, ins.nn, mem);
    } else if ins.IncNN? {
      res := StepPairOp(cpu, ins.sel, ins.nn, true, mem);
    } else if ins.DecNN? {
      res := StepPairOp(cpu, ins.sel, ins.nn, false, mem);
    } else {
      res := Panic(NoArm);
    }
  }

  method ExecuteMisc(cpu: Cpu.CPU, mmu: Mmu.MMU, ins: Instruction) returns (res: StepResult)
    requires mmu.Valid()
    modifies cpu, mmu.Repr()
    ensures Agrees(ExecMisc(old(cpu.State()), old(mmu.State()), ins), res, cpu.State(), mmu.State())
  {
    if ins.SwapN? {
      res := SwapRegisterOp(cpu, ins.sel, ins.n, mmu.State());
    } else if ins.SwapHl? {
      res := SwapMemoryOp(cpu, mmu, ins.n);
    } else if ins.Daa? {
      res := DaaOp(cpu, mmu.State());
    } else if ins.Cpl? {
      res := CplOp(cpu, ins.n, mmu.State());
    } else if ins.Scf? {
      res := ScfOp(cpu, mmu.State());
    } else {
      res := Panic(NoArm);
    }
  }

  method ExecuteControl(cpu: Cpu.CPU, ins: Instruction, ghost mem: Mmu.Bus) returns (res: StepResult)
    modifies cpu
    ensures Agrees(ExecControl(old(cpu.State()), mem, ins), res, cpu.State(), mem)
  {
    if ins.Nop? {
      res := Advance(cpu, 1, 1, mem);
    } else if ins.Halt? {
      res := Cycles(1);
    } else if ins.Di? {
      cpu.ime := false;
      res := Cycles(1);
    } else if ins.Ei? {
      cpu.ei := true;
      res := Cycles(1);
    } else {
      res := Panic(NoArm);
    }
  }

  method ExecuteRotate(cpu: Cpu.CPU, mmu: Mmu.MMU, ins: Instruction) returns (res: StepResult)
    requires mmu.Valid()
    modifies cpu, mmu.Repr()
    ensures Agrees(ExecRotate(old(cpu.State()), old(mmu.State()), ins), res, cpu.State(), mmu.State())
  {
    if ins.Rlca? {
      res := RotateAOp(cpu, ins.n, ins.n >= 0x80, mmu.State());
    } else if ins.Rla? {
      res := RotateAOp(cpu, ins.n, Cpu.FlagC(cpu.f), mmu.State());
    } else if ins.RlN? {
      res := RotateRegisterOp(cpu, ins.sel, ins.n, mmu.State());
    } else if ins.RlHl? {
      res := RotateMemoryOp(cpu, mmu, ins.n);
    } else {
      res := Panic(NoArm);
    }
  }

  method ExecuteShiftBit(cpu: Cpu.CPU, mmu: Mmu.MMU, ins: Instruction) returns (res: StepResult)
    requires mmu.Valid()
    modifies cpu, mmu.Repr()
    ensures Agrees(ExecShiftBit(old(cpu.State()), old(mmu.State()), ins), res, cpu.State(), mmu.State())
  {
    if ins.SlaN? {
      res := ShiftOp(cpu, mmu, ins.sel, ins.n, false);
    } else if ins.SraN? {
      res := ShiftOp(cpu, mmu, ins.sel, ins.n, true);
    } else if ins.BitbR? {
      res := BitOp(cpu, ins.mask, ins.n, 2, mmu.State());
    } else if ins.BitbHl? {
      res := BitOp(cpu, ins.mask, ins.n, 4, mmu.State());
    } else {
      res := Panic(NoArm);
    }
  }

  method ExecuteJump(cpu: Cpu.CPU, mmu: Mmu.MMU, ins: Instruction) returns (res: StepResult)
    requires mmu.Valid()
    modifies cpu, mmu.Repr()
    ensures Agrees(ExecJump(old(cpu.State()), old(mmu.State()), ins), res, cpu.State(), mmu.State())
  {
    if ins.JrN? {
      res := JumpOp(cpu, true, ins.e, mmu.State());
    } else if ins.JrZ? {
      res := JumpOp(cpu, Cpu.FlagZ(cpu.f) == ins.flag, ins.e, mmu.State());
    } else if ins.JrC? {
      res := JumpOp(cpu, Cpu.FlagN(cpu.f) == ins.flag, ins.e, mmu.State());
    } else if ins.Callnn? {
      res := CallOp(cpu, mmu, ins.nn);
    } else if ins.Ret? {
      res := ReturnOp(cpu, mmu);
    } else {
      res := Panic(NoArm);
    }
  }

  // ----- Families, `executer` and `run_instruction` -------------------------

  method LoadViaLoadImmediate(cpu: Cpu.CPU, mmu: Mmu.MMU, ins: Instruction) returns (res: StepResult)
    requires mmu.Valid() && IsLoadImmediate(ins)
    modifies cpu, mmu.Repr()
    ensures Agrees(ExecLoad(old(cpu.State()), old(mmu.State()), ins), res, cpu.State(), mmu.State())
  {
    res := ExecuteLoadImmediate(cpu, ins, mmu.State());
  }

  method LoadViaLoadRegister(cpu: Cpu.CPU, mmu: Mmu.MMU, ins: Instruction) returns (res: StepResult)
    requires mmu.Valid() && IsLoadRegister(ins)
    modifies cpu, mmu.Repr()
    ensures Agrees(ExecLoad(old(cpu.State()), old(mmu.State()), ins), res, cpu.State(), mmu.State())
  {
    res := ExecuteLoadRegister(cpu, ins, mmu.State());
  }

  method LoadViaLoadMemory(cpu: Cpu.CPU, mmu: Mmu.MMU, ins: Instruction) returns (res: StepResult)
    requires mmu.Valid() && IsLoadMemory(ins)
    modifies cpu, mmu.Repr()
    ensures Agrees(ExecLoad(old(cpu.State()), old(mmu.State()), ins), res, cpu.State(), mmu.State())
  {
    res := ExecuteLoadMemory(cpu, mmu, ins);
  }

  method LoadViaLoadHlStep(cpu: Cpu.CPU, mmu: Mmu.MMU, ins: Instruction) returns (res: StepResult)
    requires mmu.Valid() && IsLoadHlStep(ins)
    modifies cpu, mmu.Repr()
    ensures Agrees(ExecLoad(old(cpu.State()), old(mmu.State()), ins), res, cpu.State(), mmu.State())
  {
    res := ExecuteLoadHlStep(cpu, mmu, ins);
  }

  method ExecuteLoad(cpu: Cpu.CPU, mmu: Mmu.MMU, ins: Instruction) returns (res: StepResult)
    requires mmu.Valid()
    modifies cpu, mmu.Repr()
    ensures Agrees(ExecLoad(old(cpu.State()), old(mmu.State()), ins), res, cpu.State(), mmu.State())
  {
    if IsLoadImmediate(ins) {
      res := LoadViaLoadImmediate(cpu, mmu, ins);
    } else if IsLoadRegister(ins) {
      res := LoadViaLoadRegister(cpu, mmu, ins);
    } else if IsLoadMemory(ins) {
      res := LoadViaLoadMemory(cpu, mmu, ins);
    } else if IsLoadHlStep(ins) {
      res := LoadViaLoadHlStep(cpu, mmu, ins);
    } else {
      res := Panic(NoArm);
    }
  }

  method AluViaArith(cpu: Cpu.CPU, mmu: Mmu.MMU, ins: Instruction) returns (res: StepResult)
    requires mmu.Valid() && IsArith(ins)
    modifies cpu, mmu.Repr()
    ensures Agrees(ExecAlu(old(cpu.State()), old(mmu.State()), ins), res, cpu.State(), mmu.State())
  {
    res := ExecuteArith(cpu, ins, mmu.State());
  }

  method AluViaLogic(cpu: Cpu.CPU, mmu: Mmu.MMU, ins: Instruction) returns (res: StepResult)
    requires mmu.Valid() && IsLogic(ins)
    modifies cpu, mmu.Repr()
    ensures Agrees(ExecAlu(old(cpu.State()), old(mmu.State()), ins), res, cpu.State(), mmu.State())
  {
    res := ExecuteLogic(cpu, ins, mmu.State());
  }

  method AluViaIncDec(cpu: Cpu.CPU, mmu: Mmu.MMU, ins: Instruction) returns (res: StepResult)
    requires mmu.Valid() && IsIncDec(ins)
    modifies cpu, mmu.Repr()
    ensures Agrees(ExecAlu(old(cpu.State()), old(mmu.State()), ins), res, cpu.State(), mmu.State())
  {
    res := ExecuteIncDec(cpu, mmu, ins);
  }

  method AluViaWide(cpu: Cpu.CPU, mmu: Mmu.MMU, ins: Instruction) returns (res: StepResult)
    requires mmu.Valid() && IsWide(ins)
    modifies cpu, mmu.Repr()
    ensures Agrees(ExecAlu(old(cpu.State()), old(mmu.State()), ins), res, cpu.State(), mmu.State())
  {
    res := ExecuteWide(cpu, ins, mmu.State());
  }

  method ExecuteAlu(cpu: Cpu.CPU, mmu: Mmu.MMU, ins: Instruction) returns (res: StepResult)
    requires mmu.Valid()
    modifies cpu, mmu.Repr()
    ensures Agrees(ExecAlu(old(cpu.State()), old(mmu.State()), ins), res, cpu.State(), mmu.State())
  {
    if IsArith(ins) {
      res := AluViaArith(cpu, mmu, ins);
    } else if IsLogic(ins) {
      res := AluViaLogic(cpu, mmu, ins);
    } else if IsIncDec(ins) {
      res := AluViaIncDec(cpu, mmu, ins);
    } else if IsWide(ins) {
      res := AluViaWide(cpu, mmu, ins);
    } else {
      res := Panic(NoArm);
    }
  }

  method OtherViaMisc(cpu: Cpu.CPU, mmu: Mmu.MMU, ins: Instruction) returns (res: StepResult)
    requires mmu.Valid() && IsMisc(ins)
    modifies cpu, mmu.Repr()
    ensures Agrees(ExecOther(old(cpu.State()), old(mmu.State()), ins), res, cpu.State(), mmu.State())
  {
    res := ExecuteMisc(cpu, mmu, ins);
  }

  method OtherViaControl(cpu: Cpu.CPU, mmu: Mmu.MMU, ins: Instruction) returns (res: StepResult)
    requires mmu.Valid() && IsControl(ins)
    modifies cpu, mmu.Repr()
    ensures Agrees(ExecOther(old(cpu.State()), old(mmu.State()), ins), res, cpu.State(), mmu.State())
  {
    res := ExecuteControl(cpu, ins, mmu.State());
  }

  method OtherViaRotate(cpu: Cpu.CPU, mmu: Mmu.MMU, ins: Instruction) returns (res: StepResult)
    requires mmu.Valid() && IsRotate(ins)
    modifies cpu, mmu.Repr()
    ensures Agrees(ExecOther(old(cpu.State()), old(mmu.State()), ins), res, cpu.State(), mmu.State())
  {
    res := ExecuteRotate(cpu, mmu, ins);
  }

  method OtherViaShiftBit(cpu: Cpu.CPU, mmu: Mmu.MMU, ins: Instruction) returns (res: StepResult)
    requires mmu.Valid() && IsShiftBit(ins)
    modifies cpu, mmu.Repr()
    ensures Agrees(ExecOther(old(cpu.State()), old(mmu.State()), ins), res, cpu.State(), mmu.State())
  {
    res := ExecuteShiftBit(cpu, mmu, ins);
  }

  method ExecuteOther(cpu: Cpu.CPU, mmu: Mmu.MMU, ins: Instruction) returns (res: StepResult)
    requires mmu.Valid()
    modifies cpu, mmu.Repr()
    ensures Agrees(ExecOther(old(cpu.State()), old(mmu.State()), ins), res, cpu.State(), mmu.State())
  {
    if IsMisc(ins) {
      res := OtherViaMisc(cpu, mmu, ins);
    } else if IsControl(ins) {
      res := OtherViaControl(cpu, mmu, ins);
    } else if IsRotate(ins) {
      res := OtherViaRotate(cpu, mmu, ins);
    } else if IsShiftBit(ins) {
      res := OtherViaShiftBit(cpu, mmu, ins);
    } else {
      res := Panic(NoArm);
    }
  }

  method ExecViaLoad(cpu: Cpu.CPU, mmu: Mmu.MMU, ins: Instruction) returns (res: StepResult)
    requires mmu.Valid() && IsLoad(ins)
    modifies cpu, mmu.Repr()
    ensures Agrees(Exec(old(cpu.State()), old(mmu.State()), ins), res, cpu.State(), mmu.State())
  {
    res := ExecuteLoad(cpu, mmu, ins);
  }

  method ExecViaLoadPair(cpu: Cpu.CPU, mmu: Mmu.MMU, ins: Instruction) returns (res: StepResult)
    requires mmu.Valid() && !IsLoad(ins) && IsLoadPair(ins)
    modifies cpu, mmu.Repr()
    ensures Agrees(Exec(old(cpu.State()), old(mmu.State()), ins), res, cpu.State(), mmu.State())
  {
    res := ExecuteLoadPair(cpu, ins, mmu.State());
  }

  method ExecViaStack(cpu: Cpu.CPU, mmu: Mmu.MMU, ins: Instruction) returns (res: StepResult)
    requires mmu.Valid() && !IsLoad(ins) && !IsLoadPair(ins) && IsStack(ins)
    modifies cpu, mmu.Repr()
    ensures Agrees(Exec(old(cpu.State()), old(mmu.State()), ins), res, cpu.State(), mmu.State())
  {
    res := ExecuteStack(cpu, mmu, ins);
  }

  method ExecViaAlu(cpu: Cpu.CPU, mmu: Mmu.MMU, ins: Instruction) returns (res: StepResult)
    requires mmu.Valid() && !IsLoad(ins) && !IsLoadPair(ins) && !IsStack(ins) && IsAlu(ins)
    modifies cpu, mmu.Repr()
    ensures Agrees(Exec(old(cpu.State()), old(mmu.State()), ins), res, cpu.State(), mmu.State())
  {
    res := ExecuteAlu(cpu, mmu, ins);
  }

  method ExecViaOther(cpu: Cpu.CPU, mmu: Mmu.MMU, ins: Instruction) returns (res: StepResult)
    requires mmu.Valid() && !IsLoad(ins) && !IsLoadPair(ins) && !IsStack(ins) && !IsAlu(ins) && IsOther(ins)
    modifies cpu, mmu.Repr()
    ensures Agrees(Exec(old(cpu.State()), old(mmu.State()), ins), res, cpu.State(), mmu.State())
  {
    res := ExecuteOther(cpu, mmu, ins);
  }

  method ExecViaJump(cpu: Cpu.CPU, mmu: Mmu.MMU, ins: Instruction) returns (res: StepResult)
    requires mmu.Valid() && !IsLoad(ins) && !IsLoadPair(ins) && !IsStack(ins) && !IsAlu(ins) && !IsOther(ins) && IsJump(ins)
    modifies cpu, mmu.Repr()
    ensures Agrees(Exec(old(cpu.State()), old(mmu.State()), ins), res, cpu.State(), mmu.State())
  {
    res := ExecuteJump(cpu, mmu, ins);
  }

  /** `executer(cpu, instruction, mmu)`: the returned cycle count, or the panic. */
  method ExecuteInstruction(cpu: Cpu.CPU, mmu: Mmu.MMU, ins: Instruction) returns (res: StepResult)
    requires mmu.Valid()
    modifies cpu, mmu.Repr()
    ensures Agrees(Exec(old(cpu.State()), old(mmu.State()), ins), res, cpu.State(), mmu.State())
  {
    if IsLoad(ins) {
      res := ExecViaLoad(cpu, mmu, ins);
    } else if IsLoadPair(ins) {
      res := ExecViaLoadPair(cpu, mmu, ins);
    } else if IsStack(ins) {
      res := ExecViaStack(cpu, mmu, ins);
    } else if IsAlu(ins) {
      res := ExecViaAlu(cpu, mmu, ins);
    } else if IsOther(ins) {
      res := ExecViaOther(cpu, mmu, ins);
    } else if IsJump(ins) {
      res := ExecViaJump(cpu, mmu, ins);
    } else {
      res := Panic(NoArm);
    }
  }

  /** `run_instruction`: read the opcode at `pc`, decode it, execute it. */
  method RunInstruction(cpu: Cpu.CPU, mmu: Mmu.MMU) returns (res: StepResult)
    requires mmu.Valid()
    modifies cpu, mmu.Repr()
    ensures Agrees(Step(old(cpu.State()), old(mmu.State())), res, cpu.State(), mmu.State())
  {
    var opcode := mmu.ReadByte(cpu.pc);
    var decoded := Opcodes.Decode(cpu.State(), mmu.State(), opcode);
    match decoded {
      case Ok(ins) => res := ExecuteInstruction(cpu, mmu, ins);
      case Unmapped(_) => res := Panic(NoOpcode);
      case AddressOverflow => res := Panic(PcOverflow);
    }
  }
}
