// Properties of the executor, one instruction (or one pair of instructions)
// at a time: what each arm promises about the registers, the flags, memory
// and the cycle count, and where the emulator departs from the Sharp SM83 it
// emulates.  Each is stated on the group of arms (`ExecArith`, `ExecJump`,
// ...) that `Exec` hands the instruction to.
module ExecuteLaws {
  import opened Bits
  import opened Instructions
  import Cpu
  import Mmu
  import opened Execute

  // ----- Helpers on register pairs ----------------------------------------

  /** Writing a 16-bit register and reading it back gives the written value; the others are kept. */
  lemma SetPairReads(r: Cpu.Registers, sel: nat, w: u16)
    requires sel < 4
    ensures Pair(SetPair(r, sel, w), sel) == w
    ensures forall k :: 0 <= k < 4 && k != sel ==> Pair(SetPair(r, sel, w), k) == Pair(r, k)
    ensures SetPair(r, sel, w).(b := r.b, c := r.c, d := r.d, e := r.e, h := r.h, l := r.l, sp := r.sp) == r
  {
    WordSplits(w);
  }

  /** Writing back a register's own value changes nothing. */
  lemma SetPairOwn(r: Cpu.Registers, sel: nat)
    requires sel < 4
    ensures SetPair(r, sel, Pair(r, sel)) == r
  {
  }

  /** Both stack slots of a push lie outside the I/O window, so they are plain memory. */
  predicate StackOutsideIo(sp: u16)
  {
    !Mmu.IsIo(Wrap16(sp - 1)) && !Mmu.IsIo(Wrap16(sp - 2))
  }

  // ----- Single arms ------------------------------------------------------

  /** NOP: `pc` advances by one, one cycle, and nothing else changes. */
  lemma NopAdvances(r: Cpu.Registers, mem: Mmu.Bus)
    requires Mmu.WellFormed(mem) && r.pc < 0xFFFF
    ensures ExecControl(r, mem, Nop) == Done(r.(pc := r.pc + 1), mem, 1)
  {
  }

  /**
   * DAA, HALT, DI, EI and LD (nn),SP never advance `pc`: executing one of
   * them leaves `pc` on the same byte.
   */
  lemma NoPcAdvance(r: Cpu.Registers, mem: Mmu.Bus, ins: Instruction)
    requires Mmu.WellFormed(mem)
    requires ins.Daa? || ins.Halt? || ins.Di? || ins.Ei? || ins.LdnnSp?
    ensures var o := if ins.Daa? then ExecMisc(r, mem, ins)
                     else if ins.LdnnSp? then ExecStack(r, mem, ins)
                     else ExecControl(r, mem, ins);
      o.Done? && o.regs.pc == r.pc
  {
  }

  /** HALT does nothing but spend a cycle: `halted` is not set. */
  lemma HaltIsInert(r: Cpu.Registers, mem: Mmu.Bus)
    requires Mmu.WellFormed(mem)
    ensures ExecControl(r, mem, Halt) == Done(r, mem, 1)
  {
  }

  /** The three CP forms go through `alu_sub` without carry and keep A. */
  lemma CompareForms(r: Cpu.Registers, mem: Mmu.Bus, ins: Instruction)
    requires ins.Cp? || ins.CpHl? || ins.CpD8?
    ensures ExecArith(r, mem, ins) == Arith(r, mem, ins.n, false, false, true, OperandLength(ins), OperandCycles(ins))
    ensures OperandLength(ins) == (if ins.CpD8? then 2 else 1)
    ensures OperandCycles(ins) == (if ins.Cp? then 1 else 2)
  {
  }

  /**
   * CP: the flags of a subtraction without carry, so Z iff A equals the
   * operand, N set, C iff A is below it; A and memory are kept.
   */
  lemma CompareKeepsA(r: Cpu.Registers, mem: Mmu.Bus, n: u8, len: nat, cycles: nat)
    requires r.pc + len <= 0xFFFF
    ensures var o := Arith(r, mem, n, false, false, true, len, cycles);
      && o.Done? && o.bus == mem && o.cycles == cycles
      && o.regs == r.(pc := r.pc + len, f := o.regs.f)
      && o.regs.f == Cpu.Sub8(r.a, r.f, n, false).flags
      && (Cpu.FlagZ(o.regs.f) <==> r.a == n)
      && Cpu.FlagN(o.regs.f)
      && (Cpu.FlagC(o.regs.f) <==> r.a < n)
  {
    var s := Cpu.Sub8(r.a, r.f, n, false);
    assert Cpu.CarryIn(r.f, false) == 0;
    assert r.a - n == s.value - (if Cpu.FlagC(s.flags) then 0x100 else 0);
  }

  /** The operator of a logic form: AND for the three AND forms, OR for the OR forms, else XOR. */
  lemma LogicForms(ins: Instruction)
    requires IsLogic(ins)
    ensures LogicOpOf(ins) == AndOp <==> ins.Andn? || ins.AndHl? || ins.AndD8?
    ensures LogicOpOf(ins) == OrOp <==> ins.OrN? || ins.OrHl? || ins.OrD8?
    ensures LogicOpOf(ins) == XorOp <==> ins.Xor? || ins.XorHl? || ins.XorD8?
  {
  }

  /**
   * AND, OR and XOR: A receives the bitwise result; Z iff it is zero, N and
   * C cleared, H set exactly for AND; memory is kept.
   */
  lemma LogicFlagsLaw(r: Cpu.Registers, mem: Mmu.Bus, op: LogicOp, n: u8, len: nat, cycles: nat)
    requires r.pc + len <= 0xFFFF
    ensures var o := Logic(r, mem, op, n, len, cycles);
      && o.Done? && o.bus == mem && o.cycles == cycles
      && o.regs == r.(pc := r.pc + len, a := o.regs.a, f := o.regs.f)
      && (op == AndOp ==> o.regs.a == And8(r.a, n))
      && (op == OrOp ==> o.regs.a == Or8(r.a, n))
      && (op == XorOp ==> o.regs.a == Xor8(r.a, n))
      && (Cpu.FlagZ(o.regs.f) <==> o.regs.a == 0)
      && !Cpu.FlagN(o.regs.f) && !Cpu.FlagC(o.regs.f)
      && (Cpu.FlagH(o.regs.f) <==> op == AndOp)
  {
  }

  /**
   * INC rr then DEC rr on the same pair: the first writes the pair plus one
   * (wrapping) and keeps the other pairs and the flags, the second restores
   * every register; each takes 2 cycles and one `pc` step.
   */
  lemma StepPairInverse(r: Cpu.Registers, mem: Mmu.Bus, sel: u8)
    requires sel < 4 && r.pc + 2 <= 0xFFFF
    ensures var o1 := StepPair(r, mem, sel, Pair(r, sel), true);
      && o1.Done? && o1.cycles == 2 && o1.bus == mem
      && Pair(o1.regs, sel) == Wrap16(Pair(r, sel) + 1)
      && (forall k :: 0 <= k < 4 && k != sel ==> Pair(o1.regs, k) == Pair(r, k))
      && o1.regs.a == r.a && o1.regs.f == r.f && o1.regs.pc == r.pc + 1
      && StepPair(o1.regs, o1.bus, sel, Pair(o1.regs, sel), false) == Done(r.(pc := r.pc + 2), mem, 2)
  {
    var w := Wrap16(Pair(r, sel) + 1);
    SetPairReads(r, sel, w);
    SetPairInverse(r, sel, SetPair(r, sel, w));
    PairIgnoresPc(SetPair(r, sel, w), sel, r.pc + 1, Pair(r, sel));
  }

  /** A second write to the same 16-bit register overrides the first. */
  lemma SetPairTwice(r: Cpu.Registers, sel: nat, w1: u16, w2: u16)
    requires sel < 4
    ensures SetPair(SetPair(r, sel, w1), sel, w2) == SetPair(r, sel, w2)
  {
    if sel == 0 {
    } else if sel == 1 {
    } else if sel == 2 {
    } else {
    }
  }

  /** A wrapping step up and then down again lands where it started. */
  lemma StepBack(x: u16)
    ensures Wrap16(Wrap16(x + 1) as int - 1) == x
  {
  }

  /** Stepping a pair up and then down again gives the registers back. */
  lemma SetPairInverse(r: Cpu.Registers, sel: nat, r1: Cpu.Registers)
    requires sel < 4 && r1 == SetPair(r, sel, Wrap16(Pair(r, sel) as int + 1))
    ensures SetPair(r1, sel, Wrap16(Pair(r1, sel) as int - 1)) == r
  {
    var x := Pair(r, sel);
    var w := Wrap16(x as int + 1);
    SetPairReads(r, sel, w);
    StepBack(x);
    SetPairTwice(r, sel, w, x);
    SetPairOwn(r, sel);
    var y := Wrap16(Pair(r1, sel) as int - 1);
    assert y == x;
    assert SetPair(r1, sel, y) == r;
  }

  /** The 16-bit registers do not involve `pc`. */
  lemma PairIgnoresPc(r: Cpu.Registers, sel: nat, pc: u16, w: u16)
    requires sel < 4
    ensures Pair(r.(pc := pc), sel) == Pair(r, sel)
    ensures SetPair(r.(pc := pc), sel, w) == SetPair(r, sel, w).(pc := pc)
  {
  }

  /**
   * BIT: Z iff the tested bit (the mask) is clear in the operand, N
   * cleared, H set, C and the low nibble kept.
   */
  lemma BitTest(f: bv8, mask: u8, v: u8)
    ensures var g := BitFlags(f, mask, v);
      && (Cpu.FlagZ(g) <==> ToBv(v) & ToBv(mask) == 0)
      && !Cpu.FlagN(g) && Cpu.FlagH(g) && Cpu.FlagC(g) == Cpu.FlagC(f)
      && g & 0x0F == f & 0x0F
  {
    AndZeroIffDisjoint(v, mask);
  }

  /** BIT b,r takes 2 cycles and BIT b,(HL) 4; both advance `pc` by two and change only F. */
  lemma BitForms(r: Cpu.Registers, mem: Mmu.Bus, ins: Instruction)
    requires Mmu.WellFormed(mem) && (ins.BitbR? || ins.BitbHl?) && r.pc + 2 <= 0xFFFF
    ensures ExecShiftBit(r, mem, ins)
         == Done(r.(pc := r.pc + 2, f := BitFlags(r.f, ins.mask, ins.n)), mem, if ins.BitbR? then 2 else 4)
  {
  }

  /**
   * A relative jump: when taken, the signed offset is added to `pc`
   * (wrapping); then `pc` moves past the two bytes, without wrapping.
   */
  lemma RelativeJump(r: Cpu.Registers, mem: Mmu.Bus, taken: bool, e: i8)
    ensures var base := if taken then Wrap16(r.pc + e) else r.pc;
      JumpIf(r, mem, taken, e) == if base + 2 > 0xFFFF then Panicked(PcOverflow) else Done(r.(pc := base + 2), mem, 2)
  {
    assert JumpBase(r.pc, e) == Wrap16(r.pc + e) by {
      assert (SignExtend(e) - e) % 0x10000 == 0;
    }
  }

  /**
   * When the relative jumps are taken: JR always, JR Z/NZ when Z equals the
   * wanted value, and JR C/NC (departing from the SM83, which tests C) when
   * N equals it.
   */
  lemma JumpConditions(r: Cpu.Registers, mem: Mmu.Bus, ins: Instruction)
    requires Mmu.WellFormed(mem) && (ins.JrN? || ins.JrZ? || ins.JrC?)
    ensures var taken := if ins.JrN? then true
                         else if ins.JrZ? then Cpu.FlagZ(r.f) == ins.flag
                         else Cpu.FlagN(r.f) == ins.flag;
      ExecJump(r, mem, ins) == JumpIf(r, mem, taken, ins.e)
  {
  }

  /**
   * LD HL,SP+e: HL receives SP plus the signed offset (wrapping), SP is
   * kept, Z and N are kept; `e = -128` panics in `abs()`.
   */
  lemma LoadHlSpOffset(r: Cpu.Registers, mem: Mmu.Bus, e: i8)
    requires Mmu.WellFormed(mem) && r.pc + 2 <= 0xFFFF
    ensures var o := ExecStack(r, mem, LdHlSp(e));
      if e == -0x80 then o == Panicked(NegateOverflow)
      else
        && o.Done? && o.bus == mem && o.cycles == 3
        && o.regs.HL() == Wrap16(r.sp + e) && o.regs.sp == r.sp && o.regs.pc == r.pc + 2
        && o.regs.a == r.a && o.regs.BC() == r.BC() && o.regs.DE() == r.DE()
        && Cpu.FlagZ(o.regs.f) == Cpu.FlagZ(r.f) && Cpu.FlagN(o.regs.f) == Cpu.FlagN(r.f)
  {
  }

  /**
   * ADD HL,rr: HL receives the wrapped sum, C iff the sum carries out of bit
   * 15, N cleared, Z kept; H, computed from `hl + hl`, is bit 10 of the old
   * HL whatever the operand.  Only F, H and L change.
   */
  lemma AddToHlLaw(r: Cpu.Registers, nn: u16)
    ensures var q := AddToHl(r, nn);
      && q == r.(f := q.f, h := q.h, l := q.l)
      && q.HL() == (r.HL() + nn) % 0x10000
      && (Cpu.FlagC(q.f) <==> r.HL() + nn > 0xFFFF)
      && !Cpu.FlagN(q.f) && Cpu.FlagZ(q.f) == Cpu.FlagZ(r.f)
      && (Cpu.FlagH(q.f) <==> BitSet(r.HL(), 10))
  {
    var hl := r.HL();
    var f := Cpu.WithC(Cpu.WithN(Cpu.WithH(r.f, (hl % 0x800) * 2 > 0x7FF), false), hl > 0xFFFF - nn);
    assert AddToHl(r, nn) == r.(f := f).SetHL(Wrap16(hl + nn));
    AddToHlFlags(r.f, hl, nn);
  }

  /** The flags ADD HL,rr leaves: C the carry out of bit 15, N clear, Z kept, H bit 10 of HL. */
  lemma AddToHlFlags(f0: bv8, hl: u16, nn: u16)
    ensures var f := Cpu.WithC(Cpu.WithN(Cpu.WithH(f0, (hl % 0x800) * 2 > 0x7FF), false), hl > 0xFFFF - nn);
      && (Cpu.FlagC(f) <==> hl + nn > 0xFFFF)
      && !Cpu.FlagN(f) && Cpu.FlagZ(f) == Cpu.FlagZ(f0)
      && (Cpu.FlagH(f) <==> BitSet(hl, 10))
  {
    HalfCarryBit10(hl);
  }

  /** `(hl & 0x7FF) << 1 > 0x7FF` holds exactly when bit 10 of `hl` is set. */
  lemma HalfCarryBit10(hl: u16)
    ensures (hl % 0x800) * 2 > 0x7FF <==> BitSet(hl, 10)
  {
    assert hl % 0x800 == (hl / 0x400) % 2 * 0x400 + hl % 0x400;
  }

  /**
   * The byte 0xE2 (LD (0xFF00+C),A on the SM83) is executed as a load into
   * C from 0xFF00 + A: it writes register C, not memory.
   */
  lemma LoadCFromHighPage(r: Cpu.Registers, mem: Mmu.Bus, n: u8)
    requires Mmu.WellFormed(mem) && r.pc + 2 <= 0xFFFF
    ensures ExecLoadMemory(r, mem, LdCa(n)) == Done(r.(c := Mmu.Load(mem, 0xFF00 + n), pc := r.pc + 2), mem, 2)
  {
  }

  /**
   * RLCA and RLA: A receives the operand shifted left with bit 7 (RLCA) or
   * the old C (RLA) shifted in, C receives the old bit 7, and Z, N and H are
   * cleared.
   */
  lemma RotateALaw(r: Cpu.Registers, mem: Mmu.Bus, ins: Instruction)
    requires Mmu.WellFormed(mem) && (ins.Rlca? || ins.Rla?) && r.pc < 0xFFFF
    ensures var o := ExecRotate(r, mem, ins);
      var inBit := if ins.Rlca? then ins.n / 0x80 else (if Cpu.FlagC(r.f) then 1 else 0);
      && o.Done? && o.bus == mem && o.cycles == 1
      && o.regs == r.(pc := r.pc + 1, a := o.regs.a, f := o.regs.f)
      && o.regs.a == (ins.n * 2) % 0x100 + inBit
      && (Cpu.FlagC(o.regs.f) <==> ins.n >= 0x80)
      && !Cpu.FlagZ(o.regs.f) && !Cpu.FlagN(o.regs.f) && !Cpu.FlagH(o.regs.f)
  {
  }

  /** Every form the decoder builds but `executer` has no arm for reaches the fallback panic. */
  lemma UnhandledPanics(r: Cpu.Registers, mem: Mmu.Bus, ins: Instruction)
    requires Mmu.WellFormed(mem) && Unhandled(ins)
    ensures Exec(r, mem, ins) == Panicked(NoArm)
  {
    NotLoadOrStack(ins);
    NotAluOrJump(ins);
    NotOther(ins);
  }

  /** The load and stack families `Exec` dispatches to contain no unhandled form. */
  lemma NotLoadOrStack(ins: Instruction)
    requires Unhandled(ins)
    ensures !IsLoad(ins) && !IsLoadPair(ins) && !IsStack(ins)
  {
  }

  /** The ALU and jump families `Exec` dispatches to contain no unhandled form. */
  lemma NotAluOrJump(ins: Instruction)
    requires Unhandled(ins)
    ensures !IsAlu(ins) && !IsJump(ins)
  {
  }

  /** Nor do the miscellaneous, control, rotate and shift/bit families. */
  lemma NotOther(ins: Instruction)
    requires Unhandled(ins)
    ensures !IsOther(ins)
  {
  }

  // ----- Pairs of instructions --------------------------------------------

  /** Two bytes written at distinct plain addresses are both read back. */
  lemma TwoStores(mem: Mmu.Bus, a1: u16, v1: u8, a2: u16, v2: u8)
    requires Mmu.WellFormed(mem) && !Mmu.IsIo(a1) && !Mmu.IsIo(a2) && a1 != a2
    ensures Mmu.Load(Mmu.Store(Mmu.Store(mem, a1, v1), a2, v2), a1) == v1
    ensures Mmu.Load(Mmu.Store(Mmu.Store(mem, a1, v1), a2, v2), a2) == v2
  {
    Mmu.WriteOutsideIoIsLocal(Mmu.Store(mem, a1, v1), a2, v2, a1);
  }

  /** The two slots below SP: distinct, and each one step from the next with wrap-around. */
  lemma StackSlots(sp: u16)
    ensures var sp1 := Wrap16(sp - 1); var sp2 := Wrap16(sp1 as int - 1);
      && sp2 == Wrap16(sp - 2) && sp1 != sp2
      && Wrap16(sp2 as int + 1) == sp1 && Wrap16(sp1 as int + 1) == sp
  {
  }

  /** Popping the two bytes of a pair's own value back into it changes nothing. */
  lemma PopIntoOwn(r: Cpu.Registers, sel: nat)
    requires sel < 4
    ensures PopInto(r, sel, Hi(StackPair(r, sel)), Lo(StackPair(r, sel))) == r
  {
    if sel == 0 {
      BvRoundTrip(r.f);
    }
  }

  /**
   * PUSH: SP is decremented twice, the high byte lands at SP - 1 and the low
   * byte at SP - 2; 4 cycles.  The stack slots must be plain memory.
   */
  lemma PushStores(r: Cpu.Registers, mem: Mmu.Bus, w: u16)
    requires Mmu.WellFormed(mem) && r.pc < 0xFFFF && StackOutsideIo(r.sp)
    ensures var o := Push(r, mem, w);
      && o.Done? && o.cycles == 4 && o.regs == r.(sp := Wrap16(r.sp - 2), pc := r.pc + 1)
      && Mmu.Load(o.bus, Wrap16(r.sp - 1)) == Hi(w) && Mmu.Load(o.bus, Wrap16(r.sp - 2)) == Lo(w)
  {
    StackSlots(r.sp);
    TwoStores(mem, Wrap16(r.sp - 1), Hi(w), Wrap16(r.sp - 2), Lo(w));
  }

  /**
   * PUSH rr then POP rr: the pop reads back the two bytes the push stored,
   * so together they restore every register (F included) and SP, and only
   * advance `pc` by two.
   */
  lemma PushPopRoundTrip(r: Cpu.Registers, mem: Mmu.Bus, sel: u8)
    requires Mmu.WellFormed(mem) && sel < 4 && r.pc + 2 <= 0xFFFF && StackOutsideIo(r.sp)
    ensures var o1 := Push(r, mem, StackPair(r, sel));
      o1.Done? && Pop(o1.regs, o1.bus, sel) == Done(r.(pc := r.pc + 2), o1.bus, 3)
  {
    PushStores(r, mem, StackPair(r, sel));
    var o1 := Push(r, mem, StackPair(r, sel));
    PopAfterPush(r, o1.bus, sel);
  }

  /** POP after the stores of a PUSH of the same pair gives the registers back. */
  lemma PopAfterPush(r: Cpu.Registers, mem: Mmu.Bus, sel: u8)
    requires Mmu.WellFormed(mem) && sel < 4 && r.pc + 2 <= 0xFFFF
    requires Mmu.Load(mem, Wrap16(r.sp - 1)) == Hi(StackPair(r, sel))
    requires Mmu.Load(mem, Wrap16(r.sp - 2)) == Lo(StackPair(r, sel))
    ensures Pop(r.(sp := Wrap16(r.sp - 2), pc := r.pc + 1), mem, sel) == Done(r.(pc := r.pc + 2), mem, 3)
  {
    var w := StackPair(r, sel);
    StackSlots(r.sp);
    var r1 := r.(sp := Wrap16(r.sp - 2), pc := r.pc + 1);
    var r2 := r.(pc := r.pc + 2);
    assert StackPair(r2, sel) == w;
    PopIntoOwn(r2, sel);
    assert r1.(sp := Wrap16(Wrap16(r1.sp + 1) as int + 1), pc := r1.pc + 1) == r2;
    PopReads(r1, mem, sel, Hi(w), Lo(w));
  }

  /** POP with the two bytes known: the pair receives them and SP steps over them. */
  lemma PopReads(r: Cpu.Registers, mem: Mmu.Bus, sel: u8, hi: u8, lo: u8)
    requires Mmu.WellFormed(mem) && sel < 4 && r.pc < 0xFFFF
    requires Mmu.Load(mem, r.sp) == lo && Mmu.Load(mem, Wrap16(r.sp + 1)) == hi
    ensures Pop(r, mem, sel) == Done(PopInto(r.(sp := Wrap16(Wrap16(r.sp + 1) as int + 1), pc := r.pc + 1), sel, hi, lo), mem, 3)
  {
    PopIntoIgnoresPc(r.(sp := Wrap16(Wrap16(r.sp + 1) as int + 1)), sel, hi, lo, r.pc + 1);
  }

  /** POP writes no `pc`, so it commutes with advancing `pc`. */
  lemma PopIntoIgnoresPc(r: Cpu.Registers, sel: nat, hi: u8, lo: u8, pc: u16)
    requires sel < 4
    ensures PopInto(r, sel, hi, lo).(pc := pc) == PopInto(r.(pc := pc), sel, hi, lo)
  {
  }

  /**
   * CALL nn then RET: CALL pushes the address after itself, high byte
   * first, and jumps; RET comes back to that address, but increments SP
   * only once, so SP ends one below where it started.
   */
  lemma CallThenReturn(r: Cpu.Registers, mem: Mmu.Bus, target: u16)
    requires Mmu.WellFormed(mem) && r.pc + 3 <= 0xFFFF && StackOutsideIo(r.sp)
    ensures var o1 := Call(r, mem, target);
      && o1.Done? && o1.cycles == 3
      && o1.regs == r.(sp := Wrap16(r.sp - 2), pc := target)
      && Return(o1.regs, o1.bus) == Done(r.(sp := Wrap16(r.sp - 1), pc := r.pc + 3), o1.bus, 2)
  {
    var ret := r.pc + 3;
    var sp1 := Wrap16(r.sp - 1);
    var sp2 := Wrap16(sp1 as int - 1);
    StackSlots(r.sp);
    TwoStores(mem, sp1, Hi(ret), sp2, Lo(ret));
    var m2 := Mmu.Store(Mmu.Store(mem, sp1, Hi(ret)), sp2, Lo(ret));
    assert Call(r, mem, target) == Done(r.(sp := sp2, pc := target), m2, 3);
    WordSplits(ret);
  }

  // ----- DAA after a BCD addition or subtraction --------------------------

  /** A packed-BCD byte: two decimal digits, tens in the high nibble. */
  predicate IsBcd(x: u8)
  {
    x % 0x10 <= 9 && x / 0x10 <= 9
  }

  /** The number a packed-BCD byte stands for. */
  function Decimal(x: u8): nat
  {
    10 * (x / 0x10) + x % 0x10
  }

  /** The packed-BCD byte of a number below 100. */
  function Packed(n: int): u8
    requires 0 <= n < 100
  {
    0x10 * (n / 10) + n % 10
  }

  lemma DivMod10(x: int, q: int, r: int)
    requires x == 10 * q + r && 0 <= r < 10
    ensures x / 10 == q && x % 10 == r
  {
  }

  lemma DivMod100(x: int, q: int, r: int)
    requires x == 100 * q + r && 0 <= r < 100
    ensures x % 100 == r
  {
  }

  lemma DivMod256(x: int, q: int, r: int)
    requires x == 0x100 * q + r && 0 <= r < 0x100
    ensures x % 0x100 == r
  {
  }

  /** `Packed` and `Decimal` are inverse on the numbers below 100. */
  lemma {:induction false} PackedRoundTrip(n: int)
    requires 0 <= n < 100
    ensures IsBcd(Packed(n)) && Decimal(Packed(n)) == n
  {
    DivMod10(n, n / 10, n % 10);
    var p := 0x10 * (n / 10) + n % 10;
    Cpu.NibbleUnique(p, n / 10, n % 10);
    assert p / 0x10 == n / 10;
  }

  /** Only 0 packs to the zero byte. */
  lemma PackedZero(n: int)
    requires 0 <= n < 100
    ensures Packed(n) == 0 <==> n == 0
  {
    PackedRoundTrip(n);
  }

  /** After an addition, the high correction is due exactly when the decimal sum reaches 100. */
  lemma AddHighCorrection(t: int, l: int, a: int, c: bool)
    requires 0 <= t <= 18 && 0 <= l <= 18 && 0 <= a < 0x100
    requires 16 * t + l == a + (if c then 0x100 else 0)
    ensures (c || a > 0x99) <==> 10 * t + l >= 100
  {
  }

  /**
   * DAA after adding digit pairs (xh, xl) and (yh, yl): the correction
   * `DaaAdjust` computes yields the packed decimal sum modulo 100, and the
   * high correction is applied exactly when the sum reaches 100.
   */
  lemma DaaAddDigits(xh: int, xl: int, yh: int, yl: int, a: int, c: bool, h: bool)
    requires 0 <= xh <= 9 && 0 <= xl <= 9 && 0 <= yh <= 9 && 0 <= yl <= 9 && 0 <= a < 0x100
    requires 16 * (xh + yh) + xl + yl == a + (if c then 0x100 else 0)
    requires xl + yl == a % 0x10 + (if h then 0x10 else 0)
    ensures var high := c || a > 0x99;
            var adjust := (if high then 0x60 else 0) + (if h || a % 0x10 > 9 then 0x06 else 0);
            var s := 10 * (xh + yh) + xl + yl;
            && (high <==> s >= 100)
            && (a + adjust) % 0x100 == Packed(s % 100)
  {
    var t, l := xh + yh, xl + yl;
    var s := 10 * t + l;
    AddHighCorrection(t, l, a, c);
    var high := c || a > 0x99;
    var lo := h || a % 0x10 > 9;
    assert lo <==> l >= 10;
    var tens := if lo then t + 1 else t;
    var units := if lo then l - 10 else l;
    assert s == 10 * tens + units && 0 <= units <= 9;
    assert 16 * t + l + (if lo then 0x06 else 0) == 16 * tens + units;
    var adjust := (if high then 0x60 else 0) + (if lo then 0x06 else 0);
    if high {
      var d := tens - 10;
      assert 0 <= d <= 9;
      DivMod100(s, 1, 10 * d + units);
      DivMod10(10 * d + units, d, units);
      DivMod256(a + adjust, if c then 0 else 1, 16 * d + units);
    } else {
      DivMod100(s, 0, s);
      DivMod10(s, tens, units);
      DivMod256(a + adjust, 0, 16 * tens + units);
    }
  }

  /**
   * DAA after subtracting digit pairs (yh, yl) from (xh, xl): the
   * correction yields the packed decimal difference modulo 100, and the
   * borrow C is set exactly when the difference is negative.
   */
  lemma DaaSubDigits(xh: int, xl: int, yh: int, yl: int, a: int, c: bool, h: bool)
    requires 0 <= xh <= 9 && 0 <= xl <= 9 && 0 <= yh <= 9 && 0 <= yl <= 9 && 0 <= a < 0x100
    requires 16 * (xh - yh) + xl - yl == a - (if c then 0x100 else 0)
    requires xl - yl == a % 0x10 - (if h then 0x10 else 0)
    ensures var adjust := (if c then 0x60 else 0) + (if h then 0x06 else 0);
            var s := 10 * (xh - yh) + xl - yl;
            && (c <==> s < 0)
            && (a - adjust) % 0x100 == Packed(s % 100)
  {
    var t, l := xh - yh, xl - yl;
    var s := 10 * t + l;
    assert h <==> l < 0;
    var tens := if h then t - 1 else t;
    var units := if h then l + 10 else l;
    assert s == 10 * tens + units && 0 <= units <= 9;
    assert c <==> tens < 0;
    var adjust := (if c then 0x60 else 0) + (if h then 0x06 else 0);
    var d := if c then tens + 10 else tens;
    assert 0 <= d <= 9;
    DivMod100(s, if c then -1 else 0, 10 * d + units);
    DivMod10(10 * d + units, d, units);
    DivMod256(a - adjust, 0, 16 * d + units);
  }

  /** After an addition (N clear), DAA adds the correction and sets C exactly for the high one. */
  lemma DaaRegsAdd(r: Cpu.Registers, high: bool, adjust: int)
    requires !Cpu.FlagN(r.f) && high == (Cpu.FlagC(r.f) || r.a > 0x99)
    requires adjust == (if high then 0x60 else 0) + (if Cpu.FlagH(r.f) || r.a % 0x10 > 9 then 0x06 else 0)
    ensures DaaRegs(r).a == (r.a + adjust) % 0x100
    ensures Cpu.FlagC(DaaRegs(r).f) == high && !Cpu.FlagH(DaaRegs(r).f)
    ensures Cpu.FlagZ(DaaRegs(r).f) <==> DaaRegs(r).a == 0
  {
  }

  /** After a subtraction (N set), DAA subtracts the correction and keeps C. */
  lemma DaaRegsSub(r: Cpu.Registers, adjust: int)
    requires Cpu.FlagN(r.f)
    requires adjust == (if Cpu.FlagC(r.f) then 0x60 else 0) + (if Cpu.FlagH(r.f) then 0x06 else 0)
    ensures DaaRegs(r).a == (r.a - adjust) % 0x100
    ensures Cpu.FlagC(DaaRegs(r).f) == Cpu.FlagC(r.f) && !Cpu.FlagH(DaaRegs(r).f)
    ensures Cpu.FlagZ(DaaRegs(r).f) <==> DaaRegs(r).a == 0
  {
  }

  /**
   * The byte-level DAA law for an addition: from the sum `a` of two packed
   * BCD bytes, its carry `c` and half carry `h`, the correction yields the
   * packed decimal sum modulo 100, and the high correction is applied
   * exactly when the sum reaches 100.
   */
  lemma DaaAddBcd(x: u8, y: u8, a: u8, c: bool, h: bool)
    requires IsBcd(x) && IsBcd(y)
    requires x + y == a + (if c then 0x100 else 0) && x % 0x10 + y % 0x10 == a % 0x10 + (if h then 0x10 else 0)
    ensures var s := Decimal(x) + Decimal(y);
            var high := c || a > 0x99;
            var adjust := (if high then 0x60 else 0) + (if h || a % 0x10 > 9 then 0x06 else 0);
            && (high <==> s >= 100)
            && (a + adjust) % 0x100 == Packed(s % 100)
            && (Packed(s % 100) == 0 <==> s % 100 == 0)
  {
    DaaAddDigits(x / 0x10, x % 0x10, y / 0x10, y % 0x10, a, c, h);
    PackedZero((Decimal(x) + Decimal(y)) % 100);
  }

  /** The byte-level DAA law for a subtraction, with `c` the borrow and `h` the half borrow. */
  lemma DaaSubBcd(x: u8, y: u8, a: u8, c: bool, h: bool)
    requires IsBcd(x) && IsBcd(y)
    requires x - y == a - (if c then 0x100 else 0) && x % 0x10 - y % 0x10 == a % 0x10 - (if h then 0x10 else 0)
    ensures var s := Decimal(x) - Decimal(y);
            var adjust := (if c then 0x60 else 0) + (if h then 0x06 else 0);
            && (c <==> s < 0)
            && (a - adjust) % 0x100 == Packed(s % 100)
            && (Packed(s % 100) == 0 <==> s % 100 == 0)
  {
    DaaSubDigits(x / 0x10, x % 0x10, y / 0x10, y % 0x10, a, c, h);
    PackedZero((Decimal(x) - Decimal(y)) % 100);
  }

  /**
   * ADD A,y with A = x, both packed BCD, then DAA: A holds the packed
   * decimal sum modulo 100, C says whether the sum reached 100, Z whether A
   * is 0, and H is cleared.
   */
  lemma DaaAfterAdd(r: Cpu.Registers, x: u8, y: u8, f0: bv8)
    requires IsBcd(x) && IsBcd(y) && Cpu.Add8(x, f0, y, false) == Cpu.AluOut(r.a, r.f)
    ensures var s := Decimal(x) + Decimal(y);
            var d := DaaRegs(r);
            && d.a == Packed(s % 100)
            && (Cpu.FlagC(d.f) <==> s >= 100)
            && (Cpu.FlagZ(d.f) <==> s % 100 == 0)
            && !Cpu.FlagH(d.f)
  {
    var c, h := Cpu.FlagC(r.f), Cpu.FlagH(r.f);
    DaaAddBcd(x, y, r.a, c, h);
    var high := c || r.a > 0x99;
    DaaRegsAdd(r, high, (if high then 0x60 else 0) + (if h || r.a % 0x10 > 9 then 0x06 else 0));
  }

  /**
   * SUB y with A = x, both packed BCD, then DAA: A holds the packed decimal
   * difference modulo 100, C says whether it borrowed, Z whether A is 0,
   * and H is cleared.
   */
  lemma DaaAfterSub(r: Cpu.Registers, x: u8, y: u8, f0: bv8)
    requires IsBcd(x) && IsBcd(y) && Cpu.Sub8(x, f0, y, false) == Cpu.AluOut(r.a, r.f)
    ensures var s := Decimal(x) - Decimal(y);
            var d := DaaRegs(r);
            && d.a == Packed(s % 100)
            && (Cpu.FlagC(d.f) <==> s < 0)
            && (Cpu.FlagZ(d.f) <==> s % 100 == 0)
            && !Cpu.FlagH(d.f)
  {
    var c, h := Cpu.FlagC(r.f), Cpu.FlagH(r.f);
    DaaSubBcd(x, y, r.a, c, h);
    DaaRegsSub(r, (if c then 0x60 else 0) + (if h then 0x06 else 0));
  }
}
