// A whole program run through `run_instruction`: the four bytes 3E 05 3C 76
// (LD A,5; INC A; HALT) at address 0; and a step on a byte the decoder
// knows but the executor has no arm for.
module Scenario {
  import opened Bits
  import opened Instructions
  import Cpu
  import Mmu
  import Opcodes
  import opened Execute
  import ExecuteLaws

  /** The program's bytes at addresses 0 to 3. */
  predicate Loaded(mem: Mmu.Bus)
  {
    Mmu.WellFormed(mem)
    && mem.ram[0] == 0x3E && mem.ram[1] == 0x05 && mem.ram[2] == 0x3C && mem.ram[3] == 0x76
  }

  /** A step runs whatever the byte at `pc` decodes to. */
  lemma StepDecoded(r: Cpu.Registers, mem: Mmu.Bus, ins: Instruction)
    requires Mmu.WellFormed(mem)
    requires Opcodes.Decode(r, mem, Mmu.Load(mem, r.pc)) == Opcodes.Ok(ins)
    ensures Step(r, mem) == Exec(r, mem, ins)
  {
  }

  /**
   * JR NZ (byte 0x20) decodes to `Jrcc`, which has no `executer` arm, so a
   * step on it reaches the fallback panic; the decoder builds `Jrcc` for
   * every conditional JR, so the `JrZ`/`JrC` arms are never reached from it.
   */
  lemma JrNzPanics(r: Cpu.Registers, mem: Mmu.Bus)
    requires Mmu.WellFormed(mem) && r.pc + 2 <= 0xFFFF && Mmu.Load(mem, r.pc) == 0x20
    ensures Step(r, mem) == Panicked(NoArm)
  {
    var n1 := Mmu.Load(mem, r.pc + 1);
    var ins := Jrcc(AsI8(n1), 0);
    assert Opcodes.Decode(r, mem, 0x20) == Opcodes.Ok(ins) by {
      Opcodes.JrConditions(r, mem, 0x20, n1, Word(Mmu.Load(mem, r.pc + 2), n1));
    }
    StepDecoded(r, mem, ins);
    ExecuteLaws.UnhandledPanics(r, mem, ins);
  }

  /** LD A,5 at address 0: A receives 5 and `pc` moves to the INC; 2 cycles. */
  lemma FirstStep(r: Cpu.Registers, mem: Mmu.Bus)
    requires Loaded(mem) && r.pc == 0
    ensures Step(r, mem) == Done(r.(a := 5, pc := 2), mem, 2)
  {
    assert Mmu.Load(mem, 0) == 0x3E && Mmu.Load(mem, 1) == 5;
    assert Opcodes.Decode(r, mem, 0x3E) == Opcodes.Ok(LdAd8(5));
    StepDecoded(r, mem, LdAd8(5));
    assert Exec(r, mem, LdAd8(5)) == Done(r.(a := 5, pc := 2), mem, 2) by {
      assert ExecLoadImmediate(r, mem, LdAd8(5)) == Done(r.(a := 5, pc := 2), mem, 2);
    }
  }

  /** INC A at `pc` with A = 5: A becomes 6, Z, N and H clear, C kept, `pc` one on; 1 cycle. */
  lemma IncrementFive(r: Cpu.Registers, mem: Mmu.Bus)
    requires Mmu.WellFormed(mem) && r.a == 5 && r.pc < 0xFFFF
    ensures Exec(r, mem, IncN(0, 5))
      == Done(r.(a := 6, f := IncDecFlags(r.f, 6, false, false), pc := r.pc + 1), mem, 1)
  {
    var ins := IncN(0, 5);
    assert !IsLoad(ins) && !IsLoadPair(ins) && !IsStack(ins) && IsAlu(ins);
    assert !IsArith(ins) && !IsLogic(ins) && IsIncDec(ins);
    assert ExecIncDec(r, mem, IncN(0, 5))
      == Done(r.(a := 6, f := IncDecFlags(r.f, 6, false, false), pc := r.pc + 1), mem, 1);
  }

  /** INC A at address 2: A becomes 6, Z, N and H clear, C kept; 1 cycle. */
  lemma SecondStep(r: Cpu.Registers, mem: Mmu.Bus)
    requires Loaded(mem) && r.pc == 2 && r.a == 5
    ensures var o := Step(r, mem);
      && o.Done? && o.bus == mem && o.cycles == 1
      && o.regs == r.(a := 6, f := o.regs.f, pc := 3)
      && !Cpu.FlagZ(o.regs.f) && !Cpu.FlagN(o.regs.f) && !Cpu.FlagH(o.regs.f)
      && Cpu.FlagC(o.regs.f) == Cpu.FlagC(r.f)
  {
    assert Mmu.Load(mem, 2) == 0x3C;
    assert Opcodes.Decode(r, mem, 0x3C) == Opcodes.Ok(IncN(0, 5));
    StepDecoded(r, mem, IncN(0, 5));
    IncrementFive(r, mem);
  }

  /** HALT anywhere: one cycle, and neither the registers (`pc` included) nor memory change. */
  lemma HaltWaits(r: Cpu.Registers, mem: Mmu.Bus)
    requires Mmu.WellFormed(mem)
    ensures Exec(r, mem, Halt) == Done(r, mem, 1)
  {
    assert !IsLoad(Halt) && !IsLoadPair(Halt) && !IsStack(Halt) && !IsAlu(Halt) && IsOther(Halt);
    assert !IsMisc(Halt) && IsControl(Halt);
    assert ExecControl(r, mem, Halt) == Done(r, mem, 1);
  }

  /** HALT at address 3: one cycle and nothing changes; `pc` stays on the HALT. */
  lemma ThirdStep(r: Cpu.Registers, mem: Mmu.Bus)
    requires Loaded(mem) && r.pc == 3
    ensures Step(r, mem) == Done(r, mem, 1)
  {
    assert Mmu.Load(mem, 3) == 0x76;
    assert Opcodes.Decode(r, mem, 0x76) == Opcodes.Ok(Halt);
    StepDecoded(r, mem, Halt);
    HaltWaits(r, mem);
  }

  /**
   * The whole run from `pc = 0`: after three steps A is 6 and Z is clear,
   * memory is unchanged and 4 cycles have passed.  HALT sets nothing, so
   * `halted` keeps its value and every further step stays on the HALT.
   */
  lemma ProgramRuns(r: Cpu.Registers, mem: Mmu.Bus)
    requires Loaded(mem) && r.pc == 0
    ensures var r1 := r.(a := 5, pc := 2);
      && Step(r, mem) == Done(r1, mem, 2)
      && var o2 := Step(r1, mem);
      && o2.Done? && o2.bus == mem && o2.cycles == 1
      && o2.regs.a == 6 && !Cpu.FlagZ(o2.regs.f) && o2.regs.pc == 3 && o2.regs.halted == r.halted
      && Step(o2.regs, mem) == Done(o2.regs, mem, 1)
  {
    FirstStep(r, mem);
    var r1 := r.(a := 5, pc := 2);
    SecondStep(r1, mem);
    ThirdStep(Step(r1, mem).regs, mem);
  }
}
