// The timer: a 16-bit divider that advances on every tick, and an 8-bit
// counter (TIMA) that advances on each falling edge of the divider bit the
// control register (TAC) selects.  A counter overflow reloads the counter
// from the modulo register (TMA) and requests the Timer interrupt one tick
// late; writes to the registers during that reload tick have quirks.
module Timer {
  import opened Bits
  import Interrupts

  // ----- TimerControl -----------------------------------------------------

  /** `timer_enabled`: bit 2 of TAC. */
  predicate Enabled(control: bv8)
  {
    control & 0x04 != 0
  }

  /**
   * `freq_divider_bit`: the divider bit the two low bits of TAC select.
   * The counter therefore advances once every 2^(k+1) divider steps:
   * 1024, 16, 64 and 256 steps for the selections 0, 1, 2 and 3.
   */
  function FreqDividerBit(control: bv8): (k: nat)
    ensures k < 15 && k % 2 == 1
    ensures control & 0x03 == 0 ==> Pow2(k + 1) == 1024
    ensures control & 0x03 == 1 ==> Pow2(k + 1) == 16
    ensures control & 0x03 == 2 ==> Pow2(k + 1) == 64
    ensures control & 0x03 == 3 ==> Pow2(k + 1) == 256
  {
    var sel := control & 0x03;
    if sel == 0 then 9
    else if sel == 1 then 3
    else if sel == 2 then 5
    else 7
  }

  /** `from_bits_truncate` for TAC keeps the declared bits 0-2 and 5-7. */
  function TruncateControl(data: u8): (c: bv8)
    ensures c & 0x18 == 0
    ensures c & 0xE7 == ToBv(data) & 0xE7
  {
    ToBv(data) & 0xE7
  }

  /** `divider_bit`: `(divider >> bit) & 1 == 1` for the selected bit. */
  predicate SelectedBit(divider: u16, control: bv8)
  {
    BitSet(divider, FreqDividerBit(control))
  }

  /**
   * Stepping the divider makes the selected bit fall exactly when the new
   * divider value is a multiple of 2^(k+1).
   */
  lemma FallingEdge(d: u16, k: nat)
    requires k < 15
    ensures (BitSet(d, k) && !BitSet(Wrap16(d + 1), k)) <==> Wrap16(d + 1) % (2 * Pow2(k)) == 0
  {
    if d == 0xFFFF {
      assert Wrap16(d + 1) == 0;
      FallingEdgeAtWrap(k);
    } else {
      assert Wrap16(d + 1) == d + 1;
      if d % (2 * Pow2(k)) + 1 < 2 * Pow2(k) {
        FallingEdgeWithinPeriod(d, k);
      } else {
        FallingEdgeAtPeriodEnd(d, k);
      }
    }
  }

  /** From 0xFFFF the divider wraps to 0: every bit below 15 falls. */
  lemma FallingEdgeAtWrap(k: nat)
    requires k < 15
    ensures BitSet(0xFFFF, k) && !BitSet(0, k)
    ensures 0 % (2 * Pow2(k)) == 0
  {
    var p2 := 2 * Pow2(k);
    var q, r := 0xFFFF / p2, 0xFFFF % p2;
    BitByQuotient(0xFFFF, k, q, r);
    Pow2Divides(k);
    if r + 1 < p2 {
      DivModUnique(0x10000, p2, q, r + 1);
    }
    DivModUnique(0, Pow2(k), 0, 0);
    DivModUnique(0, p2, 0, 0);
  }

  /** Inside one period of 2^(k+1) steps bit `k` cannot fall. */
  lemma FallingEdgeWithinPeriod(d: u16, k: nat)
    requires k < 15 && d < 0xFFFF && d % (2 * Pow2(k)) + 1 < 2 * Pow2(k)
    ensures !(BitSet(d, k) && !BitSet(d + 1, k))
    ensures (d + 1) % (2 * Pow2(k)) != 0
  {
    var p2 := 2 * Pow2(k);
    var q, r := d / p2, d % p2;
    BitByQuotient(d, k, q, r);
    BitByQuotient(d + 1, k, q, r + 1);
    DivModUnique(d + 1, p2, q, r + 1);
  }

  /** At the end of a period bit `k` falls and the divider is a multiple of 2^(k+1). */
  lemma FallingEdgeAtPeriodEnd(d: u16, k: nat)
    requires k < 15 && d < 0xFFFF && d % (2 * Pow2(k)) + 1 >= 2 * Pow2(k)
    ensures BitSet(d, k) && !BitSet(d + 1, k)
    ensures (d + 1) % (2 * Pow2(k)) == 0
  {
    var p2 := 2 * Pow2(k);
    var q := d / p2;
    assert d % p2 == p2 - 1;
    assert d == q * p2 + (p2 - 1);
    BitByQuotient(d, k, q, p2 - 1);
    assert (q + 1) * p2 == q * p2 + p2;
    BitByQuotient(d + 1, k, q + 1, 0);
    DivModUnique(d + 1, p2, q + 1, 0);
  }

  /** Divider 0 has every bit clear, so writing DIV never leaves the selected bit set. */
  lemma ZeroDividerBitClear(control: bv8)
    ensures !SelectedBit(0, control)
  {
    DivModUnique(0, Pow2(FreqDividerBit(control)), 0, 0);
  }

  // ----- Timer state ------------------------------------------------------

  /** Every field of the timer as a value. */
  datatype TimerState = TimerState(divider: u16, counter: u8, modulo: u8, control: bv8,
                                   interruptNext: bool, duringInterrupt: bool)

  /** `Timer::default`: the divider value left by the boot ROM, everything else zero. */
  const Default := TimerState(0xABCC, 0, 0, 0, false, false)

  /** `timer_read(address)` for 0xFF04 (DIV), 0xFF05 (TIMA), 0xFF06 (TMA), 0xFF07 (TAC). */
  function Read(s: TimerState, address: u16): (v: u8)
    requires 0xFF04 <= address <= 0xFF07
  {
    if address == 0xFF04 then Hi(s.divider)
    else if address == 0xFF05 then s.counter
    else if address == 0xFF06 then s.modulo
    else FromBv(s.control)
  }

  /** `increment_timer`: TIMA wraps, and `interrupt_next` records whether it wrapped to 0. */
  function Increment(s: TimerState): (r: TimerState)
    ensures r.counter == Wrap8(s.counter + 1)
    ensures r.interruptNext <==> s.counter == 0xFF
    ensures r == s.(counter := r.counter, interruptNext := r.interruptNext)
  {
    var c := Wrap8(s.counter + 1);
    s.(counter := c, interruptNext := c == 0)
  }

  /** `write_div`: DIV is reset; a selected bit that was 1 falls and advances TIMA. */
  function AfterWriteDiv(s: TimerState): TimerState
  {
    var oldBit := SelectedBit(s.divider, s.control);
    var s1 := s.(divider := 0);
    var newBit := SelectedBit(s1.divider, s1.control);
    if oldBit && !newBit then Increment(s1) else s1
  }

  /** `write_counter(data)`: cancels a pending reload; during the reload tick TMA wins. */
  function AfterWriteCounter(s: TimerState, data: u8): TimerState
  {
    var s1 := s.(interruptNext := false);
    s1.(counter := if s1.duringInterrupt then s1.modulo else data)
  }

  /** `write_modulo(data)`: during the reload tick TIMA takes the new TMA too. */
  function AfterWriteModulo(s: TimerState, data: u8): TimerState
  {
    var s1 := s.(modulo := data);
    if s1.duringInterrupt then s1.(counter := s1.modulo) else s1
  }

  /**
   * `write_control(data)`: TIMA advances when the enabled-and-selected bit
   * goes from 1 to 0 because of the new control value.
   */
  function AfterWriteControl(s: TimerState, data: u8): TimerState
  {
    var oldBit := Enabled(s.control) && SelectedBit(s.divider, s.control);
    var s1 := s.(control := TruncateControl(data));
    var newBit := Enabled(s1.control) && SelectedBit(s1.divider, s1.control);
    if oldBit && !newBit then Increment(s1) else s1
  }

  /** The new state after one `ticks`, and whether it requested the Timer interrupt. */
  datatype TickOut = TickOut(next: TimerState, raised: bool)

  /**
   * The first half of `ticks`: clear the reload-tick flag, and if an
   * overflow is pending, reload TIMA from TMA, mark the reload tick and
   * raise the interrupt.
   */
  function Reload(s: TimerState): TickOut
  {
    var s1 := s.(duringInterrupt := false);
    if s1.interruptNext
    then TickOut(s1.(interruptNext := false, counter := s1.modulo, duringInterrupt := true), true)
    else TickOut(s1, false)
  }

  /** The second half of `ticks`: step DIV and advance TIMA on a falling edge. */
  function StepDivider(s: TimerState): TimerState
  {
    var oldBit := SelectedBit(s.divider, s.control);
    var s1 := s.(divider := Wrap16(s.divider + 1));
    var newBit := SelectedBit(s1.divider, s1.control);
    if Enabled(s1.control) && oldBit && !newBit then Increment(s1) else s1
  }

  /** `ticks`: finish a pending reload, then step the divider and detect the falling edge. */
  function Tick(s: TimerState): TickOut
  {
    var r := Reload(s);
    TickOut(StepDivider(r.next), r.raised)
  }

  // ----- Properties of the timer ------------------------------------------

  /** Reading DIV gives the high byte of the divider; after a DIV write it reads 0. */
  lemma WriteDivReadsZero(s: TimerState)
    ensures Read(AfterWriteDiv(s), 0xFF04) == 0
    ensures AfterWriteDiv(s).divider == 0
  {
  }

  /**
   * A DIV write advances TIMA exactly when the selected divider bit was 1,
   * whether or not the timer is enabled.
   */
  lemma WriteDivAdvancesOnSelectedBit(s: TimerState)
    ensures AfterWriteDiv(s).counter
            == if SelectedBit(s.divider, s.control) then Wrap8(s.counter + 1) else s.counter
    ensures AfterWriteDiv(s).modulo == s.modulo && AfterWriteDiv(s).control == s.control
  {
    ZeroDividerBitClear(s.control);
  }

  /** TIMA writes always cancel a pending reload, and lose to TMA during the reload tick. */
  lemma WriteCounterEffect(s: TimerState, data: u8)
    ensures !AfterWriteCounter(s, data).interruptNext
    ensures Read(AfterWriteCounter(s, data), 0xFF05) == if s.duringInterrupt then s.modulo else data
  {
  }

  /** TMA writes read back, and during the reload tick also land in TIMA. */
  lemma WriteModuloEffect(s: TimerState, data: u8)
    ensures Read(AfterWriteModulo(s, data), 0xFF06) == data
    ensures Read(AfterWriteModulo(s, data), 0xFF05) == if s.duringInterrupt then data else s.counter
  {
  }

  /** TAC reads back with bits 3 and 4 cleared, since only the declared bits survive. */
  lemma WriteControlReadsMasked(s: TimerState, data: u8)
    ensures Read(AfterWriteControl(s, data), 0xFF07) == And8(data, 0xE7)
  {
  }

  /**
   * One tick: DIV advances by one (wrapping), the reload flag of the previous
   * tick is cleared, and the interrupt is raised exactly when an overflow
   * was pending.
   */
  lemma TickBookkeeping(s: TimerState)
    ensures Tick(s).next.divider == Wrap16(s.divider + 1)
    ensures Tick(s).raised == s.interruptNext
    ensures Tick(s).next.duringInterrupt == s.interruptNext
    ensures Tick(s).next.modulo == s.modulo && Tick(s).next.control == s.control
  {
  }

  /**
   * Outside the reload tick, TIMA advances exactly when the timer is
   * enabled and the new divider value is a multiple of the selected period.
   */
  lemma {:induction false} TickAdvancesOnPeriod(s: TimerState)
    requires !s.interruptNext
    ensures var k := FreqDividerBit(s.control);
      Tick(s).next.counter
      == if Enabled(s.control) && Wrap16(s.divider + 1) % Pow2(k + 1) == 0
         then Wrap8(s.counter + 1) else s.counter
  {
    var k := FreqDividerBit(s.control);
    FallingEdge(s.divider, k);
  }

  /**
   * Overflow is signalled one tick late: the tick on which TIMA wraps to 0
   * requests nothing and leaves TIMA at 0; the following tick requests the
   * Timer interrupt, reloads TIMA from TMA and marks the reload tick.
   */
  lemma {:induction false} OverflowInterruptsOneTickLate(s: TimerState)
    requires !s.interruptNext && s.counter == 0xFF
    requires Enabled(s.control)
    requires Wrap16(s.divider + 1) % Pow2(FreqDividerBit(s.control) + 1) == 0
    ensures var t1 := Tick(s);
      && !t1.raised && t1.next.counter == 0 && t1.next.interruptNext
    ensures var t2 := Tick(Tick(s).next);
      && t2.raised && t2.next.counter == s.modulo && t2.next.duringInterrupt
      && !t2.next.interruptNext
  {
    var k := FreqDividerBit(s.control);
    TickAdvancesOnPeriod(s);
    var n1 := Tick(s).next;
    var d1 := n1.divider;
    assert d1 % Pow2(k + 1) == 0;
    // the next step cannot be another falling edge: the period is at least 16
    FallingEdge(d1, k);
    var m := d1 / Pow2(k + 1);
    assert d1 == m * Pow2(k + 1);
    if d1 + 1 < 0x10000 {
      DivModUnique(d1 + 1, Pow2(k + 1), m, 1);
    }
  }

  // ----- The timer object -------------------------------------------------

  class Timer {
    var divider: u16
    var counter: u8
    var modulo: u8
    var control: bv8
    var interruptNext: bool
    var duringInterrupt: bool

    /** Every field as a value. */
    function State(): TimerState
      reads this
    {
      TimerState(divider, counter, modulo, control, interruptNext, duringInterrupt)
    }

    /** `Timer::default`. */
    constructor ()
      ensures State() == Default
    {
      divider, counter, modulo, control := 0xABCC, 0, 0, 0;
      interruptNext, duringInterrupt := false, false;
    }

    /** `divider_bit`. */
    function DividerBit(): bool
      reads this
    {
      SelectedBit(divider, control)
    }

    /** `increment_timer`. */
    method IncrementTimer()
      modifies this`counter, this`interruptNext
      ensures State() == Increment(old(State()))
    {
      counter := Wrap8(counter + 1);
      interruptNext := counter == 0;
    }

    /** `write_div`. */
    method WriteDiv()
      modifies this
      ensures State() == AfterWriteDiv(old(State()))
    {
      var oldBit := DividerBit();
      divider := 0;
      var newBit := DividerBit();
      if oldBit && !newBit {
        IncrementTimer();
      }
    }

    /** `write_counter`. */
    method WriteCounter(data: u8)
      modifies this
      ensures State() == AfterWriteCounter(old(State()), data)
    {
      interruptNext := false;
      counter := if duringInterrupt then modulo else data;
    }

    /** `write_modulo`. */
    method WriteModulo(data: u8)
      modifies this
      ensures State() == AfterWriteModulo(old(State()), data)
    {
      modulo := data;
      if duringInterrupt {
        counter := modulo;
      }
    }

    /** `write_control`. */
    method WriteControl(data: u8)
      modifies this
      ensures State() == AfterWriteControl(old(State()), data)
    {
      var oldEnable := Enabled(control);
      var oldBit := oldEnable && DividerBit();
      control := TruncateControl(data);
      var newEnable := Enabled(control);
      var newBit := newEnable && DividerBit();
      if oldBit && !newBit {
        IncrementTimer();
      }
    }

    /** `ticks(interrupt)`: one step of the timer, requesting the Timer interrupt when due. */
    method Ticks(ints: Interrupts.Interrupts)
      modifies this, ints`requested
      ensures State() == Tick(old(State())).next
      ensures ints.requested
              == if old(interruptNext)
                 then Interrupts.WithRequest(old(ints.requested), Interrupts.InterruptType.Timer)
                 else old(ints.requested)
    {
      ghost var s0 := State();
      duringInterrupt := false;
      if interruptNext {
        ints.RequestInterrupt(Interrupts.InterruptType.Timer);
        interruptNext := false;
        counter := modulo;
        duringInterrupt := true;
      }
      assert State() == Reload(s0).next;
      StepDividerOnce();
    }

    /** The divider step at the end of `ticks`. */
    method StepDividerOnce()
      modifies this
      ensures State() == StepDivider(old(State()))
    {
      var oldBit := DividerBit();
      divider := Wrap16(divider + 1);
      var newBit := DividerBit();
      if Enabled(control) && oldBit && !newBit {
        IncrementTimer();
      }
    }
  }
}
