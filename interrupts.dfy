// The interrupt controller: the enable (IE, 0xFFFF) and request (IF, 0xFF0F)
// bit sets, fixed-priority selection of the pending source and the
// interrupt vector addresses.
module Interrupts {
  import opened Bits
  import Cpu

  /** The five interrupt sources, in priority order. */
  datatype InterruptType = Vblank | LcdStat | Timer | Serial | Joypad

  /** The position of a source in the priority order, which is also its bit. */
  function Index(t: InterruptType): (k: nat)
    ensures k < 5
  {
    match t
    case Vblank => 0
    case LcdStat => 1
    case Timer => 2
    case Serial => 3
    case Joypad => 4
  }

  /** `InterruptType::try_from(k).unwrap()` for an index known to be valid. */
  function Of(k: nat): (t: InterruptType)
    requires k < 5
    ensures Index(t) == k
  {
    match k
    case 0 => Vblank
    case 1 => LcdStat
    case 2 => Timer
    case 3 => Serial
    case _ => Joypad
  }

  /** `InterruptType::try_from(v)`: indices 0 to 4 name a source, anything else is `Err`. */
  function TryFrom(v: u8): (r: Option<InterruptType>)
    ensures r.Some? <==> v < 5
    ensures r.Some? ==> Index(r.value) == v
  {
    if v < 5 then Some(Of(v)) else None
  }

  lemma IndexOfInjective(t: InterruptType)
    ensures Of(Index(t)) == t
  {
  }

  /** `InterruptFlags::from(t)`: the single bit of the source, `1 << index`. */
  function Mask(t: InterruptType): (m: bv8)
    ensures FromBv(m) == Pow2(Index(t))
  {
    match t
    case Vblank => 0x01
    case LcdStat => 0x02
    case Timer => 0x04
    case Serial => 0x08
    case Joypad => 0x10
  }

  /**
   * `int_check(t)`: the source's bit is set both in the requested and in
   * the enabled set.
   */
  predicate Pending(enabled: u8, requested: u8, t: InterruptType)
  {
    ToBv(requested) & Mask(t) != 0 && ToBv(enabled) & Mask(t) != 0
  }

  /** The request set with `t`'s bit set (`requested.insert(t)`). */
  function WithRequest(requested: u8, t: InterruptType): (r: u8)
    ensures ToBv(r) == ToBv(requested) | Mask(t)
  {
    FromBv(ToBv(requested) | Mask(t))
  }

  /** The request set with `t`'s bit cleared (`requested.remove(t)`). */
  function WithoutRequest(requested: u8, t: InterruptType): (r: u8)
    ensures ToBv(r) == ToBv(requested) & !Mask(t)
  {
    FromBv(ToBv(requested) & !Mask(t))
  }

  /**
   * The first pending source at index `k` or later, scanning upwards as the
   * `while count < 5` loops do.
   */
  function HighestFrom(enabled: u8, requested: u8, k: nat): (r: Option<InterruptType>)
    requires k <= 5
    ensures r.Some? ==> k <= Index(r.value) && Pending(enabled, requested, r.value)
    ensures r.Some? ==> forall j :: k <= j < Index(r.value) ==> !Pending(enabled, requested, Of(j))
    ensures r.None? ==> forall j :: k <= j < 5 ==> !Pending(enabled, requested, Of(j))
    decreases 5 - k
  {
    if k == 5 then None
    else if Pending(enabled, requested, Of(k)) then Some(Of(k))
    else HighestFrom(enabled, requested, k + 1)
  }

  /**
   * The source `peek_highest_interrupt` and `get_highest_interrupt` pick:
   * the pending source of smallest index, if any.
   */
  function Highest(enabled: u8, requested: u8): Option<InterruptType>
  {
    HighestFrom(enabled, requested, 0)
  }

  /** `Highest` is the pending source that no pending source outranks. */
  lemma HighestIsFirstPending(enabled: u8, requested: u8)
    ensures var r := Highest(enabled, requested);
      && (r.Some? ==> Pending(enabled, requested, r.value))
      && (r.Some? ==> forall u :: Index(u) < Index(r.value) ==> !Pending(enabled, requested, u))
      && (r.None? <==> forall u :: !Pending(enabled, requested, u))
  {
    var r := Highest(enabled, requested);
    forall u
      ensures r.Some? && Index(u) < Index(r.value) ==> !Pending(enabled, requested, u)
      ensures r.None? ==> !Pending(enabled, requested, u)
    {
      IndexOfInjective(u);
    }
  }

  /** `interrupt_addresses(t)`: the vector of source `t`. */
  function Address(t: InterruptType): (a: u16)
    ensures a == 0x40 + 8 * Index(t)
  {
    match t
    case Vblank => 0x40
    case LcdStat => 0x48
    case Timer => 0x50
    case Serial => 0x58
    case Joypad => 0x60
  }

  /**
   * The register object.  All eight bits of both flag sets are declared, so
   * `from_bits_truncate` keeps every bit and each set is held as its byte.
   */
  class Interrupts {
    /** IE. */
    var enabled: u8
    /** IF. */
    var requested: u8

    /** `Interrupts::default`: nothing enabled, nothing requested. */
    constructor ()
      ensures enabled == 0 && requested == 0
    {
      enabled, requested := 0, 0;
    }

    /** `read_enable`. */
    function ReadEnable(): (v: u8)
      reads this
    {
      enabled
    }

    /** `read_requested`. */
    function ReadRequested(): (v: u8)
      reads this
    {
      requested
    }

    /** `write_enabled(v)`: the whole byte is stored and read back. */
    method WriteEnabled(v: u8)
      modifies this`enabled
      ensures ReadEnable() == v
    {
      enabled := v;
    }

    /** `write_requested(v)`: the whole byte is stored and read back. */
    method WriteRequested(v: u8)
      modifies this`requested
      ensures ReadRequested() == v
    {
      requested := v;
    }

    /** `int_check(t)`: reads both sets and changes nothing. */
    method IntCheck(t: InterruptType) returns (b: bool)
      ensures b == Pending(enabled, requested, t)
    {
      var it := Mask(t);
      b := ToBv(requested) & it != 0 && ToBv(enabled) & it != 0;
    }

    /**
     * `int_check_remove(t, cpu)`: when `t` is pending, acknowledge it by
     * clearing its request bit and wake the CPU with interrupts disabled;
     * otherwise change nothing.
     */
    method IntCheckRemove(t: InterruptType, cpu: Cpu.CPU) returns (b: bool)
      modifies this`requested, cpu`halted, cpu`ime
      ensures b == Pending(enabled, old(requested), t)
      ensures b ==> requested == WithoutRequest(old(requested), t) && !cpu.halted && !cpu.ime
      ensures !b ==> requested == old(requested) && cpu.halted == old(cpu.halted)
                     && cpu.ime == old(cpu.ime)
    {
      var it := Mask(t);
      if ToBv(requested) & it != 0 && ToBv(enabled) & it != 0 {
        requested := WithoutRequest(requested, t);
        cpu.SetHalted(false);
        cpu.SetIme(false);
        return true;
      }
      return false;
    }

    /** `peek_highest_interrupt`: the highest-priority pending source; nothing changes. */
    method PeekHighestInterrupt() returns (r: Option<InterruptType>)
      ensures r == Highest(enabled, requested)
    {
      var count := 0;
      while count < 5
        invariant 0 <= count <= 5
        invariant HighestFrom(enabled, requested, count) == Highest(enabled, requested)
      {
        var hit := IntCheck(Of(count));
        if hit {
          return Some(Of(count));
        }
        count := count + 1;
      }
      return None;
    }

    /**
     * `get_highest_interrupt(cpu)`: the source `peek_highest_interrupt`
     * would return, acknowledged as `int_check_remove` does; when no source
     * is pending nothing changes.
     */
    method GetHighestInterrupt(cpu: Cpu.CPU) returns (r: Option<InterruptType>)
      modifies this`requested, cpu`halted, cpu`ime
      ensures r == Highest(enabled, old(requested))
      ensures r.Some? ==> requested == WithoutRequest(old(requested), r.value) && !cpu.halted && !cpu.ime
      ensures r.None? ==> requested == old(requested) && cpu.halted == old(cpu.halted)
                          && cpu.ime == old(cpu.ime)
    {
      var count := 0;
      while count < 5
        invariant 0 <= count <= 5
        invariant requested == old(requested)
        invariant cpu.halted == old(cpu.halted) && cpu.ime == old(cpu.ime)
        invariant HighestFrom(enabled, requested, count) == Highest(enabled, requested)
      {
        var hit := IntCheckRemove(Of(count), cpu);
        if hit {
          return Some(Of(count));
        }
        count := count + 1;
      }
      return None;
    }

    /** `interrupt_addresses(t)`: the vector jumped to for `t`. */
    function InterruptAddresses(t: InterruptType): (a: u16)
      ensures a == 0x40 + 8 * Index(t)
    {
      Address(t)
    }

    /** `request_interrupt(t)`: set `t`'s request bit, keep every other bit. */
    method RequestInterrupt(t: InterruptType)
      modifies this`requested
      ensures requested == WithRequest(old(requested), t)
    {
      requested := WithRequest(requested, t);
    }
  }

  /**
   * `request_interrupt(t)` sets `t`'s bit and leaves the bits of the other
   * sources and the three unused bits as they were.
   */
  lemma RequestSetsOnlyItsBit(requested: u8, t: InterruptType)
    ensures ToBv(WithRequest(requested, t)) & Mask(t) != 0
    ensures forall u :: u != t ==> (ToBv(WithRequest(requested, t)) & Mask(u) != 0) == (ToBv(requested) & Mask(u) != 0)
    ensures ToBv(WithRequest(requested, t)) & 0xE0 == ToBv(requested) & 0xE0
  {
  }

  /** Requesting a source that is enabled makes it pending. */
  lemma RequestMakesPending(enabled: u8, requested: u8, t: InterruptType)
    requires ToBv(enabled) & Mask(t) != 0
    ensures Pending(enabled, WithRequest(requested, t), t)
  {
  }

  /**
   * Acknowledging the highest pending source leaves every other source's
   * pending status as it was.
   */
  lemma AcknowledgeKeepsOthers(enabled: u8, requested: u8, t: InterruptType, u: InterruptType)
    requires u != t
    ensures Pending(enabled, WithoutRequest(requested, t), u) == Pending(enabled, requested, u)
    ensures !Pending(enabled, WithoutRequest(requested, t), t)
  {
  }
}
