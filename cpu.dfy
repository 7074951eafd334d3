// The Sharp SM83 register file: eight 8-bit registers, the flag byte `f`,
// the stack pointer and program counter, and the halt / interrupt bits,
// together with the flag algebra and the shared ALU helpers `alu_add`,
// `alu_sub` and `swap`.
module Cpu {
  import opened Bits

  // ----- Flag bits of `f` -----------------------------------------------

  /** Z (zero) is bit 7 of `f`. */
  predicate FlagZ(f: bv8) { f & 0x80 != 0 }

  /** N (subtract) is bit 6 of `f`. */
  predicate FlagN(f: bv8) { f & 0x40 != 0 }

  /** H (half carry) is bit 5 of `f`. */
  predicate FlagH(f: bv8) { f & 0x20 != 0 }

  /** C (carry) is bit 4 of `f`. */
  predicate FlagC(f: bv8) { f & 0x10 != 0 }

  /** The four flag getters read exactly the high nibble of the flag byte. */
  lemma FlagPositions(f: bv8)
    ensures f & 0xF0 == (if FlagZ(f) then 0x80 else 0) | (if FlagN(f) then 0x40 else 0)
                        | (if FlagH(f) then 0x20 else 0) | (if FlagC(f) then 0x10 else 0)
  {
  }

  /** `set_flag_z(bit)`: Z becomes `bit`, every other bit of `f` is kept. */
  function WithZ(f: bv8, bit: bool): (r: bv8)
    ensures FlagZ(r) == bit && r & 0x7F == f & 0x7F
    ensures FlagN(r) == FlagN(f) && FlagH(r) == FlagH(f) && FlagC(r) == FlagC(f)
    ensures r & 0x0F == f & 0x0F
  {
    if bit then f | 0x80 else f & 0x7F
  }

  /** `set_flag_n(bit)`: N becomes `bit`, every other bit of `f` is kept. */
  function WithN(f: bv8, bit: bool): (r: bv8)
    ensures FlagN(r) == bit && r & 0xBF == f & 0xBF
    ensures FlagZ(r) == FlagZ(f) && FlagH(r) == FlagH(f) && FlagC(r) == FlagC(f)
    ensures r & 0x0F == f & 0x0F
  {
    if bit then f | 0x40 else f & 0xBF
  }

  /** `set_flag_h(bit)`: H becomes `bit`, every other bit of `f` is kept. */
  function WithH(f: bv8, bit: bool): (r: bv8)
    ensures FlagH(r) == bit && r & 0xDF == f & 0xDF
    ensures FlagZ(r) == FlagZ(f) && FlagN(r) == FlagN(f) && FlagC(r) == FlagC(f)
    ensures r & 0x0F == f & 0x0F
  {
    if bit then f | 0x20 else f & 0xDF
  }

  /** `set_flag_c(bit)`: C becomes `bit`, every other bit of `f` is kept. */
  function WithC(f: bv8, bit: bool): (r: bv8)
    ensures FlagC(r) == bit && r & 0xEF == f & 0xEF
    ensures FlagZ(r) == FlagZ(f) && FlagN(r) == FlagN(f) && FlagH(r) == FlagH(f)
    ensures r & 0x0F == f & 0x0F
  {
    if bit then f | 0x10 else f & 0xEF
  }

  /** Two flag bytes agreeing on Z, N, H, C and the unused low nibble are equal. */
  lemma FlagsDetermine(f: bv8, g: bv8)
    requires FlagZ(f) == FlagZ(g) && FlagN(f) == FlagN(g)
    requires FlagH(f) == FlagH(g) && FlagC(f) == FlagC(g)
    requires f & 0x0F == g & 0x0F
    ensures f == g
  {
  }

  // ----- Register file ----------------------------------------------------

  /** A snapshot of every field of the CPU. */
  datatype Registers = Registers(a: u8, b: u8, c: u8, d: u8, e: u8, f: bv8, h: u8, l: u8,
                                 sp: u16, pc: u16, halted: bool, ime: bool, ei: bool)
  {
    /** `get_af`: A is the high byte, F the low byte. */
    function AF(): (w: u16)
      ensures Hi(w) == a && Lo(w) == FromBv(f)
    {
      Word(a, FromBv(f))
    }

    /** `get_bc`: B is the high byte, C the low byte. */
    function BC(): (w: u16)
      ensures Hi(w) == b && Lo(w) == c
    {
      Word(b, c)
    }

    /** `get_de`: D is the high byte, E the low byte. */
    function DE(): (w: u16)
      ensures Hi(w) == d && Lo(w) == e
    {
      Word(d, e)
    }

    /** `get_hl`: H is the high byte, L the low byte. */
    function HL(): (w: u16)
      ensures Hi(w) == h && Lo(w) == l
    {
      Word(h, l)
    }

    /**
     * The 8-bit register with selector `sel` in the executor's numbering
     * (A = 0, B = 1, C = 2, D = 3, E = 4, H = 5, L = 6).
     */
    function R8(sel: u8): u8
      requires sel <= 6
    {
      match sel
      case 0 => a case 1 => b case 2 => c case 3 => d
      case 4 => e case 5 => h case _ => l
    }

    /** The register file with register `sel` replaced by `v`. */
    function SetR8(sel: u8, v: u8): (r: Registers)
      requires sel <= 6
      ensures r.R8(sel) == v
      ensures forall k: u8 :: k <= 6 && k != sel ==> r.R8(k) == R8(k)
      ensures r.f == f && r.sp == sp && r.pc == pc
      ensures r.halted == halted && r.ime == ime && r.ei == ei
    {
      match sel
      case 0 => this.(a := v) case 1 => this.(b := v) case 2 => this.(c := v)
      case 3 => this.(d := v) case 4 => this.(e := v) case 5 => this.(h := v)
      case _ => this.(l := v)
    }

    /** The register file with H and L loaded from `hl` (`set_hl`). */
    function SetHL(hl: u16): (r: Registers)
      ensures r.HL() == hl
      ensures r == this.(h := r.h, l := r.l)
    {
      WordSplits(hl);
      this.(h := Hi(hl), l := Lo(hl))
    }
  }

  /** The state `CPU::new` builds. */
  const PowerOn := Registers(0, 0, 0, 0, 0, 0, 0, 0, 0, 0, false, false, false)

  // ----- ALU helpers ------------------------------------------------------

  /** The value an ALU helper returns together with the flag byte it leaves. */
  datatype AluOut = AluOut(value: u8, flags: bv8)

  /** The carry-in of `alu_add`/`alu_sub`: 1 only if `carry` is asked for and C is set. */
  function CarryIn(f: bv8, carry: bool): (cin: nat)
    ensures cin <= 1 && (cin == 1 <==> carry && FlagC(f))
  {
    if carry && FlagC(f) then 1 else 0
  }

  /** Euclidean division by 0x10 has one quotient and remainder. */
  lemma NibbleUnique(x: int, q: int, r: int)
    requires x == 0x10 * q + r && 0 <= r < 0x10
    ensures x % 0x10 == r
  {
  }

  /** Reducing modulo 0x100 keeps the low nibble. */
  lemma LowNibbleOfWrap(s: int)
    ensures Wrap8(s) % 0x10 == s % 0x10
  {
    var w := s % 0x100;
    var q := s / 0x100;
    assert s == 0x100 * q + w;
    var wq := w / 0x10;
    var wr := w % 0x10;
    assert w == 0x10 * wq + wr;
    NibbleUnique(s, 0x10 * q + wq, wr);
  }

  /** The low nibble of a sum only depends on the low nibbles of its terms. */
  lemma LowNibbleOfSum(a: u8, n: u8, c: int)
    ensures (a + n + c) % 0x10 == (a % 0x10 + n % 0x10 + c) % 0x10
  {
    assert a + n + c == 0x10 * (a / 0x10 + n / 0x10) + (a % 0x10 + n % 0x10 + c);
  }

  /** A sum below 0x200 is its wrapped byte plus 0x100 exactly when it exceeds 0xFF. */
  lemma CarryOut(a: u8, n: u8, cin: nat)
    requires cin <= 1
    ensures a + n + cin == Wrap8(a + n + cin) + (if a + n + cin > 0xFF then 0x100 else 0)
    ensures a % 0x10 + n % 0x10 + cin
            == Wrap8(a + n + cin) % 0x10 + (if a % 0x10 + n % 0x10 + cin > 0xF then 0x10 else 0)
  {
    var s := a + n + cin;
    if s > 0xFF {
      assert Wrap8(s) == s - 0x100;
    }
    LowNibbleOfWrap(s);
    LowNibbleOfSum(a, n, cin);
    var t := a % 0x10 + n % 0x10 + cin;
    if t > 0xF {
      assert t % 0x10 == t - 0x10;
    }
  }

  /** A difference above -0x101 is its wrapped byte minus 0x100 exactly when it is negative. */
  lemma BorrowOut(a: u8, n: u8, cin: nat)
    requires cin <= 1
    ensures a - n - cin == Wrap8(a - n - cin) - (if a < n + cin then 0x100 else 0)
    ensures a % 0x10 - n % 0x10 - cin
            == Wrap8(a - n - cin) % 0x10 - (if a % 0x10 < n % 0x10 + cin then 0x10 else 0)
  {
    var s := a - n - cin;
    if s < 0 {
      assert Wrap8(s) == s + 0x100;
    }
    LowNibbleOfWrap(s);
    assert s == 0x10 * (a / 0x10 - n / 0x10) + (a % 0x10 - n % 0x10 - cin);
    var t := a % 0x10 - n % 0x10 - cin;
    if t < 0 {
      assert t % 0x10 == t + 0x10;
    }
  }

  /**
   * `alu_add(n, carry)` with A = `a` and flags `f`.  The 8-bit result and
   * the C flag together are the 9-bit sum, the low nibble of the result and
   * the H flag together are the 5-bit sum of the low nibbles.
   */
  function Add8(a: u8, f: bv8, n: u8, carry: bool): (r: AluOut)
    ensures var cin := CarryIn(f, carry);
      && a + n + cin == r.value + (if FlagC(r.flags) then 0x100 else 0)
      && a % 0x10 + n % 0x10 + cin == r.value % 0x10 + (if FlagH(r.flags) then 0x10 else 0)
    ensures FlagZ(r.flags) == (r.value == 0) && !FlagN(r.flags)
    ensures r.flags & 0x0F == f & 0x0F
  {
    var cin := CarryIn(f, carry);
    var result := Wrap8(a + n + cin);
    CarryOut(a, n, cin);
    // `x & 0x0F` on a byte is `x % 0x10`
    var f1 := WithZ(f, result == 0);
    var f2 := WithH(f1, a % 0x10 + n % 0x10 + cin > 0xF);
    var f3 := WithN(f2, false);
    var f4 := WithC(f3, a + n + cin > 0xFF);
    AluOut(result, f4)
  }

  /**
   * `alu_sub(n, carry)` with A = `a` and flags `f`: C is the borrow out of
   * the 8-bit difference and H the borrow out of the low nibble.
   */
  function Sub8(a: u8, f: bv8, n: u8, carry: bool): (r: AluOut)
    ensures var cin := CarryIn(f, carry);
      && a - n - cin == r.value - (if FlagC(r.flags) then 0x100 else 0)
      && a % 0x10 - n % 0x10 - cin == r.value % 0x10 - (if FlagH(r.flags) then 0x10 else 0)
    ensures FlagZ(r.flags) == (r.value == 0) && FlagN(r.flags)
    ensures r.flags & 0x0F == f & 0x0F
  {
    var cin := CarryIn(f, carry);
    var result := Wrap8(a - n - cin);
    BorrowOut(a, n, cin);
    var f1 := WithZ(f, result == 0);
    var f2 := WithH(f1, a % 0x10 < n % 0x10 + cin);
    var f3 := WithN(f2, true);
    var f4 := WithC(f3, a < n + cin);
    AluOut(result, f4)
  }

  /**
   * `(n << 4) | (n >> 4)` on a byte: the left shift drops the high nibble,
   * and the two shifted halves do not overlap, so the `|` is a sum.  The
   * two nibbles trade places.
   */
  function SwapNibbles(n: u8): (r: u8)
    ensures r % 0x10 == n / 0x10 && r / 0x10 == n % 0x10
  {
    var h, l := n / 0x10, n % 0x10;
    assert n * 0x10 == h * 0x100 + l * 0x10;
    DivModUnique(n * 0x10, 0x100, h, l * 0x10);
    DivModUnique(l * 0x10 + h, 0x10, l, h);
    (n * 0x10) % 0x100 + n / 0x10
  }

  /** Swapping nibbles twice gives the byte back. */
  lemma SwapInvolution(n: u8)
    ensures SwapNibbles(SwapNibbles(n)) == n
  {
  }

  /** `swap(n)`: Z iff `n` is 0, N, H and C cleared. */
  function Swap(f: bv8, n: u8): (r: AluOut)
    ensures r.value % 0x10 == n / 0x10 && r.value / 0x10 == n % 0x10
    ensures FlagZ(r.flags) == (n == 0) && FlagZ(r.flags) == (r.value == 0)
    ensures !FlagN(r.flags) && !FlagH(r.flags) && !FlagC(r.flags)
    ensures r.flags & 0x0F == f & 0x0F
  {
    var f1 := WithZ(f, n == 0);
    var f2 := WithH(f1, false);
    var f3 := WithN(f2, false);
    var f4 := WithC(f3, false);
    AluOut(SwapNibbles(n), f4)
  }

  // ----- The CPU object ---------------------------------------------------

  class CPU {
    var a: u8
    var b: u8
    var c: u8
    var d: u8
    var e: u8
    var f: bv8
    var h: u8
    var l: u8
    var sp: u16
    var pc: u16
    var halted: bool
    var ime: bool
    var ei: bool

    /** Every field as a value. */
    function State(): Registers
      reads this
    {
      Registers(a, b, c, d, e, f, h, l, sp, pc, halted, ime, ei)
    }

    /** `CPU::new`: all registers, `sp` and `pc` zero, all three bits false. */
    constructor ()
      ensures State() == PowerOn
    {
      a, b, c, d, e, f, h, l := 0, 0, 0, 0, 0, 0, 0, 0;
      sp, pc := 0, 0;
      halted, ime, ei := false, false, false;
    }

    method SetFlagZ(bit: bool)
      modifies this`f
      ensures f == WithZ(old(f), bit)
    {
      f := if bit then f | 0x80 else f & 0x7F;
    }

    method SetFlagN(bit: bool)
      modifies this`f
      ensures f == WithN(old(f), bit)
    {
      f := if bit then f | 0x40 else f & 0xBF;
    }

    method SetFlagH(bit: bool)
      modifies this`f
      ensures f == WithH(old(f), bit)
    {
      f := if bit then f | 0x20 else f & 0xDF;
    }

    method SetFlagC(bit: bool)
      modifies this`f
      ensures f == WithC(old(f), bit)
    {
      f := if bit then f | 0x10 else f & 0xEF;
    }

    /** `set_hl`: afterwards `get_hl()` is `hl`; only H and L change. */
    method SetHL(hl: u16)
      modifies this`h, this`l
      ensures State() == old(State()).SetHL(hl)
      ensures State().HL() == hl
    {
      h := hl / 0x100;
      l := hl % 0x100;
    }

    method SetHalted(bit: bool)
      modifies this`halted
      ensures halted == bit
    {
      halted := bit;
    }

    method SetIme(bit: bool)
      modifies this`ime
      ensures ime == bit
    {
      ime := bit;
    }

    /** Store `v` in the register the executor numbers `sel` (A = 0 ... L = 6). */
    method SetR8(sel: u8, v: u8)
      requires sel <= 6
      modifies this`a, this`b, this`c, this`d, this`e, this`h, this`l
      ensures State() == old(State()).SetR8(sel, v)
    {
      match sel
      case 0 => a := v;
      case 1 => b := v;
      case 2 => c := v;
      case 3 => d := v;
      case 4 => e := v;
      case 5 => h := v;
      case _ => l := v;
    }

    /** `alu_add`: returns the sum and updates the flags; A itself is not written. */
    method AluAdd(n: u8, carry: bool) returns (result: u8)
      modifies this`f
      ensures AluOut(result, f) == Add8(a, old(f), n, carry)
    {
      var cin := if carry && FlagC(f) then 1 else 0;
      result := Wrap8(a + n + cin);
      SetFlagZ(result == 0);
      SetFlagH(a % 0x10 + n % 0x10 + cin > 0xF);
      SetFlagN(false);
      SetFlagC(a + n + cin > 0xFF);
    }

    /** `alu_sub`: returns the difference and updates the flags; A is not written. */
    method AluSub(n: u8, carry: bool) returns (result: u8)
      modifies this`f
      ensures AluOut(result, f) == Sub8(a, old(f), n, carry)
    {
      var cin := if carry && FlagC(f) then 1 else 0;
      result := Wrap8(a - n - cin);
      SetFlagZ(result == 0);
      SetFlagH(a % 0x10 < n % 0x10 + cin);
      SetFlagN(true);
      SetFlagC(a < n + cin);
    }

    /** `swap`: returns `n` with its nibbles exchanged and updates the flags. */
    method SwapOp(n: u8) returns (result: u8)
      modifies this`f
      ensures AluOut(result, f) == Swap(old(f), n)
    {
      SetFlagZ(n == 0);
      SetFlagH(false);
      SetFlagN(false);
      SetFlagC(false);
      result := (n * 0x10) % 0x100 + n / 0x10;
    }
  }
}
