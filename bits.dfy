// Fixed-width integer helpers shared by every part of the emulator model.
//
// Plain data bytes and words are unbounded integers restricted to their
// range; Rust's wrapping arithmetic, shifts and casts are written out as
// arithmetic on them.  Registers that the emulator declares with the
// `bitflags!` macro are kept as `bv8`, because their contracts are about
// individual bits.
module Bits {

  /** Rust `u8`. */
  type u8 = x: int | 0 <= x < 0x100

  /** Rust `u16`. */
  type u16 = x: int | 0 <= x < 0x10000

  /** Rust `i8`. */
  type i8 = x: int | -0x80 <= x < 0x80

  /** Rust `u32`, used for the RGB colour words of the LCD. */
  type u32 = x: int | 0 <= x < 0x1_0000_0000

  datatype Option<T> = None | Some(value: T)

  /** `x.wrapping_add(..)` / `x.wrapping_sub(..)` on `u8`: reduce modulo 2^8. */
  function Wrap8(x: int): (r: u8)
    ensures (r - x) % 0x100 == 0
  {
    x % 0x100
  }

  /** Wrapping arithmetic on `u16`: reduce modulo 2^16. */
  function Wrap16(x: int): (r: u16)
    ensures (r - x) % 0x10000 == 0
  {
    x % 0x10000
  }

  /** `((hi as u16) << 8) | lo as u16`: the little-endian pair of two bytes. */
  function Word(hi: u8, lo: u8): u16
  {
    hi * 0x100 + lo
  }

  /** `(w >> 8) as u8`. */
  function Hi(w: u16): u8
  {
    w / 0x100
  }

  /** `(w & 0x00FF) as u8`. */
  function Lo(w: u16): u8
  {
    w % 0x100
  }

  lemma WordSplits(w: u16)
    ensures Word(Hi(w), Lo(w)) == w
  {
  }

  lemma SplitWord(hi: u8, lo: u8)
    ensures Hi(Word(hi, lo)) == hi && Lo(Word(hi, lo)) == lo
  {
  }

  /** `b as i8`: the two's-complement reading of a byte. */
  function AsI8(b: u8): (s: i8)
    ensures Wrap8(s) == b
  {
    if b < 0x80 then b else b - 0x100
  }

  /** `s as u16` for an `i8`: sign extension to 16 bits. */
  function SignExtend(s: i8): (w: u16)
    ensures Wrap16(w - s) == 0
  {
    if s >= 0 then s else s + 0x10000
  }

  /** `b as bv8` for a data byte. */
  function ToBv(b: u8): bv8
  {
    b as bv8
  }

  /** `flags.bits()`: a bit-vector register read as a byte. */
  function FromBv(x: bv8): (b: u8)
    ensures b as bv8 == x
  {
    x as int
  }

  /** A bit-vector register read as a byte and converted back is unchanged. */
  lemma BvRoundTrip(x: bv8)
    ensures ToBv(FromBv(x)) == x
  {
  }

  /** The weight `w` when the bit `m` is set in `x`, else 0. */
  function BitValue(x: bv8, m: bv8, w: int): int
  {
    if x & m != 0 then w else 0
  }

  /** A bit-vector byte's value is the sum of the weights of its set bits. */
  lemma BvSum(x: bv8)
    ensures x as int == BitValue(x, 1, 1) + BitValue(x, 2, 2) + BitValue(x, 4, 4) + BitValue(x, 8, 8)
      + BitValue(x, 16, 16) + BitValue(x, 32, 32) + BitValue(x, 64, 64) + BitValue(x, 128, 128)
  {
  }

  /** Bit `k` of `v as bv8` is digit `k` of `v` in base 2. */
  lemma IntBits(v: u8)
    ensures BitValue(v as bv8, 1, 1) == v % 2
    ensures BitValue(v as bv8, 2, 2) == 2 * ((v / 2) % 2)
    ensures BitValue(v as bv8, 4, 4) == 4 * ((v / 4) % 2)
    ensures BitValue(v as bv8, 8, 8) == 8 * ((v / 8) % 2)
    ensures BitValue(v as bv8, 16, 16) == 16 * ((v / 16) % 2)
    ensures BitValue(v as bv8, 32, 32) == 32 * ((v / 32) % 2)
    ensures BitValue(v as bv8, 64, 64) == 64 * ((v / 64) % 2)
    ensures BitValue(v as bv8, 128, 128) == 128 * ((v / 128) % 2)
  {
  }

  /** Halving repeatedly is dividing by the power of two. */
  lemma Halvings(v: nat)
    ensures (v / 2) / 2 == v / 4 && (v / 4) / 2 == v / 8 && (v / 8) / 2 == v / 16
    ensures (v / 16) / 2 == v / 32 && (v / 32) / 2 == v / 64 && (v / 64) / 2 == v / 128
  {
  }

  /** A number is twice its half plus its parity. */
  lemma HalfStep(x: nat, h: nat, b: nat)
    requires h == x / 2 && b == x % 2
    ensures x == 2 * h + b
  {
  }

  /** Eight halving steps spell out a number's base-2 digits. */
  lemma Digits(v: int, a1: int, a2: int, a3: int, a4: int, a5: int, a6: int, a7: int,
               b0: int, b1: int, b2: int, b3: int, b4: int, b5: int, b6: int)
    requires v == 2 * a1 + b0 && a1 == 2 * a2 + b1 && a2 == 2 * a3 + b2 && a3 == 2 * a4 + b3
    requires a4 == 2 * a5 + b4 && a5 == 2 * a6 + b5 && a6 == 2 * a7 + b6
    ensures v == b0 + 2 * b1 + 4 * b2 + 8 * b3 + 16 * b4 + 32 * b5 + 64 * b6 + 128 * a7
  {
  }

  /** A byte is the sum of its base-2 digits. */
  lemma Binary(v: u8)
    ensures v == v % 2 + 2 * ((v / 2) % 2) + 4 * ((v / 4) % 2) + 8 * ((v / 8) % 2)
      + 16 * ((v / 16) % 2) + 32 * ((v / 32) % 2) + 64 * ((v / 64) % 2) + 128 * ((v / 128) % 2)
  {
    Halvings(v);
    HalfStep(v, v / 2, v % 2);
    HalfStep(v / 2, v / 4, (v / 2) % 2);
    HalfStep(v / 4, v / 8, (v / 4) % 2);
    HalfStep(v / 8, v / 16, (v / 8) % 2);
    HalfStep(v / 16, v / 32, (v / 16) % 2);
    HalfStep(v / 32, v / 64, (v / 32) % 2);
    HalfStep(v / 64, v / 128, (v / 64) % 2);
    Digits(v, v / 2, v / 4, v / 8, v / 16, v / 32, v / 64, v / 128,
      v % 2, (v / 2) % 2, (v / 4) % 2, (v / 8) % 2, (v / 16) % 2, (v / 32) % 2, (v / 64) % 2);
    assert v / 128 == (v / 128) % 2;
  }

  /** A data byte converted to a bit-vector and back is unchanged. */
  lemma IntRoundTrip(v: u8)
    ensures (v as bv8) as int == v
  {
    BvSum(v as bv8);
    IntBits(v);
    Binary(v);
  }

  /** A byte stored as a bit-vector register reads back unchanged. */
  lemma ByteRoundTrip(v: u8)
    ensures FromBv(ToBv(v)) == v
  {
    IntRoundTrip(v);
  }

  /** `x & y` on two data bytes. */
  function And8(x: u8, y: u8): u8
  {
    ((x as bv8) & (y as bv8)) as int
  }

  /** `x | y` on two data bytes. */
  function Or8(x: u8, y: u8): u8
  {
    ((x as bv8) | (y as bv8)) as int
  }

  /** `x ^ y` on two data bytes. */
  function Xor8(x: u8, y: u8): u8
  {
    ((x as bv8) ^ (y as bv8)) as int
  }

  /** `!x` on a data byte. */
  function Not8(x: u8): u8
  {
    (!(x as bv8)) as int
  }

  lemma AndZeroIffDisjoint(x: u8, y: u8)
    ensures (And8(x, y) == 0) == ((x as bv8) & (y as bv8) == 0)
  {
  }

  /** `1 << k` for a bit position of a byte. */
  function Pow2(k: nat): (p: nat)
    requires k < 16
    ensures p > 0
  {
    match k
    case 0 => 1 case 1 => 2 case 2 => 4 case 3 => 8
    case 4 => 0x10 case 5 => 0x20 case 6 => 0x40 case 7 => 0x80
    case 8 => 0x100 case 9 => 0x200 case 10 => 0x400 case 11 => 0x800
    case 12 => 0x1000 case 13 => 0x2000 case 14 => 0x4000 case _ => 0x8000
  }

  /** The table is 2^k: 1 at position 0, doubling at each further position. */
  lemma Pow2Doubles(k: nat)
    requires k < 16
    ensures Pow2(k) == if k == 0 then 1 else 2 * Pow2(k - 1)
  {
  }

  /** `(x >> k) & 1 == 1`: bit `k` of `x`. */
  predicate BitSet(x: nat, k: nat)
    requires k < 16
  {
    (x / Pow2(k)) % 2 == 1
  }

  /** A positive multiple of `p` is at least `p`. */
  lemma {:induction false} MulMono(t: int, p: int)
    requires t >= 1 && p > 0
    ensures t * p >= p
  {
    if t > 1 { MulMono(t - 1, p); assert t * p == (t - 1) * p + p; }
  }

  /** Euclidean division has exactly one quotient and remainder. */
  lemma DivModUnique(x: int, p: int, q: int, r: int)
    requires p > 0 && x == q * p + r && 0 <= r < p
    ensures x / p == q && x % p == r
  {
    var t := q - x / p;
    assert x == (x / p) * p + x % p;
    assert t * p == x % p - r by {
      assert t * p == q * p - (x / p) * p;
    }
    if t >= 1 { MulMono(t, p); }
    if t <= -1 { assert (-t) * p == -(t * p); MulMono(-t, p); }
  }

  /** Bit `k` of `x` is set iff `x`'s remainder modulo 2^(k+1) is at least 2^k. */
  lemma BitByQuotient(x: nat, k: nat, q: nat, r: nat)
    requires k < 15 && x == q * (2 * Pow2(k)) + r && r < 2 * Pow2(k)
    ensures BitSet(x, k) <==> r >= Pow2(k)
  {
    var p := Pow2(k);
    assert q * (2 * p) == (2 * q) * p;
    if r >= p {
      assert x == (2 * q + 1) * p + (r - p);
      DivModUnique(x, p, 2 * q + 1, r - p);
    } else {
      DivModUnique(x, p, 2 * q, r);
    }
  }

  /** Every 2^(k+1) with k < 15 divides 2^16. */
  lemma Pow2Divides(k: nat)
    requires k < 15
    ensures 0x10000 % (2 * Pow2(k)) == 0
  {
  }
}
