/** The C integer types and register idioms the two TM4C123 drivers rely on:
    fixed-width integer types, the read-modify-write updates `reg |= mask`
    and `reg &= ~mask` on a 32-bit memory-mapped register, and the
    conversions between an `int32_t` value and the bits of a 32-bit register. */
module Registers {

  /** C `uint8_t`. */
  newtype uint8 = x: int | 0 <= x < 0x100

  /** C `uint16_t`. */
  newtype uint16 = x: int | 0 <= x < 0x1_0000

  /** C `int32_t` (and the 32-bit `int` of the target compiler). */
  newtype int32 = x: int | -0x8000_0000 <= x < 0x8000_0000

  /** `reg |= mask`: every bit of `mask` ends up set, every other bit keeps its value. */
  function SetBits(reg: bv32, mask: bv32): (r: bv32)
    ensures r & mask == mask
    ensures r & !mask == reg & !mask
  {
    reg | mask
  }

  /** `reg &= ~mask`: every bit of `mask` ends up clear, every other bit keeps its value. */
  function ClearBits(reg: bv32, mask: bv32): (r: bv32)
    ensures r & mask == 0
    ensures r & !mask == reg & !mask
  {
    reg & !mask
  }

  /** True when every bit of `mask` is set in `reg`. */
  predicate HasBits(reg: bv32, mask: bv32)
  {
    reg & mask == mask
  }

  /** Disabling a field and enabling it again (`reg &= ~m; reg |= m`) has the
      same end result as enabling it alone. */
  lemma ClearThenSet(reg: bv32, mask: bv32)
    ensures SetBits(ClearBits(reg, mask), mask) == SetBits(reg, mask)
  {
    assert SetBits(ClearBits(reg, mask), mask) == (reg & !mask) | mask;
    OrAbsorbsClear(reg, mask);
  }

  /** Disabling a field, setting other bits and enabling the field again
      (`reg &= ~m; reg |= e; reg |= m`) ends as setting both at once. */
  lemma ClearThenSetWith(reg: bv32, mask: bv32, extra: bv32)
    ensures SetBits(SetBits(ClearBits(reg, mask), extra), mask) == SetBits(reg, extra | mask)
  {
    assert SetBits(SetBits(ClearBits(reg, mask), extra), mask) == ((reg & !mask) | extra) | mask;
    OrAbsorbsClearWith(reg, mask, extra);
  }

  /** Setting a field and clearing it again leaves the register as if it had
      only been cleared: the intermediate value leaves no trace. */
  lemma SetThenClear(reg: bv32, mask: bv32)
    ensures ClearBits(SetBits(reg, mask), mask) == ClearBits(reg, mask)
  {
    assert ClearBits(SetBits(reg, mask), mask) == (reg | mask) & !mask;
    AndUndoesOr(reg, mask);
  }

  /** Setting a field twice is setting it once. */
  lemma SetTwice(reg: bv32, mask: bv32)
    ensures SetBits(SetBits(reg, mask), mask) == SetBits(reg, mask)
  {
    assert SetBits(SetBits(reg, mask), mask) == (reg | mask) | mask;
    OrTwice(reg, mask);
  }

  // The bit identities behind the four lemmas above, stated on the raw
  // operators so that the solver meets them without the helper functions.

  lemma OrAbsorbsClear(reg: bv32, mask: bv32)
    ensures (reg & !mask) | mask == reg | mask
  {
  }

  lemma OrAbsorbsClearWith(reg: bv32, mask: bv32, extra: bv32)
    ensures ((reg & !mask) | extra) | mask == reg | (extra | mask)
  {
  }

  lemma AndUndoesOr(reg: bv32, mask: bv32)
    ensures (reg | mask) & !mask == reg & !mask
  {
  }

  lemma OrTwice(reg: bv32, mask: bv32)
    ensures (reg | mask) | mask == reg | mask
  {
  }

  /** Storing an `int32_t` into a 32-bit unsigned register: the value is taken
      modulo 2^32 (the C rule for conversion to an unsigned type). */
  function AsRegister(v: int32): (r: bv32)
    ensures r as int == v as int % 0x1_0000_0000
  {
    var u := Wrap(v as int);
    CastKeepsValue(u);
    u as bv32
  }

  /** The representative of `x` modulo 2^32 for a value in the `int32_t` range. */
  function Wrap(x: int): (u: int)
    requires -0x8000_0000 <= x < 0x8000_0000
    ensures 0 <= u < 0x1_0000_0000 && u == x % 0x1_0000_0000
  {
    if x >= 0 then x else x + 0x1_0000_0000
  }

  /** Reading a 32-bit register as an `int32_t`: two's complement, so the
      register's top bit is the sign. */
  function AsInt32(r: bv32): (v: int32)
    ensures v as int % 0x1_0000_0000 == r as int
    ensures v < 0 <==> r & 0x8000_0000 != 0
  {
    SignBit(r);
    Unwrap(r as int)
  }

  /** The value in the `int32_t` range that is congruent to `u` modulo 2^32. */
  function Unwrap(u: int): (v: int32)
    requires 0 <= u < 0x1_0000_0000
    ensures v as int % 0x1_0000_0000 == u
    ensures v < 0 <==> u >= 0x8000_0000
  {
    if u < 0x8000_0000 then u as int32 else (u - 0x1_0000_0000) as int32
  }

  /** Writing an `int32_t` to a register and reading it back as an `int32_t`
      gives the value written. */
  lemma {:induction false} SignedReadBack(v: int32)
    ensures AsInt32(AsRegister(v)) == v
  {
    var r := AsRegister(v);
    var u := Wrap(v as int);
    assert r as int == u;
    assert AsInt32(r) == Unwrap(u);
    UnwrapWrap(v as int);
  }

  lemma UnwrapWrap(x: int)
    requires -0x8000_0000 <= x < 0x8000_0000
    ensures Unwrap(Wrap(x)) as int == x
  {
  }

  /** Reading a register as an `int32_t` and writing that value back restores
      every bit of the register. */
  lemma {:induction false} RegisterReadBack(r: bv32)
    ensures AsRegister(AsInt32(r)) == r
  {
    var back := AsRegister(AsInt32(r));
    assert back as int == r as int;
    assert (back as int) as bv32 == back;
    assert (r as int) as bv32 == r;
  }

  /** `AsRegister` is one-to-one: a register value determines the `int32_t` stored. */
  lemma AsRegisterInjective(v: int32, w: int32)
    requires AsRegister(v) == AsRegister(w)
    ensures v == w
  {
    SignedReadBack(v);
    SignedReadBack(w);
  }

  /** The top bit of a register is clear exactly when its unsigned value is
      below 2^31, whether compared as bits or as a number. */
  lemma SignBit(r: bv32)
    ensures r as int < 0x1_0000_0000
    ensures (r < 0x8000_0000) == (r as int < 0x8000_0000)
    ensures (r < 0x8000_0000) == (r & 0x8000_0000 == 0)
  {
  }

  // ---------------------------------------------------------------------
  // Converting a non-negative number to 32 bits keeps its value. The
  // solver does not know this of `x as bv32` on its own; it does know the
  // opposite direction, `(r as int) as bv32 == r`, so the proof builds the
  // bits of `x` one at a time and reads the number back from them.
  // ---------------------------------------------------------------------

  /** 2 to the power `n`. */
  function Pow2(n: nat): (p: nat)
    ensures p >= 1
  {
    if n == 0 then 1 else 2 * Pow2(n - 1)
  }

  lemma {:induction false} Pow2Add(a: nat, b: nat)
    ensures Pow2(a + b) == Pow2(a) * Pow2(b)
    decreases a
  {
    if a > 0 {
      Pow2Add(a - 1, b);
    }
  }

  lemma {:induction false} Pow2Monotone(m: nat, k: nat)
    requires m <= k
    ensures Pow2(m) <= Pow2(k)
    decreases k
  {
    if m < k {
      Pow2Monotone(m, k - 1);
    }
  }

  lemma Pow2Word()
    ensures Pow2(31) == 0x8000_0000 && Pow2(32) == 0x1_0000_0000
  {
    assert Pow2(4) == 16;
    Pow2Add(4, 4);
    Pow2Add(8, 8);
    Pow2Add(16, 15);
    Pow2Add(16, 16);
  }

  /** The low `n` bits of `x`, most significant first, shifted in one by one. */
  function LowBits(x: nat, n: nat): (bits: bv32)
    requires n <= 32 && x < Pow2(n)
    decreases n
  {
    if n == 0 then 0 else ShiftIn(LowBits(x / 2, n - 1), x % 2 == 1)
  }

  /** Shifts `high` left by one and puts `bit` in the freed lowest position. */
  function ShiftIn(high: bv32, bit: bool): (shifted: bv32)
  {
    if bit then (high << 1) | 1 else high << 1
  }

  /** Shifting the lowest bit of `x` in below the bits of `x / 2` gives the bits of `x`. */
  lemma ShiftInValue(high: bv32, x: nat)
    requires high as int == x / 2 < 0x8000_0000
    ensures ShiftIn(high, x % 2 == 1) as int == x
  {
    SignBit(high);
    if x % 2 == 1 {
      assert ((high << 1) | 1) as int == 2 * (high as int) + 1;
    } else {
      assert (high << 1) as int == 2 * (high as int);
    }
  }

  lemma HalfBound(x: nat, n: nat)
    requires 0 < n <= 32 && x < Pow2(n)
    ensures x / 2 < Pow2(n - 1) && x / 2 < 0x8000_0000
  {
    Pow2Monotone(n - 1, 31);
    Pow2Word();
  }

  lemma {:induction false} LowBitsValue(x: nat, n: nat)
    requires n <= 32 && x < Pow2(n)
    ensures LowBits(x, n) as int == x
    decreases n
  {
    if n > 0 {
      HalfBound(x, n);
      LowBitsValue(x / 2, n - 1);
      ShiftInValue(LowBits(x / 2, n - 1), x);
    }
  }

  /** A number in [0, 2^32) stored in 32 bits reads back unchanged. */
  lemma {:induction false} CastKeepsValue(x: int)
    requires 0 <= x < 0x1_0000_0000
    ensures (x as bv32) as int == x
  {
    Pow2Word();
    LowBitsValue(x, 32);
    var r := LowBits(x, 32);
    assert (r as int) as bv32 == r;
  }
}
