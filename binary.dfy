/**
 * Machine integers of the 8080 datapath.
 *
 * Rust's `u8` and `u16` are fixed-width unsigned integers with wrapping
 * arithmetic available and the bitwise operators `&`, `|`, `^`, `!`, `<<`,
 * `>>`; Dafny's bit-vector types give exactly these operations.  Arithmetic
 * meaning is stated with the conversion `as int`.
 */
module Binary {
  import opened Results

  type u8 = bv8
  type u16 = bv16

  function Pow2(n: nat): (p: nat)
    ensures p >= 1
  {
    if n == 0 then 1 else 2 * Pow2(n - 1)
  }

  /** Bit i of x (0 is the least significant), written as the source writes it. */
  function BitOf(x: u8, i: nat): u8
    requires i < 8
  {
    (x >> i) & 1
  }

  /** Rust's `count_ones` on a byte: the sum of its eight bits, which fits in a byte. */
  function CountOnes(x: u8): u8 {
    BitOf(x, 0) + BitOf(x, 1) + BitOf(x, 2) + BitOf(x, 3) + BitOf(x, 4) + BitOf(x, 5) + BitOf(x, 6) + BitOf(x, 7)
  }

  /** The parity flag's meaning: an even number of one bits. */
  predicate EvenParity(x: u8) {
    CountOnes(x) % 2 == 0
  }

  lemma PowersOfTwo()
    ensures Pow2(0) == 1 && Pow2(1) == 2 && Pow2(2) == 4 && Pow2(3) == 8
    ensures Pow2(4) == 16 && Pow2(5) == 32 && Pow2(6) == 64 && Pow2(7) == 128
  {
  }

  /** Bit i of x is the i-th binary digit of the number x. */
  lemma BitIsDigit(x: u8, i: nat)
    requires i < 8
    ensures BitOf(x, i) as int == (x as int / Pow2(i)) % 2
  {
    PowersOfTwo();
    if i == 0 { Digit0(x); }
    else if i == 1 { Digit1(x); }
    else if i == 2 { Digit2(x); }
    else if i == 3 { Digit3(x); }
    else if i == 4 { Digit4(x); }
    else if i == 5 { Digit5(x); }
    else if i == 6 { Digit6(x); }
    else { Digit7(x); }
  }

  lemma Digit0(x: u8)
    ensures (x & 1) as int == x as int % 2
  {
    HalfSplit(x);
    LowBit(x);
  }

  lemma Digit1(x: u8)
    ensures ((x >> 1) & 1) as int == (x as int / 2) % 2
  {
    Digit0(x >> 1);
    Halving(x);
  }

  lemma Digit2(x: u8)
    ensures ((x >> 2) & 1) as int == (x as int / 4) % 2
  {
    Digit0(x >> 2);
    Shift2(x);
  }

  lemma Digit3(x: u8)
    ensures ((x >> 3) & 1) as int == (x as int / 8) % 2
  {
    Digit0(x >> 3);
    Shift3(x);
  }

  lemma Digit4(x: u8)
    ensures ((x >> 4) & 1) as int == (x as int / 16) % 2
  {
    Digit0(x >> 4);
    Shift4(x);
  }

  lemma Digit5(x: u8)
    ensures ((x >> 5) & 1) as int == (x as int / 32) % 2
  {
    Digit0(x >> 5);
    Shift5(x);
  }

  lemma Digit6(x: u8)
    ensures ((x >> 6) & 1) as int == (x as int / 64) % 2
  {
    Digit0(x >> 6);
    Shift6(x);
  }

  lemma Digit7(x: u8)
    ensures ((x >> 7) & 1) as int == (x as int / 128) % 2
  {
    Digit0(x >> 7);
    Shift7(x);
  }

  lemma LowBit(v: u8)
    ensures (v & 1) as int <= 1
  {
    assert v & 1 <= 1;
    OrderOfBytes(v & 1, 1);
  }

  /** Shifting right by one halves the number. */
  lemma Halving(v: u8)
    ensures (v >> 1) as int == v as int / 2
  {
    HalfSplit(v);
    LowBit(v);
  }

  /** Shifting right by k divides the number by 2^k, one halving at a time. */
  lemma Shift2(x: u8)
    ensures (x >> 2) as int == x as int / 4
  {
    Halving(x);
    Halving(x >> 1);
    assert x >> 2 == (x >> 1) >> 1;
  }

  lemma Shift3(x: u8)
    ensures (x >> 3) as int == x as int / 8
  {
    Shift2(x);
    Halving(x >> 2);
    assert x >> 3 == (x >> 2) >> 1;
  }

  lemma Shift4(x: u8)
    ensures (x >> 4) as int == x as int / 16
  {
    Shift3(x);
    Halving(x >> 3);
    assert x >> 4 == (x >> 3) >> 1;
  }

  lemma Shift5(x: u8)
    ensures (x >> 5) as int == x as int / 32
  {
    Shift4(x);
    Halving(x >> 4);
    assert x >> 5 == (x >> 4) >> 1;
  }

  lemma Shift6(x: u8)
    ensures (x >> 6) as int == x as int / 64
  {
    Shift5(x);
    Halving(x >> 5);
    assert x >> 6 == (x >> 5) >> 1;
  }

  lemma Shift7(x: u8)
    ensures (x >> 7) as int == x as int / 128
  {
    Shift6(x);
    Halving(x >> 6);
    assert x >> 7 == (x >> 6) >> 1;
  }

  /** A byte is the sum of its bits, weighted by powers of two. */
  lemma SumOfBits(x: u8)
    ensures x as int == BitOf(x, 7) as int * 128 + BitOf(x, 6) as int * 64
                      + BitOf(x, 5) as int * 32 + BitOf(x, 4) as int * 16
                      + BitOf(x, 3) as int * 8 + BitOf(x, 2) as int * 4
                      + BitOf(x, 1) as int * 2 + BitOf(x, 0) as int
  {
    HalfSplit(x);
    HalfSplit(x >> 1);
    HalfSplit(x >> 2);
    HalfSplit(x >> 3);
    HalfSplit(x >> 4);
    HalfSplit(x >> 5);
    HalfSplit(x >> 6);
    ShiftsCompose(x);
  }

  /** Halving a byte: v is twice v >> 1 plus its low bit. */
  lemma HalfSplit(v: u8)
    ensures v as int == 2 * (v >> 1) as int + (v & 1) as int
  {
  }

  lemma ShiftsCompose(x: u8)
    ensures (x >> 1) >> 1 == x >> 2 && (x >> 2) >> 1 == x >> 3 && (x >> 3) >> 1 == x >> 4
    ensures (x >> 4) >> 1 == x >> 5 && (x >> 5) >> 1 == x >> 6 && (x >> 6) >> 1 == x >> 7
    ensures x >> 7 == (x >> 7) & 1
    ensures BitOf(x, 0) == x & 1 && BitOf(x, 1) == (x >> 1) & 1 && BitOf(x, 2) == (x >> 2) & 1
    ensures BitOf(x, 3) == (x >> 3) & 1 && BitOf(x, 4) == (x >> 4) & 1 && BitOf(x, 5) == (x >> 5) & 1
    ensures BitOf(x, 6) == (x >> 6) & 1 && BitOf(x, 7) == (x >> 7) & 1
  {
  }

  // Bridges between bit-vector operations and their arithmetic meaning.  Each
  // is stated once here, with its proof split into steps the solver takes
  // separately, so that the rest of the model never mixes the two theories.

  lemma Widen8(x: u8)
    ensures (x as bv9) as int == x as int
    ensures (x as u16) as int == x as int
  {
  }

  lemma WideSum8(a: u8, b: u8)
    ensures (a as bv9 + b as bv9) as int == a as int + b as int
  {
  }

  lemma WrapSum8(a: u8, b: u8)
    ensures (a + b) as bv9 == (a as bv9 + b as bv9) & 0xFF
  {
  }

  lemma LowByte9(s: bv9)
    ensures (s & 0xFF) as int == s as int % 256
  {
  }

  /** u8 `wrapping_add`: the sum modulo 256. */
  lemma AddMod8(a: u8, b: u8)
    ensures (a + b) as int == (a as int + b as int) % 256
  {
    WideSum8(a, b);
    WrapSum8(a, b);
    LowByte9(a as bv9 + b as bv9);
    Widen8(a + b);
  }

  lemma SubUndoesAdd8(a: u8, b: u8)
    ensures (a - b) + b == a
  {
  }

  lemma ModUndo(x: int, y: int, d: int)
    requires 0 <= d < 256 && 0 <= y < 256 && x == (d + y) % 256
    ensures d == (x - y) % 256
  {
  }

  /** u8 `wrapping_sub`: the difference modulo 256. */
  lemma SubMod8(a: u8, b: u8)
    ensures (a - b) as int == (a as int - b as int) % 256
  {
    SubUndoesAdd8(a, b);
    AddMod8(a - b, b);
    ModUndo(a as int, b as int, (a - b) as int);
  }

  /** Bitwise NOT of a byte is 255 minus it. */
  lemma NotIsComplement8(a: u8)
    ensures (!a) as int == 255 - a as int
  {
    assert !a + a == 0xFF;
    AddMod8(!a, a);
  }

  /** The low nibble `x & 0xF`. */
  lemma LowNibble(x: u8)
    ensures (x & 0xF) as int == x as int % 16
  {
  }

  /** The high nibble `(x & 0xF0) >> 4`. */
  lemma HighNibble(x: u8)
    ensures ((x & 0xF0) >> 4) as int == x as int / 16
  {
  }

  /** A number that fits in a byte survives the round trip through u8. */
  lemma IntToByte(n: int)
    requires 0 <= n < 256
    ensures (n as u8) as int == n
  {
    var b := ByteFromDigits(n);
    ByteOfInt(b);
  }

  /** The byte with the number n, built one binary digit at a time. */
  function ByteFromDigits(n: int): (b: u8)
    requires 0 <= n < 256
    ensures b as int == n
  {
    if n < 2 then
      (if n == 0 then 0 else 1)
    else
      AppendBit(ByteFromDigits(n / 2), if n % 2 == 0 then 0 else 1)
  }

  /** Shifting a bit in at the bottom doubles the number and adds the bit. */
  function AppendBit(h: u8, bit: u8): (v: u8)
    requires h as int < 128 && bit <= 1
    ensures v as int == 2 * h as int + bit as int
  {
    OrderOfBytes(h, 0x7F);
    OrderOfBytes(bit, 1);
    HalfSplit((h << 1) | bit);
    assert ((h << 1) | bit) >> 1 == h;
    assert ((h << 1) | bit) & 1 == bit;
    (h << 1) | bit
  }

  lemma SmallMod(n: int)
    requires 0 <= n < 256
    ensures n % 256 == n
  {
  }

  lemma ByteOfInt(x: u8)
    ensures (x as int) as u8 == x
  {
  }

  lemma OrderOfBytes(a: u8, b: u8)
    ensures a <= b <==> a as int <= b as int
    ensures a == b <==> a as int == b as int
  {
  }

  lemma Widen16(x: u16)
    ensures (x as bv17) as int == x as int
  {
  }

  lemma WideIncrement16(a: u16)
    ensures (a as bv17 + 1) as int == a as int + 1
  {
  }

  lemma NoWrapIncrement16(a: u16)
    requires a < 0xFFFF
    ensures (a + 1) as bv17 == a as bv17 + 1
  {
  }

  lemma WordBelowMax(a: u16)
    ensures a < 0xFFFF <==> a as int < 0xFFFF
    ensures a == 0xFFFF <==> a as int == 0xFFFF
  {
  }

  /** u16 `wrapping_add(1)`: one more, except that 0xFFFF wraps to 0. */
  lemma Increment16(a: u16)
    ensures (a + 1) as int == if a as int == 0xFFFF then 0 else a as int + 1
  {
    WordBelowMax(a);
    if a < 0xFFFF {
      WideIncrement16(a);
      NoWrapIncrement16(a);
      Widen16(a + 1);
    }
  }

  lemma SubOneUndone16(a: u16)
    ensures (a - 1) + 1 == a
    ensures a == 0 <==> a - 1 == 0xFFFF
  {
  }

  /** u16 `wrapping_sub(1)`: one less, except that 0 wraps to 0xFFFF. */
  lemma Decrement16(a: u16)
    ensures (a - 1) as int == if a as int == 0 then 0xFFFF else a as int - 1
  {
    var d := a - 1;
    SubOneUndone16(a);
    Increment16(d);
    assert a as int == if d as int == 0xFFFF then 0 else d as int + 1;
    PredecessorOfSuccessor(a as int, d as int);
  }

  lemma PredecessorOfSuccessor(n: int, p: int)
    requires 0 <= p <= 0xFFFF && n == if p == 0xFFFF then 0 else p + 1
    ensures p == if n == 0 then 0xFFFF else n - 1
  {
  }

  lemma WordOfInt(x: u16)
    ensures (x as int) as u16 == x
  {
  }

  /** Distinct words are distinct numbers. */
  lemma WordInjective(a: u16, b: u16)
    ensures a as int == b as int ==> a == b
  {
    WordOfInt(a);
    WordOfInt(b);
  }

  /** `x.checked_add(y)`: the sum, or nothing when it does not fit in a byte. */
  function CheckedAdd(x: u8, y: u8): Option<u8> {
    if y > 0xFF - x then None else Some(x + y)
  }

  /** `x.checked_sub(y)`: the difference, or nothing when y exceeds x. */
  function CheckedSub(x: u8, y: u8): Option<u8> {
    if y > x then None else Some(x - y)
  }

  /** A checked addition fails exactly when the unbounded sum exceeds 255, and otherwise is that sum. */
  lemma CheckedAddMeaning(x: u8, y: u8)
    ensures CheckedAdd(x, y).None? <==> x as int + y as int > 255
    ensures CheckedAdd(x, y).Some? ==> CheckedAdd(x, y).value as int == x as int + y as int
  {
    Headroom(x);
    OrderOfBytes(y, 0xFF - x);
    if CheckedAdd(x, y).Some? {
      NoWrapSum(x, y);
    }
  }

  /** The room left above a byte, 0xFF - x, is 255 - x. */
  lemma Headroom(x: u8)
    ensures (0xFF - x) as int == 255 - x as int
  {
    assert 0xFF - x == !x;
    NotIsComplement8(x);
  }

  lemma NoWrapSum(x: u8, y: u8)
    requires x as int + y as int <= 255
    ensures (x + y) as int == x as int + y as int
  {
    AddMod8(x, y);
    SmallMod(x as int + y as int);
  }

  /** A checked subtraction fails exactly when y exceeds x, and otherwise is the difference. */
  lemma CheckedSubMeaning(x: u8, y: u8)
    ensures CheckedSub(x, y).None? <==> y as int > x as int
    ensures CheckedSub(x, y).Some? ==> CheckedSub(x, y).value as int == x as int - y as int
  {
    OrderOfBytes(y, x);
    if CheckedSub(x, y).Some? {
      NoWrapDifference(x, y);
    }
  }

  lemma NoWrapDifference(x: u8, y: u8)
    requires y as int <= x as int
    ensures (x - y) as int == x as int - y as int
  {
    SubMod8(x, y);
    SmallMod(x as int - y as int);
  }

  /** Bit 7, tested as `r & 0x80 != 0`, is set exactly for the bytes 128..255. */
  lemma SignBit(r: u8)
    ensures (r & 0x80 != 0) <==> r as int >= 128
  {
    assert (r & 0x80 != 0) <==> r >= 0x80;
    OrderOfBytes(0x80, r);
  }

  lemma NibbleSumBits(lx: u8, ly: u8)
    requires lx <= 0xF && ly <= 0xF
    ensures ((lx + ly) & 0x10 > 0) <==> lx + ly >= 0x10
  {
  }

  /**
   * The auxiliary carry of an addition, tested as
   * `((x & 0xF) + (y & 0xF)) & 0x10 > 0`: the low nibbles overflow.
   */
  lemma NibbleCarry(x: u8, y: u8)
    ensures (((x & 0xF) + (y & 0xF)) & 0x10 > 0) <==> x as int % 16 + y as int % 16 >= 16
  {
    var lx, ly := x & 0xF, y & 0xF;
    assert lx <= 0xF && ly <= 0xF;
    NibbleSumBits(lx, ly);
    LowNibble(x);
    LowNibble(y);
    AddMod8(lx, ly);
    SmallMod(lx as int + ly as int);
    OrderOfBytes(0x10, lx + ly);
  }

  /** The auxiliary borrow of a subtraction: the low nibble of y exceeds that of x. */
  lemma NibbleBorrow(x: u8, y: u8)
    ensures CheckedSub(x & 0xF, y & 0xF).None? <==> y as int % 16 > x as int % 16
  {
    CheckedSubMeaning(x & 0xF, y & 0xF);
    LowNibble(x);
    LowNibble(y);
  }

  /** The low-nibble test `x & 0xF > 9` of decimal adjustment. */
  lemma LowNibbleAboveNine(x: u8)
    ensures (x & 0xF > 9) <==> x as int % 16 > 9
  {
    LowNibble(x);
    OrderOfBytes(x & 0xF, 9);
  }

  /** The high-nibble test `(x & 0xF0) >> 4 > 9` of decimal adjustment. */
  lemma HighNibbleAboveNine(x: u8)
    ensures ((x & 0xF0) >> 4 > 9) <==> x as int / 16 > 9
  {
    HighNibble(x);
    OrderOfBytes((x & 0xF0) >> 4, 9);
  }
}
