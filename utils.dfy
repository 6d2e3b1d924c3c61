/**
 * Bit and byte helpers of the CPU (src/cpu/utils.rs): a byte as an
 * MSB-first array of eight bits and back, and a 16-bit value as a
 * high/low byte pair and back.
 */
module Utils {
  import opened Binary
  import opened Results

  /** The bits of x, most significant first: element j is bit 7 - j. */
  function BitsOf(x: u8): (bits: seq<u8>)
    ensures |bits| == 8
  {
    seq(8, j requires 0 <= j < 8 => BitOf(x, 7 - j))
  }

  /** An eight-element array whose every element is 0 or 1. */
  predicate IsBitArray(bits: seq<u8>) {
    |bits| == 8 && forall j :: 0 <= j < 8 ==> bits[j] <= 1
  }

  /** The weight `0x80 >> i` that `from_bits` gives to element i. */
  function Weight(i: nat): nat
    requires i < 8
  {
    Pow2(7 - i)
  }

  /** The sum of bits[i] * Weight(i) over the first n elements, in unbounded arithmetic. */
  function WeightedSum(bits: seq<u8>, n: nat): nat
    requires n <= |bits| <= 8
  {
    if n == 0 then 0 else WeightedSum(bits, n - 1) + bits[n - 1] as int * Weight(n - 1)
  }

  /** get_bits: fills an eight-element array, element 7 - i with bit i of x. */
  method GetBits(x: u8) returns (bits: seq<u8>)
    ensures |bits| == 8
    ensures forall j :: 0 <= j < 8 ==> bits[j] as int == (x as int / Pow2(7 - j)) % 2
    ensures IsBitArray(bits)
    ensures bits == BitsOf(x)
  {
    bits := [0, 0, 0, 0, 0, 0, 0, 0];
    for i := 0 to 8
      invariant |bits| == 8
      invariant forall j :: 8 - i <= j < 8 ==> bits[j] == BitOf(x, 7 - j)
    {
      bits := bits[7 - i := (x >> i) & 1];
    }
    forall j | 0 <= j < 8
      ensures bits[j] as int == (x as int / Pow2(7 - j)) % 2
    {
      BitIsDigit(x, 7 - j);
    }
  }

  /**
   * from_bits: accumulates bits[i] * (0x80 >> i) in a u8 with plain `*` and
   * `+=`, which panic on overflow in a debug build; the model follows that
   * build, so an array whose weighted sum does not fit in a byte ends in an
   * overflow failure.
   */
  method FromBits(bits: seq<u8>) returns (r: Result<u8>)
    requires |bits| == 8
    ensures r.Ok? <==> WeightedSum(bits, 8) < 256
    ensures r.Ok? ==> r.value as int == WeightedSum(bits, 8)
    ensures r.Err? ==> r.error == ArithmeticOverflow
  {
    var x: u8 := 0;
    for i := 0 to 8
      invariant x as int == WeightedSum(bits, i)
    {
      var multiplier: u8 := 0x80 >> i;
      var product := bits[i] as int * multiplier as int;
      FromBitsStep(bits, i, x as int, multiplier);
      if product > 255 || x as int + product > 255 {
        return Err(ArithmeticOverflow);
      }
      x := AccumulateBit(x, product);
    }
    r := Ok(x);
  }

  /** Element i of the loop of from_bits adds its weighted bit to the running sum. */
  lemma FromBitsStep(bits: seq<u8>, i: nat, x: int, multiplier: u8)
    requires i < |bits| == 8 && x == WeightedSum(bits, i) && multiplier == (0x80 as u8) >> i
    ensures x + bits[i] as int * multiplier as int == WeightedSum(bits, i + 1)
    ensures bits[i] as int * multiplier as int >= 0
    ensures x + bits[i] as int * multiplier as int > 255 ==> WeightedSum(bits, 8) >= 256
  {
    ShiftedWeight(i);
    var w := multiplier as int;
    assert w == Weight(i);
    var bit := bits[i] as int;
    assert bit * w == bits[i] as int * Weight(i);
    assert bit >= 0 && w >= 0;
    NonNegativeProduct(bit, w);
    WeightedSumGrows(bits, i + 1, 8);
  }

  lemma NonNegativeProduct(a: int, b: int)
    requires a >= 0 && b >= 0
    ensures a * b >= 0
  {
  }

  /** One checked step `x += product` of from_bits that does not overflow. */
  function AccumulateBit(x: u8, product: int): (y: u8)
    requires 0 <= product && x as int + product <= 255
    ensures y as int == x as int + product
  {
    var b := product as u8;
    IntToByte(product);
    AddMod8(x, b);
    SmallMod(x as int + b as int);
    x + b
  }

  lemma ShiftedWeight(i: nat)
    requires i < 8
    ensures ((0x80 as u8) >> i) as int == Weight(i)
  {
    PowersOfTwo();
    if i == 0 {} else if i == 1 {} else if i == 2 {} else if i == 3 {}
    else if i == 4 {} else if i == 5 {} else if i == 6 {} else {}
  }

  /** Weighted sums never decrease as more elements are added. */
  lemma {:induction false} WeightedSumGrows(bits: seq<u8>, m: nat, n: nat)
    requires m <= n <= |bits| <= 8
    ensures WeightedSum(bits, m) <= WeightedSum(bits, n)
    decreases n - m
  {
    if m < n {
      WeightedSumGrows(bits, m, n - 1);
    }
  }

  lemma WeightedSumOfEight(bits: seq<u8>)
    requires |bits| == 8
    ensures WeightedSum(bits, 8) == bits[0] as int * 128 + bits[1] as int * 64
                                  + bits[2] as int * 32 + bits[3] as int * 16
                                  + bits[4] as int * 8 + bits[5] as int * 4
                                  + bits[6] as int * 2 + bits[7] as int
  {
    PowersOfTwo();
    assert Weight(0) == 128 && Weight(1) == 64 && Weight(2) == 32 && Weight(3) == 16;
    assert Weight(4) == 8 && Weight(5) == 4 && Weight(6) == 2 && Weight(7) == 1;
    assert WeightedSum(bits, 1) == bits[0] as int * 128;
    assert WeightedSum(bits, 2) == WeightedSum(bits, 1) + bits[1] as int * 64;
    assert WeightedSum(bits, 3) == WeightedSum(bits, 2) + bits[2] as int * 32;
    assert WeightedSum(bits, 4) == WeightedSum(bits, 3) + bits[3] as int * 16;
    assert WeightedSum(bits, 5) == WeightedSum(bits, 4) + bits[4] as int * 8;
    assert WeightedSum(bits, 6) == WeightedSum(bits, 5) + bits[5] as int * 4;
    assert WeightedSum(bits, 7) == WeightedSum(bits, 6) + bits[6] as int * 2;
  }

  /** from_bits(get_bits(x)) == x: the weighted sum of a byte's bits is the byte. */
  lemma FromBitsOfGetBits(x: u8)
    ensures WeightedSum(BitsOf(x), 8) == x as int
  {
    WeightedSumOfEight(BitsOf(x));
    SumOfBits(x);
  }

  /** get_bits(from_bits(bits)) == bits for every array of 0/1 bits, which never overflows. */
  lemma GetBitsOfFromBits(bits: seq<u8>)
    requires IsBitArray(bits)
    ensures WeightedSum(bits, 8) < 256
    ensures BitsOf(WeightedSum(bits, 8) as u8) == bits
  {
    WeightedSumOfEight(bits);
    var v := Horner(bits);
    ByteOfInt(v);
  }

  /** The byte whose bits, most significant first, are the given 0/1 bits. */
  lemma Horner(bits: seq<u8>) returns (v: u8)
    requires IsBitArray(bits)
    ensures v as int == bits[0] as int * 128 + bits[1] as int * 64
                      + bits[2] as int * 32 + bits[3] as int * 16
                      + bits[4] as int * 8 + bits[5] as int * 4
                      + bits[6] as int * 2 + bits[7] as int
    ensures BitsOf(v) == bits
  {
    var b0, b1, b2, b3, b4, b5, b6, b7 := bits[0], bits[1], bits[2], bits[3], bits[4], bits[5], bits[6], bits[7];
    assert b0 <= 1 && b1 <= 1 && b2 <= 1 && b3 <= 1 && b4 <= 1 && b5 <= 1 && b6 <= 1 && b7 <= 1;
    var v1 := FirstBit(b0);
    var v2 := ShiftIn(v1, b1);
    var v3 := ShiftIn(v2, b2);
    var v4 := ShiftIn(v3, b3);
    var v5 := ShiftIn(v4, b4);
    var v6 := ShiftIn(v5, b5);
    var v7 := ShiftIn(v6, b6);
    v := ShiftIn(v7, b7);
    var r := BitsOf(v);
    assert r[0] == b0 && r[1] == b1 && r[2] == b2 && r[3] == b3;
    assert r[4] == b4 && r[5] == b5 && r[6] == b6 && r[7] == b7;
    assert r == bits;
  }

  lemma FirstBit(b: u8) returns (w: u8)
    requires b <= 1
    ensures w as int == b as int && w < 128
    ensures BitOf(w, 0) == b
    ensures BitOf(w, 1) == 0 && BitOf(w, 2) == 0 && BitOf(w, 3) == 0 && BitOf(w, 4) == 0
    ensures BitOf(w, 5) == 0 && BitOf(w, 6) == 0 && BitOf(w, 7) == 0
  {
    w := b;
  }

  /**
   * One step of Horner's rule on a byte that still has room for another bit:
   * the new bit becomes bit 0 and every other bit moves up one place.
   */
  lemma ShiftIn(v: u8, b: u8) returns (w: u8)
    requires v < 128 && b <= 1
    ensures w as int == 2 * v as int + b as int
    ensures BitOf(w, 0) == b
    ensures BitOf(w, 1) == BitOf(v, 0) && BitOf(w, 2) == BitOf(v, 1)
    ensures BitOf(w, 3) == BitOf(v, 2) && BitOf(w, 4) == BitOf(v, 3)
    ensures BitOf(w, 5) == BitOf(v, 4) && BitOf(w, 6) == BitOf(v, 5)
    ensures BitOf(w, 7) == BitOf(v, 6) && BitOf(v, 7) == 0
    ensures BitOf(v, 6) == 0 ==> w < 128
  {
    w := (v << 1) | b;
  }

  /** combine_values: the high byte shifted left by 8, plus the low byte. */
  function CombineValues(higher: u8, lower: u8): u16 {
    ((higher as u16) << 8) + (lower as u16)
  }

  /** The combined word is the number higher * 256 + lower. */
  lemma CombinedValue(higher: u8, lower: u8)
    ensures CombineValues(higher, lower) as int == higher as int * 256 + lower as int
  {
    var v := CombineValues(higher, lower);
    CombinedBytes(higher, lower);
    ByteSplit(v);
    Widen8(higher);
    Widen8(lower);
  }

  lemma CombinedBytes(higher: u8, lower: u8)
    ensures (((higher as u16) << 8) + (lower as u16)) >> 8 == higher as u16
    ensures (((higher as u16) << 8) + (lower as u16)) & 0xFF == lower as u16
  {
  }

  /** separate_values: the high and low bytes of a 16-bit value. */
  function SeparateValues(value: u16): (u8, u8) {
    (((value >> 8) & 0xFF) as u8, (value & 0xFF) as u8)
  }

  /** The two parts are the quotient and the remainder of the word by 256. */
  lemma SeparatedValue(value: u16)
    ensures SeparateValues(value).0 as int == value as int / 256
    ensures SeparateValues(value).1 as int == value as int % 256
  {
    HighByte(value);
    LowByte(value);
  }

  lemma HighByte(value: u16)
    ensures ((value >> 8) & 0xFF) as int == value as int / 256
  {
    assert (value >> 8) & 0xFF == value >> 8;
  }

  lemma ByteSplit(value: u16)
    ensures value as int == (value >> 8) as int * 256 + (value & 0xFF) as int
  {
  }

  lemma LowByte(value: u16)
    ensures (value & 0xFF) as int == value as int % 256
  {
    ByteSplit(value);
    HighByte(value);
    assert (value & 0xFF) <= 0xFF;
  }

  lemma SeparateCombined(higher: u8, lower: u8)
    ensures SeparateValues(CombineValues(higher, lower)) == (higher, lower)
  {
  }

  lemma CombineSeparated(value: u16)
    ensures CombineValues(SeparateValues(value).0, SeparateValues(value).1) == value
  {
  }

  /** utils_get_bits: 0b11001100 and 0b01011010 split into their bits, most significant first. */
  method GetBitsExamples() returns (first: seq<u8>, second: seq<u8>)
    ensures first == [1, 1, 0, 0, 1, 1, 0, 0]
    ensures second == [0, 1, 0, 1, 1, 0, 1, 0]
  {
    first := GetBits(0xCC);
    second := GetBits(0x5A);
  }

  /** utils_from_bits: the same two bit arrays put back together. */
  method FromBitsExamples() returns (first: Result<u8>, second: Result<u8>)
    ensures first == Ok(0xCC)
    ensures second == Ok(0x5A)
  {
    FromBitsOfGetBits(0xCC);
    FromBitsOfGetBits(0x5A);
    assert BitsOf(0xCC) == [1, 1, 0, 0, 1, 1, 0, 0];
    assert BitsOf(0x5A) == [0, 1, 0, 1, 1, 0, 1, 0];
    first := FromBits([1, 1, 0, 0, 1, 1, 0, 0]);
    second := FromBits([0, 1, 0, 1, 1, 0, 1, 0]);
    OrderOfBytes(first.value, 0xCC);
    OrderOfBytes(second.value, 0x5A);
  }

  /** utils_combine_values and utils_separate_values: 0xAB and 0xCD make 0xABCD, and back. */
  lemma CombineSeparateExamples()
    ensures CombineValues(0xAB, 0xCD) == 0xABCD
    ensures SeparateValues(0xABCD) == (0xAB, 0xCD)
  {
  }
}
