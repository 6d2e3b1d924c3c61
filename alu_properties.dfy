/**
 * Properties of the ALU of src/cpu/alu.rs that relate several operations or
 * several steps: the conditions and the carry operations, the arithmetic
 * of ADD/ADC/SUB/SBB/CMP, the failures of evaluate, the rotation cycles and
 * decimal adjustment of BCD sums.
 */
module AluProperties {
  import opened Binary
  import opened Results
  import opened Registers
  import opened Utils
  import opened CpuAlu
  import Instructions

  /** Each of the eight conditions is one flag, and the conditions come in complementary pairs. */
  lemma ConditionsReadOneFlag(flags: AluFlags)
    ensures EvaluateCondition(flags, Instructions.Zero) == flags.zero
    ensures EvaluateCondition(flags, Instructions.Carry) == flags.carry
    ensures EvaluateCondition(flags, Instructions.ParityEven) == flags.parity
    ensures EvaluateCondition(flags, Instructions.Minus) == flags.sign
    ensures EvaluateCondition(flags, Instructions.NotZero) == !EvaluateCondition(flags, Instructions.Zero)
    ensures EvaluateCondition(flags, Instructions.NoCarry) == !EvaluateCondition(flags, Instructions.Carry)
    ensures EvaluateCondition(flags, Instructions.ParityOdd) == !EvaluateCondition(flags, Instructions.ParityEven)
    ensures EvaluateCondition(flags, Instructions.Plus) == !EvaluateCondition(flags, Instructions.Minus)
  {
  }

  /** STC sets the carry and nothing else; CMC flips it, so that CMC twice gives back the flags. */
  lemma CarryOperations(flags: AluFlags)
    ensures Evaluated(SetCarry, flags) == Ok(Evaluation(None, flags.(carry := true)))
    ensures Evaluated(ComplementCarry, flags) == Ok(Evaluation(None, flags.(carry := !flags.carry)))
    ensures Evaluated(ComplementCarry, Evaluated(ComplementCarry, flags).value.flags).value.flags == flags
  {
  }

  /**
   * ADD and ADC: the second operand y' is y, or y + CY modulo 256 for ADC;
   * the result is x + y' modulo 256, CY says x + y' exceeds 255, AC says
   * the low nibbles of x and y' sum to 16 or more, and Z, S and P are those
   * of the result.
   */
  lemma AddResultMeaning(x: u8, y: u8, useCarry: bool, flags: AluFlags)
    ensures var y' := CarriedOperand(y, useCarry, flags.carry);
            && y' as int == (if useCarry && flags.carry then (y as int + 1) % 256 else y as int)
            && AddResult(x, y, useCarry, flags).value as int == (x as int + y' as int) % 256
            && (AddResult(x, y, useCarry, flags).flags.carry <==> x as int + y' as int > 255)
            && (AddResult(x, y, useCarry, flags).flags.auxCarry <==> x as int % 16 + y' as int % 16 >= 16)
            && ResultFlags(AddResult(x, y, useCarry, flags).value, AddResult(x, y, useCarry, flags).flags)
  {
    CarriedOperandValue(y, useCarry, flags.carry);
    SumMeaning(x, CarriedOperand(y, useCarry, flags.carry));
  }

  /**
   * SUB and SBB: with y' as for ADC, the result is x - y' modulo 256, CY
   * (borrow) says y' exceeds x, AC says the low nibble of y' exceeds that of
   * x, and Z, S and P are those of the result.
   */
  lemma SubResultMeaning(x: u8, y: u8, useCarry: bool, flags: AluFlags)
    ensures var y' := CarriedOperand(y, useCarry, flags.carry);
            && y' as int == (if useCarry && flags.carry then (y as int + 1) % 256 else y as int)
            && SubResult(x, y, useCarry, flags).value as int == (x as int - y' as int) % 256
            && (SubResult(x, y, useCarry, flags).flags.carry <==> y' as int > x as int)
            && (SubResult(x, y, useCarry, flags).flags.auxCarry <==> y' as int % 16 > x as int % 16)
            && ResultFlags(SubResult(x, y, useCarry, flags).value, SubResult(x, y, useCarry, flags).flags)
  {
    CarriedOperandValue(y, useCarry, flags.carry);
    DifferenceMeaning(x, CarriedOperand(y, useCarry, flags.carry));
  }

  /** CMP returns no result and leaves the flags of SUB. */
  lemma ComparisonEvaluated(x: u8, y: u8, flags: AluFlags)
    ensures Evaluated(Comparison(Integer8(x), Integer8(y)), flags) == Ok(Evaluation(None, SubResult(x, y, false, flags).flags))
  {
  }

  /** The flags CMP leaves: Z says the operands are equal and CY says the first is below the second. */
  lemma ComparisonFlags(x: u8, y: u8, flags: AluFlags)
    ensures SubResult(x, y, false, flags).flags.zero <==> x == y
    ensures SubResult(x, y, false, flags).flags.carry <==> x as int < y as int
  {
    DifferenceMeaning(x, y);
    assert (x - y == 0) == (x == y);
  }

  /**
   * evaluate fails exactly when a two-operand operation gets an operand that
   * is not one byte (WidthMismatch), or when a one-operand operation other
   * than increment and decrement gets a wide operand (the byte it unwraps is
   * absent).
   */
  lemma EvaluatedFailures(operation: AluOperation, flags: AluFlags)
    ensures Evaluated(operation, flags).Err? <==>
              (operation.IsBinary() && !(operation.a.Integer8? && operation.b.Integer8?))
              || (operation.IsUnary() && !operation.a.Integer8? && !operation.Increment? && !operation.Decrement?)
    ensures operation.IsBinary() && Evaluated(operation, flags).Err? ==> Evaluated(operation, flags).error == WidthMismatch
    ensures operation.IsUnary() && Evaluated(operation, flags).Err? ==> Evaluated(operation, flags).error == Panic
  {
    if operation.IsBinary() && operation.a.Integer8? && operation.b.Integer8? {
      assert BinaryEvaluated(operation, operation.a.byte, operation.b.byte, flags).Ok?;
    } else if operation.IsUnary() && operation.a.Integer8? {
      assert ByteEvaluated(operation, operation.a.byte, flags).Ok?;
    }
  }

  /** 16-bit INX changes no flag and stores a 16-bit result. */
  lemma WordIncrement(w: u16, flags: AluFlags)
    ensures Evaluated(Increment(Integer16(w)), flags) == Ok(Evaluation(Some(Integer16(IncDec16(w, true))), flags))
  {
  }

  /** 16-bit DCX changes no flag and stores a 16-bit result. */
  lemma WordDecrement(w: u16, flags: AluFlags)
    ensures Evaluated(Decrement(Integer16(w)), flags) == Ok(Evaluation(Some(Integer16(IncDec16(w, false))), flags))
  {
  }

  /** INX and DCX undo each other. */
  lemma IncDec16Inverse(w: u16)
    ensures IncDec16(IncDec16(w, true), false) == w
    ensures IncDec16(IncDec16(w, false), true) == w
  {
  }

  /** A register pair is widened to its number before INX or DCX, and it changes no flag. */
  lemma PairIncDec(higher: u8, lower: u8, increment: bool, flags: AluFlags)
    ensures var operation := if increment then Increment(Integer8Pair(higher, lower)) else Decrement(Integer8Pair(higher, lower));
            Evaluated(operation, flags) == Ok(Evaluation(Some(Integer16(IncDec16(CombineValues(higher, lower), increment))), flags))
  {
  }

  /** The number INX and DCX leave for a register pair: one more or one less, modulo 0x10000. */
  lemma PairIncDecValue(higher: u8, lower: u8, increment: bool)
    ensures IncDec16(CombineValues(higher, lower), increment) as int
              == (if increment then (higher as int * 256 + lower as int + 1) % 0x10000
                  else (higher as int * 256 + lower as int - 1) % 0x10000)
  {
    var w := CombineValues(higher, lower);
    CombinedValue(higher, lower);
    IncDec16Meaning(w, increment);
    WrapWord(w as int, increment);
  }

  /** The 16-bit step with explicit wrap-around is the step modulo 0x10000. */
  lemma WrapWord(n: int, increment: bool)
    requires 0 <= n < 0x10000
    ensures (if increment then (if n == 0xFFFF then 0 else n + 1) else (if n == 0 then 0xFFFF else n - 1))
              == (if increment then (n + 1) % 0x10000 else (n - 1) % 0x10000)
  {
  }

  /** CMA changes no flag and undoes itself. */
  lemma ComplementInvolution(x: u8, flags: AluFlags)
    ensures Evaluated(Complement(Integer8(x)), flags) == Ok(Evaluation(Some(Integer8(ComplementResult(x))), flags))
    ensures ComplementResult(ComplementResult(x)) == x
  {
    assert !!x == x;
  }

  /** The byte and the flags after n rotations of the same kind. */
  function Rotations(c: Computed, right: bool, throughCarry: bool, n: nat): Computed
    decreases n
  {
    if n == 0 then c else Rotations(RotateResult(c.value, right, throughCarry, c.flags), right, throughCarry, n - 1)
  }

  /** A byte rotated n times by one place. */
  function RotatedTimes(x: u8, right: bool, n: nat): u8
    decreases n
  {
    if n == 0 then x else RotatedTimes(if right then x.RotateRight(1) else x.RotateLeft(1), right, n - 1)
  }

  /** Nine bits carry:byte rotated n times by one place. */
  function PackRotatedTimes(p: bv9, right: bool, n: nat): bv9
    decreases n
  {
    if n == 0 then p else PackRotatedTimes(if right then p.RotateRight(1) else p.RotateLeft(1), right, n - 1)
  }

  /**
   * After n plain rotations the byte is rotated n places, and when n > 0 the
   * carry holds the bit shifted out by the last one; no other flag changes.
   */
  lemma {:induction false} PlainRotations(c: Computed, right: bool, n: nat)
    ensures Rotations(c, right, false, n).value == RotatedTimes(c.value, right, n)
    ensures n == 0 ==> Rotations(c, right, false, n).flags == c.flags
    ensures n > 0 ==> Rotations(c, right, false, n).flags
                        == c.flags.(carry := CarryOut(RotatedTimes(c.value, right, n - 1), right))
    decreases n
  {
    if n > 0 {
      var next := RotateResult(c.value, right, false, c.flags);
      PlainRotations(next, right, n - 1);
    }
  }

  /**
   * After n rotations through the carry, the nine bits carry:byte are rotated
   * n places, and no flag but the carry changes.
   */
  lemma {:induction false} CarryRotations(c: Computed, right: bool, n: nat)
    ensures Pack(Rotations(c, right, true, n).flags.carry, Rotations(c, right, true, n).value)
              == PackRotatedTimes(Pack(c.flags.carry, c.value), right, n)
    ensures Rotations(c, right, true, n).flags == c.flags.(carry := Rotations(c, right, true, n).flags.carry)
    decreases n
  {
    if n > 0 {
      var next := RotateResult(c.value, right, true, c.flags);
      RotateMeaning(c.value, right, true, c.flags);
      CarryRotations(next, right, n - 1);
    }
  }

  /**
   * Eight RLC (or RRC) give back the byte; the carry then holds the bit
   * shifted out last, which is bit 0 (or bit 7) of the byte, and no other
   * flag changes.
   */
  lemma PlainRotationsCycle(x: u8, right: bool, flags: AluFlags)
    ensures Rotations(Computed(x, flags), right, false, 8)
              == Computed(x, flags.(carry := if right then BitOf(x, 7) == 1 else BitOf(x, 0) == 1))
  {
    PlainRotations(Computed(x, flags), right, 8);
    ByteCycle(x, right);
  }

  /** Eight one-place rotations give a byte back; the seventh leaves the bit the last one moves out in place. */
  lemma ByteCycle(x: u8, right: bool)
    ensures RotatedTimes(x, right, 8) == x
    ensures CarryOut(RotatedTimes(x, right, 7), right) == if right then BitOf(x, 7) == 1 else BitOf(x, 0) == 1
  {
    RotatedTimesUnfold(x, right, 7);
    RotatedTimesUnfold(x, right, 8);
    if right {
      RightCycle(x);
    } else {
      LeftCycle(x);
    }
  }

  /** Rotations peeled from the last rotation: n + 1 rotations are one more after n. */
  lemma {:induction false} RotationsUnfold(c: Computed, right: bool, throughCarry: bool, n: nat)
    ensures Rotations(c, right, throughCarry, n + 1)
              == RotateResult(Rotations(c, right, throughCarry, n).value, right, throughCarry,
                              Rotations(c, right, throughCarry, n).flags)
    decreases n
  {
    if n > 0 {
      RotationsUnfold(RotateResult(c.value, right, throughCarry, c.flags), right, throughCarry, n - 1);
    }
  }

  /** RotatedTimes peeled from the last rotation. */
  lemma {:induction false} RotatedTimesUnfold(x: u8, right: bool, n: nat)
    requires n > 0
    ensures RotatedTimes(x, right, n) == (var r := RotatedTimes(x, right, n - 1); if right then r.RotateRight(1) else r.RotateLeft(1))
    decreases n
  {
    if n > 1 {
      RotatedTimesUnfold(if right then x.RotateRight(1) else x.RotateLeft(1), right, n - 1);
    }
  }

  /** Seven right rotations are one left rotation, and eight are none. */
  lemma RightCycle(x: u8)
    ensures RotatedTimes(x, true, 7) == x.RotateLeft(1)
    ensures RotatedTimes(x, true, 8) == x
    ensures BitOf(x, 7) == 1 <==> x.RotateLeft(1) & 0x01 != 0
  {
  }

  /** Seven left rotations are one right rotation, and eight are none. */
  lemma LeftCycle(x: u8)
    ensures RotatedTimes(x, false, 7) == x.RotateRight(1)
    ensures RotatedTimes(x, false, 8) == x
    ensures BitOf(x, 0) == 1 <==> x.RotateRight(1) & 0x80 != 0
  {
  }

  /**
   * Nine RAL (or RAR) give back the byte and every flag: the nine bits
   * carry:byte go once around.
   */
  lemma CarryRotationsCycle(x: u8, right: bool, flags: AluFlags)
    ensures Rotations(Computed(x, flags), right, true, 9) == Computed(x, flags)
  {
    CarryRotations(Computed(x, flags), right, 9);
    NineBitCycle(Pack(flags.carry, x), right);
    var after := Rotations(Computed(x, flags), right, true, 9);
    PackInjective(after.flags.carry, after.value, flags.carry, x);
  }

  /** Nine one-place rotations give the nine bits carry:byte back. */
  lemma NineBitCycle(p: bv9, right: bool)
    ensures PackRotatedTimes(p, right, 9) == p
  {
    if right {
      RightNineBitCycle(p);
    } else {
      LeftNineBitCycle(p);
    }
  }

  /** PackRotatedTimes peeled from the last rotation. */
  lemma {:induction false} PackRotatedTimesUnfold(p: bv9, right: bool, n: nat)
    requires n > 0
    ensures PackRotatedTimes(p, right, n) == (var r := PackRotatedTimes(p, right, n - 1); if right then r.RotateRight(1) else r.RotateLeft(1))
    decreases n
  {
    if n > 1 {
      PackRotatedTimesUnfold(if right then p.RotateRight(1) else p.RotateLeft(1), right, n - 1);
    }
  }

  /** NineBitCycle to the right: seven rotations are two to the left, and two more undo them. */
  lemma RightNineBitCycle(p: bv9)
    ensures PackRotatedTimes(p, true, 9) == p
  {
    PackRotatedTimesUnfold(p, true, 7);
    var r7 := PackRotatedTimes(p, true, 7);
    assert r7 == p.RotateLeft(2);
    PackRotatedTimesUnfold(p, true, 8);
    PackRotatedTimesUnfold(p, true, 9);
    assert r7.RotateRight(1).RotateRight(1) == p;
  }

  /** NineBitCycle to the left: seven rotations are two to the right, and two more undo them. */
  lemma LeftNineBitCycle(p: bv9)
    ensures PackRotatedTimes(p, false, 9) == p
  {
    PackRotatedTimesUnfold(p, false, 7);
    var r7 := PackRotatedTimes(p, false, 7);
    assert r7 == p.RotateRight(2);
    PackRotatedTimesUnfold(p, false, 8);
    PackRotatedTimesUnfold(p, false, 9);
    assert r7.RotateLeft(1).RotateLeft(1) == p;
  }

  /** The nine bits carry:byte determine the carry and the byte. */
  lemma PackInjective(c: bool, v: u8, c': bool, v': u8)
    requires Pack(c, v) == Pack(c', v')
    ensures c == c' && v == v'
  {
    assert (Pack(c, v) & 0xFF) as u8 == v;
    assert (Pack(c', v') & 0xFF) as u8 == v';
    assert (Pack(c, v) & 0x100 != 0) == c;
    assert (Pack(c', v') & 0x100 != 0) == c';
  }

  /** A byte holding two binary coded decimal digits, each at most 9. */
  predicate IsBcd(x: u8) {
    x >> 4 <= 9 && x & 0xF <= 9
  }

  /** The number from 0 to 99 that the two decimal digits of a byte stand for. */
  function BcdValue(x: u8): int {
    (x >> 4) as int * 10 + (x & 0xF) as int
  }

  /** A byte is sixteen times its high nibble plus its low nibble. */
  lemma Nibbles(x: u8)
    ensures x as int == 16 * (x >> 4) as int + (x & 0xF) as int
    ensures (x & 0xF) as int < 16
  {
  }

  /** ADD of x and y with DAA on the sum, as the decimal adjustment test runs them. */
  function AddAdjusted(x: u8, y: u8, flags: AluFlags): Computed {
    DecimalAdjustResult(AddResult(x, y, false, flags).value, AddResult(x, y, false, flags).flags)
  }

  /**
   * DAA after adding two BCD bytes: the result is BCD, and it holds the two
   * low decimal digits of the decimal sum exactly when the binary sum fits
   * in a byte or the low digits sum to less than 10. Otherwise ADD carried
   * out of the byte and step 1 cleared that carry, so step 2 is skipped and
   * the result is 60 short of those digits.
   */
  lemma DecimalAdjustAfterAdd(a: u8, b: u8, flags: AluFlags)
    requires IsBcd(a) && IsBcd(b)
    ensures IsBcd(AddAdjusted(a, b, flags).value)
    ensures BcdValue(AddAdjusted(a, b, flags).value) == (BcdValue(a) + BcdValue(b)) % 100
            <==> a as int + b as int < 256 || DigitLows(a, b) < 10
    ensures BcdValue(AddAdjusted(a, b, flags).value) != (BcdValue(a) + BcdValue(b)) % 100
            ==> BcdValue(AddAdjusted(a, b, flags).value) == BcdValue(a) + BcdValue(b) - 160
  {
    DecimalSumDigits(a, b);
    if a as int + b as int < 256 {
      AdjustedBinarySum(a, b, flags);
    } else {
      DigitSums(a, b);
      WrappedSumAdjusted(a, b, flags);
      var sum := BcdValue(a) + BcdValue(b);
      HundredsDropped(sum, sum - 100);
    }
  }

  /**
   * CY after DAA on the sum of two BCD bytes: it says the decimal sum
   * reached 100, except when the binary sum is 0xFA or more. There step 1
   * carries out of the byte or replaces the carry of the ADD, and CY ends
   * clear.
   */
  lemma DecimalCarryAfterAdd(a: u8, b: u8, flags: AluFlags)
    requires IsBcd(a) && IsBcd(b)
    ensures AddAdjusted(a, b, flags).flags.carry <==> BcdValue(a) + BcdValue(b) >= 100 && a as int + b as int <= 0xF9
  {
    if a as int + b as int < 256 {
      DecimalSumDigits(a, b);
      DigitRange(a, b);
      SumBelowLimit(a, b);
      AdjustedBinarySum(a, b, flags);
      DecimalCarry(a as int + b as int, DigitHighs(a, b), DigitLows(a, b), AddAdjusted(a, b, flags).flags.carry);
    } else {
      WrappedSumAdjusted(a, b, flags);
    }
  }

  /** The digit sums of two BCD bytes, and their binary sum in terms of them. */
  lemma DigitSums(a: u8, b: u8)
    requires IsBcd(a) && IsBcd(b)
    ensures 0 <= DigitLows(a, b) <= 18 && 0 <= DigitHighs(a, b) <= 18
    ensures a as int + b as int == 16 * DigitHighs(a, b) + DigitLows(a, b)
  {
    Nibbles(a);
    Nibbles(b);
    OrderOfBytes(a & 0xF, 9);
    OrderOfBytes(b & 0xF, 9);
    OrderOfBytes(a >> 4, 9);
    OrderOfBytes(b >> 4, 9);
  }

  /**
   * DAA after an ADD of two BCD bytes that carried out of the byte: CY ends
   * clear, and the digits are those of the decimal sum less 100 when the low
   * digits sum to less than 10, and less 160 otherwise.
   */
  lemma WrappedSumAdjusted(a: u8, b: u8, flags: AluFlags)
    requires IsBcd(a) && IsBcd(b) && a as int + b as int >= 256
    ensures IsBcd(AddAdjusted(a, b, flags).value)
    ensures !AddAdjusted(a, b, flags).flags.carry
    ensures BcdValue(AddAdjusted(a, b, flags).value)
            == 10 * DigitHighs(a, b) + DigitLows(a, b) - (if DigitLows(a, b) < 10 then 100 else 160)
  {
    WrappedDigitsAdded(a, b, flags);
    if DigitLows(a, b) < 10 {
      WrappedLowDigits(AddResult(a, b, false, flags), DigitHighs(a, b), DigitLows(a, b));
    } else {
      WrappedHighDigits(AddResult(a, b, false, flags), DigitHighs(a, b), DigitLows(a, b));
    }
  }

  /**
   * What ADD leaves for two BCD bytes whose high and low digits sum to high
   * and low, when 16 * high + low does not fit in a byte: that sum less 256,
   * CY set, and AC set when low reached 16.
   */
  predicate DigitsWrapped(s: Computed, high: int, low: int) {
    && 0 <= low <= 18 && high <= 18 && 16 * high + low >= 256
    && s.value as int == 16 * high + low - 256 && s.flags.carry
    && (s.flags.auxCarry <==> low >= 16)
  }

  /** The sum of two BCD bytes that carries out of the byte, digit by digit. */
  lemma WrappedDigitsAdded(a: u8, b: u8, flags: AluFlags)
    requires IsBcd(a) && IsBcd(b) && a as int + b as int >= 256
    ensures DigitsWrapped(AddResult(a, b, false, flags), DigitHighs(a, b), DigitLows(a, b))
  {
    DigitSums(a, b);
    AddedValue(a, b, flags);
    SumMeaning(a, b);
    LowNibble(a);
    LowNibble(b);
  }

  /** Low digits below 10: step 1 keeps the byte, and the carry of ADD makes step 2 add 0x60. */
  lemma WrappedLowDigits(s: Computed, high: int, low: int)
    requires DigitsWrapped(s, high, low) && low < 10
    ensures IsBcd(DecimalAdjustResult(s.value, s.flags).value)
    ensures !DecimalAdjustResult(s.value, s.flags).flags.carry
    ensures BcdValue(DecimalAdjustResult(s.value, s.flags).value) == 10 * high + low - 100
  {
    DigitsOf(s.value as int, high - 16, low);
    LowStep(s.value, s.flags);
    HighStep(s);
    SumMeaning(s.value, 0x60);
    SmallMod(s.value as int + 0x60);
    DecimalDigits(Sum(s.value, 0x60).value, high - 10, low);
  }

  /** Low digits of 10 or more: step 1 adds 6 and clears CY, so step 2 keeps the byte. */
  lemma WrappedHighDigits(s: Computed, high: int, low: int)
    requires DigitsWrapped(s, high, low) && low >= 10
    ensures IsBcd(DecimalAdjustResult(s.value, s.flags).value)
    ensures !DecimalAdjustResult(s.value, s.flags).flags.carry
    ensures BcdValue(DecimalAdjustResult(s.value, s.flags).value) == 10 * high + low - 160
  {
    if low < 16 {
      DigitsOf(s.value as int, high - 16, low);
    }
    LowStep(s.value, s.flags);
    var t := Sum(s.value, 6);
    SumMeaning(s.value, 6);
    SmallMod(s.value as int + 6);
    DigitsOf(t.value as int, high - 15, low - 10);
    HighStep(t);
    DecimalDigits(t.value, high - 15, low - 10);
  }

  /** The sum of the high digits of two bytes. */
  function DigitHighs(a: u8, b: u8): int {
    (a >> 4) as int + (b >> 4) as int
  }

  /** The sum of the low digits of two bytes. */
  function DigitLows(a: u8, b: u8): int {
    (a & 0xF) as int + (b & 0xF) as int
  }

  /** The decimal sum of two BCD bytes from their digit sums. */
  lemma DecimalSumDigits(a: u8, b: u8)
    requires IsBcd(a) && IsBcd(b)
    ensures BcdValue(a) + BcdValue(b) == 10 * DigitHighs(a, b) + DigitLows(a, b)
  {
  }

  /** The digit sums of two BCD bytes whose binary sum fits in a byte. */
  lemma DigitRange(a: u8, b: u8)
    requires IsBcd(a) && IsBcd(b) && a as int + b as int < 256
    ensures 0 <= DigitLows(a, b) <= 18 && 0 <= DigitHighs(a, b) && 16 * DigitHighs(a, b) + DigitLows(a, b) < 256
  {
    Nibbles(a);
    Nibbles(b);
    OrderOfBytes(a & 0xF, 9);
    OrderOfBytes(b & 0xF, 9);
  }

  /** The binary sum of two BCD bytes is at most 0xF9 unless step 1 of DAA would carry out of the byte. */
  lemma SumBelowLimit(a: u8, b: u8)
    requires IsBcd(a) && IsBcd(b) && a as int + b as int < 256
    ensures a as int + b as int <= 0xF9 <==> DigitLows(a, b) < 10 || DigitHighs(a, b) + 1 < 16
  {
    DigitRange(a, b);
    Nibbles(a);
    Nibbles(b);
    LimitDigits(a as int + b as int, DigitHighs(a, b), DigitLows(a, b));
  }

  /** A binary sum 16 * high + low below 256, low up to 18, against 0xF9. */
  lemma LimitDigits(n: int, high: int, low: int)
    requires 0 <= low <= 18 && 0 <= high && n == 16 * high + low && n < 256
    ensures n <= 0xF9 <==> low < 10 || high + 1 < 16
  {
  }

  /** CY after DAA against the decimal sum 10 * high + low and the binary sum n. */
  lemma DecimalCarry(n: int, high: int, low: int, carry: bool)
    requires 0 <= low <= 18 && 0 <= high
    requires n <= 0xF9 <==> low < 10 || high + 1 < 16
    requires carry <==> if low >= 10 then 10 <= high + 1 < 16 else 10 <= high
    ensures carry <==> 10 * high + low >= 100 && n <= 0xF9
  {
  }

  /** DAA on the binary sum of two BCD bytes, in terms of their digit sums. */
  lemma AdjustedBinarySum(a: u8, b: u8, flags: AluFlags)
    requires IsBcd(a) && IsBcd(b) && a as int + b as int < 256
    ensures IsBcd(AddAdjusted(a, b, flags).value)
    ensures BcdValue(AddAdjusted(a, b, flags).value) == (10 * DigitHighs(a, b) + DigitLows(a, b)) % 100
    ensures AddAdjusted(a, b, flags).flags.carry
            <==> if DigitLows(a, b) >= 10 then 10 <= DigitHighs(a, b) + 1 < 16 else 10 <= DigitHighs(a, b)
  {
    AddedDigits(a, b, flags);
    AdjustedSum(AddResult(a, b, false, flags), DigitHighs(a, b), DigitLows(a, b));
  }

  /**
   * What ADD leaves for two BCD bytes whose high and low digits sum to high
   * and low: the byte 16 * high + low, CY clear, and AC set when low
   * reached 16.
   */
  predicate DigitsAdded(s: Computed, high: int, low: int) {
    && 0 <= low <= 18 && 0 <= high && 16 * high + low < 256
    && s.value as int == 16 * high + low && !s.flags.carry
    && (s.flags.auxCarry <==> low >= 16)
  }

  /**
   * DAA on the byte 16 * high + low that an ADD of two BCD bytes left
   * (low up to 18, CY clear, AC set when low reached 16): the decimal digits
   * of 10 * high + low modulo 100, and CY set when step 2 carried out.
   */
  lemma AdjustedSum(s: Computed, high: int, low: int)
    requires DigitsAdded(s, high, low)
    ensures IsBcd(DecimalAdjustResult(s.value, s.flags).value)
    ensures BcdValue(DecimalAdjustResult(s.value, s.flags).value) == (10 * high + low) % 100
    ensures DecimalAdjustResult(s.value, s.flags).flags.carry <==> if low >= 10 then 10 <= high + 1 < 16 else 10 <= high
  {
    var t := LowAdjustment(s.value, s.flags);
    if low >= 10 {
      LowStepAdds(s, high, low);
      AddedSix(s.value, high, low);
      AdjustedDigits(t, high + 1, low - 10);
    } else {
      LowStepKeeps(s, high, low);
      AdjustedDigits(t, high, low);
    }
  }

  /** 6 added to the byte 16 * high + low with low from 10 to 18 moves ten units into high. */
  lemma AddedSix(x: u8, high: int, low: int)
    requires 10 <= low <= 18 && 0 <= high && x as int == 16 * high + low
    ensures Sum(x, 6).value as int == if high + 1 < 16 then 16 * (high + 1) + low - 10 else low - 10
    ensures Sum(x, 6).flags.carry <==> high + 1 == 16
  {
    SumMeaning(x, 6);
    var n := x as int + 6;
    if high + 1 < 16 {
      SmallMod(n);
    } else {
      WrapMod(n);
    }
  }

  /** Step 2 of DAA on a byte 16 * high + low leaves the decimal digits of 10 * high + low modulo 100. */
  lemma AdjustedDigits(t: Computed, high: int, low: int)
    requires 0 <= low <= 9 && 0 <= high <= 16
    requires t.value as int == (if high < 16 then 16 * high + low else low)
    requires t.flags.carry <==> high == 16
    ensures IsBcd(HighAdjustment(t).value)
    ensures BcdValue(HighAdjustment(t).value) == (10 * high + low) % 100
    ensures HighAdjustment(t).flags.carry <==> 10 <= high < 16
  {
    if high > 9 {
      HighStepAdds(t, high, low);
      AddedSixty(t.value, high, low);
      DecimalDigits(HighAdjustment(t).value, high - 10, low);
      HundredsDropped(10 * high + low, 10 * (high - 10) + low);
    } else {
      HighStepKeeps(t, high, low);
      DecimalDigits(HighAdjustment(t).value, high, low);
      HundredsDropped(10 * high + low, 10 * high + low);
    }
  }

  /** A value below 200 that is r or r + 100 leaves r modulo 100. */
  lemma HundredsDropped(n: int, r: int)
    requires 0 <= r < 100 && (n == r || n == r + 100)
    ensures n % 100 == r
  {
  }

  /** The sum of two bytes without the carry, with its value and CY in unbounded arithmetic. */
  lemma AddedValue(x: u8, y: u8, flags: AluFlags)
    ensures AddResult(x, y, false, flags) == Sum(x, y)
    ensures x as int + y as int < 256 ==> Sum(x, y).value as int == x as int + y as int
    ensures x as int + y as int >= 256 ==> Sum(x, y).value as int == x as int + y as int - 256
    ensures Sum(x, y).flags.carry <==> x as int + y as int >= 256
  {
    var n := x as int + y as int;
    SumMeaning(x, y);
    if n < 256 {
      SmallMod(n);
    } else {
      WrapMod(n);
    }
  }

  /** 0x60 added to the byte 16 * high + low (just low once high reached 16) takes ten from high. */
  lemma AddedSixty(x: u8, high: int, low: int)
    requires 0 <= low <= 9 && 9 < high <= 16
    requires x as int == (if high < 16 then 16 * high + low else low)
    ensures Sum(x, 0x60).value as int == 16 * (high - 10) + low
    ensures Sum(x, 0x60).flags.carry <==> high < 16
  {
    SumMeaning(x, 0x60);
    var n := x as int + 0x60;
    if high < 16 {
      WrapMod(n);
    } else {
      SmallMod(n);
    }
  }

  /** Between 256 and 511, the remainder modulo 256 drops one 256. */
  lemma WrapMod(n: int)
    requires 256 <= n < 512
    ensures n % 256 == n - 256
  {
  }

  /** The sum of two BCD bytes, digit by digit: CY is clear and AC says the low digits reach 16. */
  lemma AddedDigits(a: u8, b: u8, flags: AluFlags)
    requires IsBcd(a) && IsBcd(b) && a as int + b as int < 256
    ensures DigitsAdded(AddResult(a, b, false, flags), DigitHighs(a, b), DigitLows(a, b))
  {
    DigitRange(a, b);
    AddedValue(a, b, flags);
    SumMeaning(a, b);
    Nibbles(a);
    Nibbles(b);
    LowNibble(a);
    LowNibble(b);
  }

  /** Step 1 of DAA adds 6 to a byte 16 * high + low when low is 10 or more. */
  lemma LowStepAdds(s: Computed, high: int, low: int)
    requires 10 <= low <= 18 && 0 <= high && s.value as int == 16 * high + low
    requires s.flags.auxCarry <==> low >= 16
    ensures LowAdjustment(s.value, s.flags) == Sum(s.value, 6)
  {
    DigitsOf(s.value as int, high, low);
    DecimalAdjustSteps(s.value, s.flags);
    assert LowAdjust(s.value, s.flags);
  }

  /** Step 1 of DAA leaves a byte 16 * high + low alone when low is below 10 and AC is clear. */
  lemma LowStepKeeps(s: Computed, high: int, low: int)
    requires 0 <= low < 10 && 0 <= high && s.value as int == 16 * high + low && !s.flags.auxCarry
    ensures LowAdjustment(s.value, s.flags) == s
  {
    DigitsOf(s.value as int, high, low);
    DecimalAdjustSteps(s.value, s.flags);
    assert !LowAdjust(s.value, s.flags);
  }

  /** The base-16 digits of 16 * high + low, low up to 18. */
  lemma DigitsOf(n: int, high: int, low: int)
    requires 0 <= low <= 18 && 0 <= high && n == 16 * high + low
    ensures low < 16 ==> n % 16 == low && n / 16 == high
    ensures low >= 16 ==> n % 16 == low - 16 && n / 16 == high + 1
  {
  }

  /** Step 2 of DAA adds 0x60 to the byte 16 * high + low when high exceeds 9 (or carried out, at 16). */
  lemma HighStepAdds(t: Computed, high: int, low: int)
    requires 0 <= low <= 9 && 9 < high <= 16
    requires t.value as int == (if high < 16 then 16 * high + low else low)
    requires t.flags.carry <==> high == 16
    ensures HighAdjustment(t) == Sum(t.value, 0x60)
  {
    DigitsOf(t.value as int, if high < 16 then high else 0, low);
    DecimalAdjustSteps(t.value, t.flags);
    assert HighAdjust(t.value, t.flags);
  }

  /** Step 2 of DAA leaves the byte 16 * high + low alone when high is at most 9 and CY is clear. */
  lemma HighStepKeeps(t: Computed, high: int, low: int)
    requires 0 <= low <= 9 && 0 <= high <= 9
    requires t.value as int == 16 * high + low && !t.flags.carry
    ensures HighAdjustment(t) == t
  {
    DigitsOf(t.value as int, high, low);
    DecimalAdjustSteps(t.value, t.flags);
    assert !HighAdjust(t.value, t.flags);
  }

  /** A byte 16 * high + low with two decimal digits is BCD, and stands for 10 * high + low. */
  lemma DecimalDigits(x: u8, high: int, low: int)
    requires 0 <= high <= 9 && 0 <= low <= 9 && x as int == 16 * high + low
    ensures IsBcd(x) && BcdValue(x) == 10 * high + low
  {
    Nibbles(x);
    SameDigits(x as int, (x >> 4) as int, (x & 0xF) as int, high, low);
    OrderOfBytes(x >> 4, 9);
    OrderOfBytes(x & 0xF, 9);
  }

  /** Base-16 digits are unique. */
  lemma SameDigits(n: int, high: int, low: int, high': int, low': int)
    requires n == 16 * high + low == 16 * high' + low'
    requires 0 <= low < 16 && 0 <= low' < 16
    ensures high == high' && low == low'
  {
  }

  /** The three sums of the decimal adjustment test, each followed by DAA. */
  lemma DecimalAdjustExamples(flags: AluFlags)
    ensures AddAdjusted(0x05, 0x03, flags) == Computed(0x08, AluFlags(false, false, false, false, false))
    ensures AddAdjusted(0x15, 0x27, flags) == Computed(0x42, AluFlags(false, false, true, false, true))
    ensures AddAdjusted(0x99, 0x01, flags) == Computed(0x00, AluFlags(true, false, true, true, false))
  {
  }

  /**
   * DAA after a BCD sum that does not fit in a byte: 0x99 + 0x99 (decimal
   * 198) leaves 0x38 with CY clear, where decimal arithmetic gives 98 and a
   * carry, because step 1 replaces the carry of the ADD by its own.
   */
  lemma DecimalAdjustLosesCarry(flags: AluFlags)
    ensures AddResult(0x99, 0x99, false, flags).flags.carry
    ensures AddAdjusted(0x99, 0x99, flags).value == 0x38
    ensures !AddAdjusted(0x99, 0x99, flags).flags.carry
  {
  }

  /**
   * DAA after 0x99 + 0x61 (decimal 160, binary 0xFA): the digits 60 are
   * right but CY ends clear, since step 1 carries out of the byte and
   * step 2 then replaces that carry by its own.
   */
  lemma DecimalAdjustCarryOutOfStep1(flags: AluFlags)
    ensures AddAdjusted(0x99, 0x61, flags).value == 0x60
    ensures !AddAdjusted(0x99, 0x61, flags).flags.carry
  {
  }

  /**
   * ADC of 0xFF with CY set: the operand wraps to 0 before the addition,
   * so the sum 1 + 0xFF + 1 = 0x101 leaves 0x01 with CY clear.
   */
  lemma AddCarryOfFullByte(flags: AluFlags)
    ensures AddResult(0x01, 0xFF, true, flags.(carry := true)) == Computed(0x01, AluFlags(false, false, false, false, false))
  {
  }

  /**
   * SBB of 0xFF with CY set: the operand wraps to 0 before the
   * subtraction, so 1 - 0xFF - 1 leaves 0x01 with no borrow.
   */
  lemma SubBorrowOfFullByte(flags: AluFlags)
    ensures SubResult(0x01, 0xFF, true, flags.(carry := true)) == Computed(0x01, AluFlags(false, false, false, false, false))
  {
  }
}
