/**
 * The arithmetic and logic unit of the CPU (src/cpu/alu.rs): an accumulator
 * and the five flags zero, sign, parity (even), carry and auxiliary carry.
 *
 * Each flag-setting helper of the source appears twice: as a function on
 * values (AddResult, SubResult, ...), whose contract states what the
 * result and the flags mean, and as a method of the class Alu that updates
 * the flags as the source does (add and sub assign the five flags at once
 * from the function's value), proved equal to the function.
 */
module CpuAlu {
  import opened Binary
  import opened Results
  import opened Registers
  import Instructions

  datatype AluFlags = AluFlags(zero: bool, sign: bool, parity: bool, carry: bool, auxCarry: bool)

  /** AluFlags::new: every flag clear.  AluFlags::from_bools is the constructor itself. */
  const ClearedFlags := AluFlags(false, false, false, false, false)

  /** AluFlags::evaluate_condition: each condition is one flag or its negation. */
  function EvaluateCondition(flags: AluFlags, condition: Instructions.InstructionCondition): bool {
    match condition
    case NotZero => !flags.zero
    case Zero => flags.zero
    case NoCarry => !flags.carry
    case Carry => flags.carry
    case ParityOdd => !flags.parity
    case ParityEven => flags.parity
    case Plus => !flags.sign
    case Minus => flags.sign
  }

  /** The operation evaluate runs, with its operands. */
  datatype AluOperation =
    | Add(a: RegisterValue, b: RegisterValue)
    | AddCarry(a: RegisterValue, b: RegisterValue)
    | Sub(a: RegisterValue, b: RegisterValue)
    | SubBorrow(a: RegisterValue, b: RegisterValue)
    | Increment(a: RegisterValue)
    | Decrement(a: RegisterValue)
    | DecimalAdjust(a: RegisterValue)
    | BitwiseAnd(a: RegisterValue, b: RegisterValue)
    | BitwiseXor(a: RegisterValue, b: RegisterValue)
    | BitwiseOr(a: RegisterValue, b: RegisterValue)
    | Comparison(a: RegisterValue, b: RegisterValue)
    | RotateLeft(a: RegisterValue)
    | RotateRight(a: RegisterValue)
    | RotateLeftThroughCarry(a: RegisterValue)
    | RotateRightThroughCarry(a: RegisterValue)
    | Complement(a: RegisterValue)
    | SetCarry
    | ComplementCarry
  {
    /** The operations whose two operands are converted with try_into. */
    predicate IsBinary() {
      Add? || AddCarry? || Sub? || SubBorrow? || BitwiseAnd? || BitwiseXor? || BitwiseOr? || Comparison?
    }

    /** The operations with one operand, kept as a byte or widened to a word. */
    predicate IsUnary() {
      Increment? || Decrement? || DecimalAdjust? || RotateLeft? || RotateRight?
      || RotateLeftThroughCarry? || RotateRightThroughCarry? || Complement?
    }
  }

  /** A byte result together with the flags it leaves. */
  datatype Computed = Computed(value: u8, flags: AluFlags)

  /** The zero, sign and parity flags as every flag-setting operation computes them from its result. */
  predicate ResultFlags(r: u8, flags: AluFlags) {
    flags.zero == (r == 0) && flags.sign == (r as int >= 128) && flags.parity == EvenParity(r)
  }

  /** The second operand after ADC and SBB add the carry to it, wrapping. */
  function CarriedOperand(y: u8, useCarry: bool, carry: bool): u8 {
    if useCarry then y + (if carry then 1 else 0) else y
  }

  /** The carried operand in unbounded arithmetic: y, or y + 1 modulo 256 when the carry is used and set. */
  lemma CarriedOperandValue(y: u8, useCarry: bool, carry: bool)
    ensures CarriedOperand(y, useCarry, carry) as int == if useCarry && carry then (y as int + 1) % 256 else y as int
  {
    AddMod8(y, 1);
  }

  /**
   * The flags every flag-setting operation leaves: zero, sign and parity
   * tested on the result as the source tests them, with the given carry and
   * auxiliary carry.
   */
  function FlagsOf(result: u8, carry: bool, auxCarry: bool): AluFlags {
    AluFlags(zero := result == 0, sign := result & 0x80 != 0, parity := CountOnes(result) % 2 == 0,
             carry := carry, auxCarry := auxCarry)
  }

  /** The zero, sign and parity flags as FlagsOf tests them mean what ResultFlags says. */
  lemma FlagsOfMeaning(result: u8, carry: bool, auxCarry: bool)
    ensures ResultFlags(result, FlagsOf(result, carry, auxCarry))
  {
    SignBit(result);
  }

  /** The auxiliary carry of `add`, tested on bit 4 of the sum of the low nibbles. */
  function NibbleSumCarry(x: u8, y: u8): bool {
    ((x & 0xF) + (y & 0xF)) & 0x10 > 0
  }

  /** The auxiliary carry of `sub`: the checked difference of the low nibbles is absent. */
  function NibbleBorrowOut(x: u8, y: u8): bool {
    CheckedSub(x & 0xF, y & 0xF).None?
  }

  /** The wrapping sum of x and an already carried operand, with its flags. */
  function Sum(x: u8, y: u8): Computed {
    Computed(x + y, FlagsOf(x + y, CheckedAdd(x, y).None?, NibbleSumCarry(x, y)))
  }

  /** The wrapping difference of x and an already carried operand, with its flags. */
  function Difference(x: u8, y: u8): Computed {
    Computed(x - y, FlagsOf(x - y, CheckedSub(x, y).None?, NibbleBorrowOut(x, y)))
  }

  /** `add`. */
  function AddResult(x: u8, y: u8, useCarry: bool, flags: AluFlags): Computed {
    Sum(x, CarriedOperand(y, useCarry, flags.carry))
  }

  /** `sub`. */
  function SubResult(x: u8, y: u8, useCarry: bool, flags: AluFlags): Computed {
    Difference(x, CarriedOperand(y, useCarry, flags.carry))
  }

  /**
   * A sum in unbounded arithmetic: the value is x + y modulo 256, the carry
   * says x + y exceeds 255 and the auxiliary carry says the low nibbles sum
   * to 16 or more.
   */
  lemma SumMeaning(x: u8, y: u8)
    ensures Sum(x, y).value as int == (x as int + y as int) % 256
    ensures ResultFlags(Sum(x, y).value, Sum(x, y).flags)
    ensures Sum(x, y).flags.carry <==> x as int + y as int > 255
    ensures Sum(x, y).flags.auxCarry <==> x as int % 16 + y as int % 16 >= 16
  {
    AddMod8(x, y);
    FlagsOfMeaning(x + y, CheckedAdd(x, y).None?, NibbleSumCarry(x, y));
    CheckedAddMeaning(x, y);
    NibbleCarry(x, y);
  }

  /**
   * A difference in unbounded arithmetic: the value is x - y modulo 256, the
   * carry (borrow) says y exceeds x and the auxiliary carry says the low
   * nibble of y exceeds that of x.
   */
  lemma DifferenceMeaning(x: u8, y: u8)
    ensures Difference(x, y).value as int == (x as int - y as int) % 256
    ensures ResultFlags(Difference(x, y).value, Difference(x, y).flags)
    ensures Difference(x, y).flags.carry <==> y as int > x as int
    ensures Difference(x, y).flags.auxCarry <==> y as int % 16 > x as int % 16
  {
    SubMod8(x, y);
    FlagsOfMeaning(x - y, CheckedSub(x, y).None?, NibbleBorrowOut(x, y));
    CheckedSubMeaning(x, y);
    NibbleBorrow(x, y);
  }

  /**
   * `inc_dec`: add or subtract 1 as add and sub do, then put the carry
   * back as it was.
   */
  function IncDecResult(x: u8, increment: bool, flags: AluFlags): Computed {
    KeepCarry(if increment then AddResult(x, 1, false, flags) else SubResult(x, 1, false, flags), flags.carry)
  }

  function KeepCarry(c: Computed, carry: bool): Computed {
    Computed(c.value, c.flags.(carry := carry))
  }

  /**
   * INR and DCR: the byte goes up or down by one modulo 256, the carry is
   * kept, and the auxiliary carry says the low nibble wrapped.
   */
  lemma IncDecMeaning(x: u8, increment: bool, flags: AluFlags)
    ensures IncDecResult(x, increment, flags).value as int
              == if increment then (x as int + 1) % 256 else (x as int - 1) % 256
    ensures ResultFlags(IncDecResult(x, increment, flags).value, IncDecResult(x, increment, flags).flags)
    ensures IncDecResult(x, increment, flags).flags.carry == flags.carry
    ensures IncDecResult(x, increment, flags).flags.auxCarry
            <==> if increment then x as int % 16 == 15 else x as int % 16 == 0
  {
    if increment {
      SumMeaning(x, 1);
    } else {
      DifferenceMeaning(x, 1);
    }
  }

  /** `inc_dec16`: wrapping increment or decrement of a word. */
  function IncDec16(x: u16, increment: bool): u16 {
    if increment then x + 1 else x - 1
  }

  /** INX and DCX wrap around at 0xFFFF and 0. */
  lemma IncDec16Meaning(x: u16, increment: bool)
    ensures increment ==> IncDec16(x, increment) as int == if x as int == 0xFFFF then 0 else x as int + 1
    ensures !increment ==> IncDec16(x, increment) as int == if x as int == 0 then 0xFFFF else x as int - 1
  {
    Increment16(x);
    Decrement16(x);
  }

  /** Step 1 of `decimal_adjust`: add 6 when the low nibble is above 9 or the auxiliary carry is set. */
  function LowAdjustment(x: u8, flags: AluFlags): Computed {
    if x & 0xF > 9 || flags.auxCarry then AddResult(x, 6, false, flags) else Computed(x, flags)
  }

  /** Step 2 of `decimal_adjust`: add 0x60 when the high nibble is above 9 or the carry is set. */
  function HighAdjustment(c: Computed): Computed {
    if (c.value & 0xF0) >> 4 > 9 || c.flags.carry then AddResult(c.value, 0x60, false, c.flags) else c
  }

  /** `decimal_adjust`: step 2 applied to the value and the flags step 1 left. */
  function DecimalAdjustResult(x: u8, flags: AluFlags): Computed {
    HighAdjustment(LowAdjustment(x, flags))
  }

  /** Step 1 of DAA applies: the low nibble is above 9 or the auxiliary carry is set. */
  predicate LowAdjust(x: u8, flags: AluFlags) {
    x as int % 16 > 9 || flags.auxCarry
  }

  /** Step 2 of DAA applies: the high nibble is above 9 or the carry is set. */
  predicate HighAdjust(x: u8, flags: AluFlags) {
    x as int / 16 > 9 || flags.carry
  }

  /** The two steps of DAA, with the nibble tests in unbounded arithmetic. */
  lemma DecimalAdjustSteps(x: u8, flags: AluFlags)
    ensures LowAdjustment(x, flags) == if LowAdjust(x, flags) then Sum(x, 6) else Computed(x, flags)
    ensures forall c :: HighAdjustment(c) == if HighAdjust(c.value, c.flags) then Sum(c.value, 0x60) else c
  {
    LowStep(x, flags);
    forall c: Computed
      ensures HighAdjustment(c) == if HighAdjust(c.value, c.flags) then Sum(c.value, 0x60) else c
    {
      HighStep(c);
    }
  }

  /** Step 1 of DAA, with its nibble test in unbounded arithmetic. */
  lemma LowStep(x: u8, flags: AluFlags)
    ensures LowAdjustment(x, flags) == if LowAdjust(x, flags) then Sum(x, 6) else Computed(x, flags)
  {
    LowNibbleAboveNine(x);
  }

  /** Step 2 of DAA, with its nibble test in unbounded arithmetic. */
  lemma HighStep(c: Computed)
    ensures HighAdjustment(c) == if HighAdjust(c.value, c.flags) then Sum(c.value, 0x60) else c
  {
    HighNibbleAboveNine(c.value);
  }

  /** The flags of `bitwise_and`, `bitwise_xor` and `bitwise_or`: carry and auxiliary carry cleared. */
  function LogicFlags(result: u8): AluFlags {
    FlagsOf(result, false, false)
  }

  /** `bitwise_and`. */
  function AndResult(x: u8, y: u8): Computed {
    Computed(x & y, LogicFlags(x & y))
  }

  /** `bitwise_xor`. */
  function XorResult(x: u8, y: u8): Computed {
    Computed(x ^ y, LogicFlags(x ^ y))
  }

  /** `bitwise_or`. */
  function OrResult(x: u8, y: u8): Computed {
    Computed(x | y, LogicFlags(x | y))
  }

  /** The logic operations clear the carry and the auxiliary carry and set zero, sign and parity from the result. */
  lemma LogicFlagsMeaning(result: u8)
    ensures ResultFlags(result, LogicFlags(result))
    ensures !LogicFlags(result).carry && !LogicFlags(result).auxCarry
  {
    FlagsOfMeaning(result, false, false);
  }

  /** ANA acts bit by bit: each bit of the result is the AND of the operands' bits. */
  lemma AndBits(x: u8, y: u8)
    ensures forall i :: 0 <= i < 8 ==> BitOf(AndResult(x, y).value, i) == BitOf(x, i) & BitOf(y, i)
  {
    forall i | 0 <= i < 8
      ensures BitOf(x & y, i) == BitOf(x, i) & BitOf(y, i)
    {
      if i == 0 {} else if i == 1 {} else if i == 2 {} else if i == 3 {}
      else if i == 4 {} else if i == 5 {} else if i == 6 {} else {}
    }
  }

  /** XRA acts bit by bit: each bit of the result is the XOR of the operands' bits. */
  lemma XorBits(x: u8, y: u8)
    ensures forall i :: 0 <= i < 8 ==> BitOf(XorResult(x, y).value, i) == BitOf(x, i) ^ BitOf(y, i)
  {
    forall i | 0 <= i < 8
      ensures BitOf(x ^ y, i) == BitOf(x, i) ^ BitOf(y, i)
    {
      if i == 0 {} else if i == 1 {} else if i == 2 {} else if i == 3 {}
      else if i == 4 {} else if i == 5 {} else if i == 6 {} else {}
    }
  }

  /** ORA acts bit by bit: each bit of the result is the OR of the operands' bits. */
  lemma OrBits(x: u8, y: u8)
    ensures forall i :: 0 <= i < 8 ==> BitOf(OrResult(x, y).value, i) == BitOf(x, i) | BitOf(y, i)
  {
    forall i | 0 <= i < 8
      ensures BitOf(x | y, i) == BitOf(x, i) | BitOf(y, i)
    {
      if i == 0 {} else if i == 1 {} else if i == 2 {} else if i == 3 {}
      else if i == 4 {} else if i == 5 {} else if i == 6 {} else {}
    }
  }

  /** The nine bits carry:value, the carry above bit 7. */
  function Pack(carry: bool, value: u8): bv9 {
    (if carry then 0x100 else 0) | (value as bv9)
  }

  /** The bit `rotate` moves into the carry: bit 0 when rotating right, bit 7 when rotating left. */
  function CarryOut(x: u8, right: bool): bool {
    if right then x & 0x01 != 0 else x & 0x80 != 0
  }

  /** The byte `rotate` leaves: a plain rotation, with the vacated bit replaced by the old carry when rotating through carry. */
  function Rotated(x: u8, right: bool, throughCarry: bool, carry: bool): u8 {
    if !throughCarry then (if right then x.RotateRight(1) else x.RotateLeft(1))
    else if right then (x.RotateRight(1) & 0x7F) | ((if carry then 1 else 0) << 7)
    else (x.RotateLeft(1) & 0xFE) | (if carry then 1 else 0)
  }

  /** `rotate`: only the carry flag changes. */
  function RotateResult(x: u8, right: bool, throughCarry: bool, flags: AluFlags): Computed {
    Computed(Rotated(x, right, throughCarry, flags.carry), flags.(carry := CarryOut(x, right)))
  }

  /**
   * RLC and RRC rotate the byte and copy the bit shifted out into the carry;
   * RAL and RAR rotate the nine bits carry:byte by one place.  No other flag
   * changes.
   */
  lemma RotateMeaning(x: u8, right: bool, throughCarry: bool, flags: AluFlags)
    ensures RotateResult(x, right, throughCarry, flags).flags
              == flags.(carry := if right then BitOf(x, 0) == 1 else BitOf(x, 7) == 1)
    ensures !throughCarry ==>
              RotateResult(x, right, throughCarry, flags).value == if right then x.RotateRight(1) else x.RotateLeft(1)
    ensures throughCarry ==>
              Pack(RotateResult(x, right, throughCarry, flags).flags.carry, RotateResult(x, right, throughCarry, flags).value)
                == if right then Pack(flags.carry, x).RotateRight(1) else Pack(flags.carry, x).RotateLeft(1)
  {
    RotationBits(x, flags.carry);
  }

  lemma RotationBits(x: u8, c: bool)
    ensures (x & 0x01 != 0) == (BitOf(x, 0) == 1) && (x & 0x80 != 0) == (BitOf(x, 7) == 1)
    ensures Pack(x & 0x01 != 0, (x.RotateRight(1) & 0x7F) | ((if c then 1 else 0) << 7)) == Pack(c, x).RotateRight(1)
    ensures Pack(x & 0x80 != 0, (x.RotateLeft(1) & 0xFE) | (if c then 1 else 0)) == Pack(c, x).RotateLeft(1)
  {
  }

  /** `complement`: bitwise NOT, which is 255 minus the byte. */
  function ComplementResult(x: u8): (r: u8)
    ensures r as int == 255 - x as int
    ensures forall i :: 0 <= i < 8 ==> BitOf(r, i) == 1 - BitOf(x, i)
  {
    NotIsComplement8(x);
    ComplementBits(x);
    !x
  }

  lemma ComplementBits(x: u8)
    ensures BitOf(!x, 0) == 1 - BitOf(x, 0) && BitOf(!x, 1) == 1 - BitOf(x, 1)
    ensures BitOf(!x, 2) == 1 - BitOf(x, 2) && BitOf(!x, 3) == 1 - BitOf(x, 3)
    ensures BitOf(!x, 4) == 1 - BitOf(x, 4) && BitOf(!x, 5) == 1 - BitOf(x, 5)
    ensures BitOf(!x, 6) == 1 - BitOf(x, 6) && BitOf(!x, 7) == 1 - BitOf(x, 7)
  {
  }

  /** What evaluate returns and the flags it leaves. */
  datatype Evaluation = Evaluation(result: Option<RegisterValue>, flags: AluFlags)

  /** A byte result that evaluate stores in the accumulator. */
  function Produced(c: Computed): Result<Evaluation> {
    Ok(Evaluation(Some(Integer8(c.value)), c.flags))
  }

  /** A two-operand operation on its converted byte operands. */
  function BinaryEvaluated(operation: AluOperation, x: u8, y: u8, flags: AluFlags): Result<Evaluation>
    requires operation.IsBinary()
  {
    if operation.Add? then Produced(AddResult(x, y, false, flags))
    else if operation.AddCarry? then Produced(AddResult(x, y, true, flags))
    else if operation.Sub? then Produced(SubResult(x, y, false, flags))
    else if operation.SubBorrow? then Produced(SubResult(x, y, true, flags))
    else if operation.BitwiseAnd? then Produced(AndResult(x, y))
    else if operation.BitwiseXor? then Produced(XorResult(x, y))
    else if operation.BitwiseOr? then Produced(OrResult(x, y))
    else Ok(Evaluation(None, SubResult(x, y, false, flags).flags))
  }

  /** A one-operand operation on a byte operand. */
  function ByteEvaluated(operation: AluOperation, x: u8, flags: AluFlags): Result<Evaluation>
    requires operation.IsUnary()
  {
    if operation.Increment? then Produced(IncDecResult(x, true, flags))
    else if operation.Decrement? then Produced(IncDecResult(x, false, flags))
    else if operation.DecimalAdjust? then Produced(DecimalAdjustResult(x, flags))
    else if operation.RotateLeft? then Produced(RotateResult(x, false, false, flags))
    else if operation.RotateRight? then Produced(RotateResult(x, true, false, flags))
    else if operation.RotateLeftThroughCarry? then Produced(RotateResult(x, false, true, flags))
    else if operation.RotateRightThroughCarry? then Produced(RotateResult(x, true, true, flags))
    else Ok(Evaluation(Some(Integer8(ComplementResult(x))), flags))
  }

  /**
   * A one-operand operation on a pair or a 16-bit value, widened to u16: only
   * increment and decrement have a 16-bit form; the others unwrap a byte
   * that is not there.
   */
  function WordEvaluated(operation: AluOperation, x16: u16, flags: AluFlags): Result<Evaluation>
    requires operation.IsUnary()
  {
    if operation.Increment? then Ok(Evaluation(Some(Integer16(IncDec16(x16, true))), flags))
    else if operation.Decrement? then Ok(Evaluation(Some(Integer16(IncDec16(x16, false))), flags))
    else Err(Panic)
  }

  /**
   * evaluate on values: a two-operand operation fails unless both operands
   * are bytes; DecimalAdjust, the rotations and Complement fail on a wide
   * operand; Comparison, SetCarry and ComplementCarry produce no result.
   */
  function Evaluated(operation: AluOperation, flags: AluFlags): Result<Evaluation> {
    if operation.IsBinary() then
      if !operation.a.Integer8? || !operation.b.Integer8? then Err(WidthMismatch)
      else BinaryEvaluated(operation, operation.a.byte, operation.b.byte, flags)
    else if operation.IsUnary() then
      if operation.a.Integer8? then ByteEvaluated(operation, operation.a.byte, flags)
      else WordEvaluated(operation, ToU16(operation.a), flags)
    else if operation.SetCarry? then Ok(Evaluation(None, flags.(carry := true)))
    else Ok(Evaluation(None, flags.(carry := !flags.carry)))
  }

  class Alu {
    var accumulator: RegisterValue
    var flags: AluFlags

    /** new: the accumulator holds the byte 0 and every flag is clear. */
    constructor ()
      ensures accumulator == Integer8(0) && flags == ClearedFlags
    {
      accumulator := Integer8(0);
      flags := ClearedFlags;
    }

    /** write_accumulator: only a one-byte value is accepted. */
    method WriteAccumulator(value: RegisterValue) returns (r: Result<()>)
      modifies this`accumulator
      ensures value.NBytes() != 1 ==> r == Err(WidthMismatch) && accumulator == old(accumulator)
      ensures value.NBytes() == 1 ==> r == Ok(()) && accumulator == value
    {
      if value.NBytes() != 1 {
        return Err(WidthMismatch);
      }
      accumulator := value;
      r := Ok(());
    }

    /** `add`: the new flags are those AddResult computes from the old ones. */
    method Add(x: u8, y: u8, useCarry: bool) returns (result: u8)
      modifies this`flags
      ensures Computed(result, flags) == AddResult(x, y, useCarry, old(flags))
    {
      var computed := AddResult(x, y, useCarry, flags);
      flags := computed.flags;
      result := computed.value;
    }

    /** `sub`: the new flags are those SubResult computes from the old ones. */
    method Sub(x: u8, y: u8, useCarry: bool) returns (result: u8)
      modifies this`flags
      ensures Computed(result, flags) == SubResult(x, y, useCarry, old(flags))
    {
      var computed := SubResult(x, y, useCarry, flags);
      flags := computed.flags;
      result := computed.value;
    }

    /** `inc_dec`: an ADD or SUB of 1 whose carry is then put back as it was. */
    method IncDec(x: u8, increment: bool) returns (result: u8)
      modifies this`flags
      ensures Computed(result, flags) == IncDecResult(x, increment, old(flags))
    {
      var carryFlagCopy := flags.carry;
      if increment {
        result := this.Add(x, 1, false);
      } else {
        result := this.Sub(x, 1, false);
      }
      flags := flags.(carry := carryFlagCopy);
    }

    /** `decimal_adjust`: adds 6 when the low nibble needs it, then 0x60 when the high one does. */
    method DecimalAdjust(x: u8) returns (result: u8)
      modifies this`flags
      ensures Computed(result, flags) == DecimalAdjustResult(x, old(flags))
    {
      result := x;
      var lowerBits := result & 0xF;
      if lowerBits > 9 || flags.auxCarry {
        result := this.Add(result, 6, false);
      }
      var higherBits := (result & 0xF0) >> 4;
      if higherBits > 9 || flags.carry {
        result := this.Add(result, 0x60, false);
      }
    }

    /** `bitwise_and`: the flags are assigned one by one from the result. */
    method BitwiseAnd(x: u8, y: u8) returns (result: u8)
      modifies this`flags
      ensures Computed(result, flags) == AndResult(x, y)
    {
      result := x & y;
      flags := flags.(zero := result == 0);
      flags := flags.(sign := result & 0x80 != 0);
      flags := flags.(parity := CountOnes(result) % 2 == 0);
      flags := flags.(carry := false);
      flags := flags.(auxCarry := false);
    }

    /** `bitwise_xor`: the flags are assigned one by one from the result. */
    method BitwiseXor(x: u8, y: u8) returns (result: u8)
      modifies this`flags
      ensures Computed(result, flags) == XorResult(x, y)
    {
      result := x ^ y;
      flags := flags.(zero := result == 0);
      flags := flags.(sign := result & 0x80 != 0);
      flags := flags.(parity := CountOnes(result) % 2 == 0);
      flags := flags.(carry := false);
      flags := flags.(auxCarry := false);
    }

    /** `bitwise_or`: the flags are assigned one by one from the result. */
    method BitwiseOr(x: u8, y: u8) returns (result: u8)
      modifies this`flags
      ensures Computed(result, flags) == OrResult(x, y)
    {
      result := x | y;
      flags := flags.(zero := result == 0);
      flags := flags.(sign := result & 0x80 != 0);
      flags := flags.(parity := CountOnes(result) % 2 == 0);
      flags := flags.(carry := false);
      flags := flags.(auxCarry := false);
    }

    /** `rotate`: the shifted-out bit goes to CY; through the carry, the old CY fills the freed bit. */
    method Rotate(x: u8, right: bool, throughCarry: bool) returns (result: u8)
      modifies this`flags
      ensures result == RotateResult(x, right, throughCarry, old(flags)).value
      ensures flags == RotateResult(x, right, throughCarry, old(flags)).flags
    {
      var carryCopy := flags.carry;
      if right {
        flags := flags.(carry := (x & 0x01) != 0);
        result := x.RotateRight(1);
      } else {
        flags := flags.(carry := (x & 0x80) != 0);
        result := x.RotateLeft(1);
      }
      if throughCarry {
        var carryBit: u8 := if carryCopy then 1 else 0;
        if right {
          result := result & 0x7F;
          result := result | (carryBit << 7);
        } else {
          result := result & 0xFE;
          result := result | carryBit;
        }
      }
    }

    /**
     * evaluate: on failure nothing changes; on success the flags are those
     * Evaluated gives, and the accumulator takes the result exactly when
     * there is one, whatever its width.
     */
    method Evaluate(operation: AluOperation) returns (r: Result<Option<RegisterValue>>)
      modifies this
      ensures Evaluated(operation, old(flags)).Err? ==>
                r == Err(Evaluated(operation, old(flags)).error)
                && accumulator == old(accumulator) && flags == old(flags)
      ensures Evaluated(operation, old(flags)).Ok? ==>
                r == Ok(Evaluated(operation, old(flags)).value.result)
                && flags == Evaluated(operation, old(flags)).value.flags
                && accumulator == (if r.value.Some? then r.value.value else old(accumulator))
    {
      var x: Option<u8> := None;
      var y: Option<u8> := None;
      var x16: Option<u16> := None;
      if operation.IsBinary() {
        var a :- TryIntoU8(operation.a);
        x := Some(a);
        var b :- TryIntoU8(operation.b);
        y := Some(b);
      } else if operation.IsUnary() {
        if operation.a.Integer8? {
          var a := TryIntoU8(operation.a);
          x := Some(a.value);
        } else {
          x16 := Some(ToU16(operation.a));
        }
      }

      var result: Option<RegisterValue>;
      match operation {
        case Add(_, _) => { var v := this.Add(x.value, y.value, false); result := Some(Integer8(v)); }
        case AddCarry(_, _) => { var v := this.Add(x.value, y.value, true); result := Some(Integer8(v)); }
        case Sub(_, _) => { var v := this.Sub(x.value, y.value, false); result := Some(Integer8(v)); }
        case SubBorrow(_, _) => { var v := this.Sub(x.value, y.value, true); result := Some(Integer8(v)); }
        case Increment(_) => {
          if x.Some? {
            var v := this.IncDec(x.value, true);
            result := Some(Integer8(v));
          } else {
            result := Some(Integer16(IncDec16(x16.value, true)));
          }
        }
        case Decrement(_) => {
          if x.Some? {
            var v := this.IncDec(x.value, false);
            result := Some(Integer8(v));
          } else {
            result := Some(Integer16(IncDec16(x16.value, false)));
          }
        }
        case DecimalAdjust(_) => {
          if x.None? { return Err(Panic); }
          var v := this.DecimalAdjust(x.value);
          result := Some(Integer8(v));
        }
        case BitwiseAnd(_, _) => { var v := this.BitwiseAnd(x.value, y.value); result := Some(Integer8(v)); }
        case BitwiseXor(_, _) => { var v := this.BitwiseXor(x.value, y.value); result := Some(Integer8(v)); }
        case BitwiseOr(_, _) => { var v := this.BitwiseOr(x.value, y.value); result := Some(Integer8(v)); }
        case Comparison(_, _) => {
          var _ := this.Sub(x.value, y.value, false);
          result := None;
        }
        case RotateLeft(_) => {
          if x.None? { return Err(Panic); }
          var v := this.Rotate(x.value, false, false);
          result := Some(Integer8(v));
        }
        case RotateRight(_) => {
          if x.None? { return Err(Panic); }
          var v := this.Rotate(x.value, true, false);
          result := Some(Integer8(v));
        }
        case RotateLeftThroughCarry(_) => {
          if x.None? { return Err(Panic); }
          var v := this.Rotate(x.value, false, true);
          result := Some(Integer8(v));
        }
        case RotateRightThroughCarry(_) => {
          if x.None? { return Err(Panic); }
          var v := this.Rotate(x.value, true, true);
          result := Some(Integer8(v));
        }
        case Complement(_) => {
          if x.None? { return Err(Panic); }
          result := Some(Integer8(ComplementResult(x.value)));
        }
        case SetCarry => {
          flags := flags.(carry := true);
          result := None;
        }
        case ComplementCarry => {
          flags := flags.(carry := !flags.carry);
          result := None;
        }
      }

      if result.Some? {
        accumulator := result.value;
      }
      r := Ok(result);
    }
  }
}
