/**
 * The unit tests of src/cpu/alu.rs as clients of the class Alu: each method
 * builds a new ALU, runs the test's operations through evaluate in the same
 * order, and promises in its postcondition the results and flags the test
 * asserts.  The flags are written in the order of AluFlags::from_bools:
 * zero, sign, parity, carry, auxiliary carry.
 */
module AluScenarios {
  import opened Binary
  import opened Results
  import opened Registers
  import opened CpuAlu
  import opened AluProperties

  /** alu_accumulator_is_set: ADD 1 + 1 returns 2 and leaves it in the accumulator. */
  method AccumulatorIsSet() returns (result: Result<Option<RegisterValue>>, accumulator: RegisterValue)
    ensures result == Ok(Some(Integer8(2)))
    ensures accumulator == Integer8(2)
  {
    var alu := new Alu();
    result := alu.Evaluate(Add(Integer8(1), Integer8(1)));
    accumulator := alu.accumulator;
  }

  /** The steps of Addition from a new ALU, each from the flags the one before it leaves. */
  lemma AdditionSteps()
    ensures Evaluated(Add(Integer8(0), Integer8(0)), ClearedFlags)
              == Produced(Computed(0, AluFlags(true, false, true, false, false)))
    ensures Evaluated(Add(Integer8(13), Integer8(7)), AluFlags(true, false, true, false, false))
              == Produced(Computed(20, AluFlags(false, false, true, false, true)))
    ensures Evaluated(Add(Integer8(255), Integer8(2)), AluFlags(false, false, true, false, true))
              == Produced(Computed(1, AluFlags(false, false, false, true, true)))
    ensures Evaluated(Add(Integer8(127), Integer8(1)), AluFlags(false, false, false, true, true))
              == Produced(Computed(128, AluFlags(false, true, false, false, true)))
  {
  }

  /** alu_add: four additions on one ALU, each with the flags it leaves. */
  method Addition() returns (results: seq<Result<Option<RegisterValue>>>, flagsSeen: seq<AluFlags>)
    ensures results == [Ok(Some(Integer8(0))), Ok(Some(Integer8(20))), Ok(Some(Integer8(1))), Ok(Some(Integer8(128)))]
    ensures flagsSeen == [AluFlags(true, false, true, false, false), AluFlags(false, false, true, false, true),
                          AluFlags(false, false, false, true, true), AluFlags(false, true, false, false, true)]
  {
    AdditionSteps();
    var alu := new Alu();
    var r0 := alu.Evaluate(Add(Integer8(0), Integer8(0)));
    var f0 := alu.flags;
    var r1 := alu.Evaluate(Add(Integer8(13), Integer8(7)));
    var f1 := alu.flags;
    var r2 := alu.Evaluate(Add(Integer8(255), Integer8(2)));
    var f2 := alu.flags;
    var r3 := alu.Evaluate(Add(Integer8(127), Integer8(1)));
    var f3 := alu.flags;
    results := [r0, r1, r2, r3];
    flagsSeen := [f0, f1, f2, f3];
  }

  /** The steps of AdditionWithCarry from a new ALU, each from the flags the one before it leaves. */
  lemma AdditionWithCarrySteps()
    ensures Evaluated(AddCarry(Integer8(240), Integer8(16)), ClearedFlags)
              == Produced(Computed(0, AluFlags(true, false, true, true, false)))
    ensures Evaluated(AddCarry(Integer8(1), Integer8(1)), AluFlags(true, false, true, true, false))
              == Produced(Computed(3, AluFlags(false, false, true, false, false)))
  {
  }

  /** alu_add_with_carry: 240 + 16 carries out, and the next ADC adds that carry to 1 + 1. */
  method AdditionWithCarry() returns (results: seq<Result<Option<RegisterValue>>>, flagsSeen: seq<AluFlags>)
    ensures results == [Ok(Some(Integer8(0))), Ok(Some(Integer8(3)))]
    ensures flagsSeen == [AluFlags(true, false, true, true, false), AluFlags(false, false, true, false, false)]
  {
    AdditionWithCarrySteps();
    var alu := new Alu();
    var r0 := alu.Evaluate(AddCarry(Integer8(240), Integer8(16)));
    var f0 := alu.flags;
    var r1 := alu.Evaluate(AddCarry(Integer8(1), Integer8(1)));
    var f1 := alu.flags;
    results := [r0, r1];
    flagsSeen := [f0, f1];
  }

  /** The steps of Subtraction from a new ALU, each from the flags the one before it leaves. */
  lemma SubtractionSteps()
    ensures Evaluated(Sub(Integer8(7), Integer8(3)), ClearedFlags)
              == Produced(Computed(4, ClearedFlags))
    ensures Evaluated(Sub(Integer8(12), Integer8(24)), ClearedFlags)
              == Produced(Computed(244, AluFlags(false, true, false, true, false)))
    ensures Evaluated(Sub(Integer8(1), Integer8(2)), AluFlags(false, true, false, true, false))
              == Produced(Computed(255, AluFlags(false, true, true, true, true)))
  {
  }

  /** alu_sub: three subtractions, two of which borrow. */
  method Subtraction() returns (results: seq<Result<Option<RegisterValue>>>, flagsSeen: seq<AluFlags>)
    ensures results == [Ok(Some(Integer8(4))), Ok(Some(Integer8(244))), Ok(Some(Integer8(255)))]
    ensures flagsSeen == [AluFlags(false, false, false, false, false), AluFlags(false, true, false, true, false),
                          AluFlags(false, true, true, true, true)]
  {
    SubtractionSteps();
    var alu := new Alu();
    var r0 := alu.Evaluate(Sub(Integer8(7), Integer8(3)));
    var f0 := alu.flags;
    var r1 := alu.Evaluate(Sub(Integer8(12), Integer8(24)));
    var f1 := alu.flags;
    var r2 := alu.Evaluate(Sub(Integer8(1), Integer8(2)));
    var f2 := alu.flags;
    results := [r0, r1, r2];
    flagsSeen := [f0, f1, f2];
  }

  /** The steps of SubtractionWithBorrow from a new ALU, each from the flags the one before it leaves. */
  lemma SubtractionWithBorrowSteps()
    ensures Evaluated(SubBorrow(Integer8(1), Integer8(2)), ClearedFlags)
              == Produced(Computed(255, AluFlags(false, true, true, true, true)))
    ensures Evaluated(SubBorrow(Integer8(100), Integer8(49)), AluFlags(false, true, true, true, true))
              == Produced(Computed(50, ClearedFlags))
  {
  }

  /** alu_sub_with_borrow: 1 - 2 borrows, and the next SBB subtracts that borrow from 100 - 49. */
  method SubtractionWithBorrow() returns (results: seq<Result<Option<RegisterValue>>>, flagsSeen: seq<AluFlags>)
    ensures results == [Ok(Some(Integer8(255))), Ok(Some(Integer8(50)))]
    ensures flagsSeen == [AluFlags(false, true, true, true, true), AluFlags(false, false, false, false, false)]
  {
    SubtractionWithBorrowSteps();
    var alu := new Alu();
    var r0 := alu.Evaluate(SubBorrow(Integer8(1), Integer8(2)));
    var f0 := alu.flags;
    var r1 := alu.Evaluate(SubBorrow(Integer8(100), Integer8(49)));
    var f1 := alu.flags;
    results := [r0, r1];
    flagsSeen := [f0, f1];
  }

  /** The steps of Increments from a new ALU, each from the flags the one before it leaves. */
  lemma IncrementsSteps()
    ensures Evaluated(Increment(Integer8(15)), ClearedFlags)
              == Produced(Computed(16, AluFlags(false, false, false, false, true)))
    ensures Evaluated(Increment(Integer8(255)), AluFlags(false, false, false, false, true))
              == Produced(Computed(0, AluFlags(true, false, true, false, true)))
  {
  }

  /** alu_increment: a nibble carry, then a wrap past 255; CY is never touched. */
  method Increments() returns (results: seq<Result<Option<RegisterValue>>>, flagsSeen: seq<AluFlags>)
    ensures results == [Ok(Some(Integer8(16))), Ok(Some(Integer8(0)))]
    ensures flagsSeen == [AluFlags(false, false, false, false, true), AluFlags(true, false, true, false, true)]
  {
    IncrementsSteps();
    var alu := new Alu();
    var r0 := alu.Evaluate(Increment(Integer8(15)));
    var f0 := alu.flags;
    var r1 := alu.Evaluate(Increment(Integer8(255)));
    var f1 := alu.flags;
    results := [r0, r1];
    flagsSeen := [f0, f1];
  }

  /** The steps of Decrements from a new ALU, each from the flags the one before it leaves. */
  lemma DecrementsSteps()
    ensures Evaluated(Decrement(Integer8(16)), ClearedFlags)
              == Produced(Computed(15, AluFlags(false, false, true, false, true)))
    ensures Evaluated(Decrement(Integer8(0)), AluFlags(false, false, true, false, true))
              == Produced(Computed(255, AluFlags(false, true, true, false, true)))
  {
  }

  /** alu_decrement: a nibble borrow, then a wrap below 0; CY is never touched. */
  method Decrements() returns (results: seq<Result<Option<RegisterValue>>>, flagsSeen: seq<AluFlags>)
    ensures results == [Ok(Some(Integer8(15))), Ok(Some(Integer8(255)))]
    ensures flagsSeen == [AluFlags(false, false, true, false, true), AluFlags(false, true, true, false, true)]
  {
    DecrementsSteps();
    var alu := new Alu();
    var r0 := alu.Evaluate(Decrement(Integer8(16)));
    var f0 := alu.flags;
    var r1 := alu.Evaluate(Decrement(Integer8(0)));
    var f1 := alu.flags;
    results := [r0, r1];
    flagsSeen := [f0, f1];
  }

  /** alu_increment_16bit: 16-bit increments wrap past 65535 and leave every flag clear. */
  method WordIncrements() returns (results: seq<Result<Option<RegisterValue>>>, flagsSeen: seq<AluFlags>)
    ensures results == [Ok(Some(Integer16(256))), Ok(Some(Integer16(0)))]
    ensures flagsSeen == [ClearedFlags, ClearedFlags]
  {
    var alu := new Alu();
    var r0 := alu.Evaluate(Increment(Integer16(255)));
    var f0 := alu.flags;
    var r1 := alu.Evaluate(Increment(Integer16(65535)));
    var f1 := alu.flags;
    results := [r0, r1];
    flagsSeen := [f0, f1];
  }

  /** alu_decrement_16bit: 16-bit decrements wrap below 0 and leave every flag clear. */
  method WordDecrements() returns (results: seq<Result<Option<RegisterValue>>>, flagsSeen: seq<AluFlags>)
    ensures results == [Ok(Some(Integer16(255))), Ok(Some(Integer16(65535)))]
    ensures flagsSeen == [ClearedFlags, ClearedFlags]
  {
    var alu := new Alu();
    var r0 := alu.Evaluate(Decrement(Integer16(256)));
    var f0 := alu.flags;
    var r1 := alu.Evaluate(Decrement(Integer16(0)));
    var f1 := alu.flags;
    results := [r0, r1];
    flagsSeen := [f0, f1];
  }

  /** One step of alu_decimal_adjustment: ADD x + y, then DAA on the byte the addition returned. */
  method AddThenAdjust(alu: Alu, x: u8, y: u8) returns (r: Result<Option<RegisterValue>>)
    modifies alu
    ensures r == Ok(Some(Integer8(AddAdjusted(x, y, old(alu.flags)).value)))
    ensures alu.flags == AddAdjusted(x, y, old(alu.flags)).flags
  {
    var sum := alu.Evaluate(Add(Integer8(x), Integer8(y)));
    r := alu.Evaluate(DecimalAdjust(sum.value.value));
  }

  /** alu_decimal_adjustment: 05 + 03, 15 + 27 and 99 + 01 adjusted to BCD. */
  method DecimalAdjustment() returns (results: seq<Result<Option<RegisterValue>>>, flagsSeen: seq<AluFlags>)
    ensures results == [Ok(Some(Integer8(0x08))), Ok(Some(Integer8(0x42))), Ok(Some(Integer8(0x00)))]
    ensures flagsSeen == [AluFlags(false, false, false, false, false), AluFlags(false, false, true, false, true),
                          AluFlags(true, false, true, true, false)]
  {
    var alu := new Alu();
    DecimalAdjustExamples(alu.flags);
    var r0 := AddThenAdjust(alu, 0x05, 0x03);
    var f0 := alu.flags;
    DecimalAdjustExamples(alu.flags);
    var r1 := AddThenAdjust(alu, 0x15, 0x27);
    var f1 := alu.flags;
    DecimalAdjustExamples(alu.flags);
    var r2 := AddThenAdjust(alu, 0x99, 0x01);
    var f2 := alu.flags;
    results := [r0, r1, r2];
    flagsSeen := [f0, f1, f2];
  }

  /** The steps of Conjunctions from a new ALU, each from the flags the one before it leaves. */
  lemma ConjunctionsSteps()
    ensures Evaluated(BitwiseAnd(Integer8(0x37), Integer8(0xF0)), ClearedFlags)
              == Produced(Computed(0x30, AluFlags(false, false, true, false, false)))
    ensures Evaluated(BitwiseAnd(Integer8(0xFF), Integer8(0x00)), AluFlags(false, false, true, false, false))
              == Produced(Computed(0x00, AluFlags(true, false, true, false, false)))
  {
  }

  /** alu_bitwise_and: AND clears both carries and sets Z, S and P from the result. */
  method Conjunctions() returns (results: seq<Result<Option<RegisterValue>>>, flagsSeen: seq<AluFlags>)
    ensures results == [Ok(Some(Integer8(0x30))), Ok(Some(Integer8(0x00)))]
    ensures flagsSeen == [AluFlags(false, false, true, false, false), AluFlags(true, false, true, false, false)]
  {
    ConjunctionsSteps();
    var alu := new Alu();
    var r0 := alu.Evaluate(BitwiseAnd(Integer8(0x37), Integer8(0xF0)));
    var f0 := alu.flags;
    var r1 := alu.Evaluate(BitwiseAnd(Integer8(0xFF), Integer8(0x00)));
    var f1 := alu.flags;
    results := [r0, r1];
    flagsSeen := [f0, f1];
  }

  /** The steps of ExclusiveDisjunctions from a new ALU, each from the flags the one before it leaves. */
  lemma ExclusiveDisjunctionsSteps()
    ensures Evaluated(BitwiseXor(Integer8(0x55), Integer8(0xFF)), ClearedFlags)
              == Produced(Computed(0xAA, AluFlags(false, true, true, false, false)))
    ensures Evaluated(BitwiseXor(Integer8(0xAB), Integer8(0xAB)), AluFlags(false, true, true, false, false))
              == Produced(Computed(0x00, AluFlags(true, false, true, false, false)))
  {
  }

  /** alu_bitwise_xor: XOR clears both carries; a byte XOR itself is zero. */
  method ExclusiveDisjunctions() returns (results: seq<Result<Option<RegisterValue>>>, flagsSeen: seq<AluFlags>)
    ensures results == [Ok(Some(Integer8(0xAA))), Ok(Some(Integer8(0x00)))]
    ensures flagsSeen == [AluFlags(false, true, true, false, false), AluFlags(true, false, true, false, false)]
  {
    ExclusiveDisjunctionsSteps();
    var alu := new Alu();
    var r0 := alu.Evaluate(BitwiseXor(Integer8(0x55), Integer8(0xFF)));
    var f0 := alu.flags;
    var r1 := alu.Evaluate(BitwiseXor(Integer8(0xAB), Integer8(0xAB)));
    var f1 := alu.flags;
    results := [r0, r1];
    flagsSeen := [f0, f1];
  }

  /** The steps of Disjunctions from a new ALU, each from the flags the one before it leaves. */
  lemma DisjunctionsSteps()
    ensures Evaluated(BitwiseOr(Integer8(0x55), Integer8(0xAA)), ClearedFlags)
              == Produced(Computed(0xFF, AluFlags(false, true, true, false, false)))
    ensures Evaluated(BitwiseOr(Integer8(0x3A), Integer8(0x4A)), AluFlags(false, true, true, false, false))
              == Produced(Computed(0x7A, ClearedFlags))
  {
  }

  /** alu_bitwise_or: OR clears both carries and sets Z, S and P from the result. */
  method Disjunctions() returns (results: seq<Result<Option<RegisterValue>>>, flagsSeen: seq<AluFlags>)
    ensures results == [Ok(Some(Integer8(0xFF))), Ok(Some(Integer8(0x7A)))]
    ensures flagsSeen == [AluFlags(false, true, true, false, false), AluFlags(false, false, false, false, false)]
  {
    DisjunctionsSteps();
    var alu := new Alu();
    var r0 := alu.Evaluate(BitwiseOr(Integer8(0x55), Integer8(0xAA)));
    var f0 := alu.flags;
    var r1 := alu.Evaluate(BitwiseOr(Integer8(0x3A), Integer8(0x4A)));
    var f1 := alu.flags;
    results := [r0, r1];
    flagsSeen := [f0, f1];
  }

  /** The steps of Comparisons from a new ALU, each from the flags the one before it leaves. */
  lemma ComparisonsSteps()
    ensures Evaluated(Comparison(Integer8(5), Integer8(5)), ClearedFlags)
              == Ok(Evaluation(None, AluFlags(true, false, true, false, false)))
    ensures Evaluated(Comparison(Integer8(6), Integer8(5)), AluFlags(true, false, true, false, false))
              == Ok(Evaluation(None, ClearedFlags))
    ensures Evaluated(Comparison(Integer8(4), Integer8(5)), ClearedFlags)
              == Ok(Evaluation(None, AluFlags(false, true, true, true, true)))
  {
  }

  /** alu_comparison: a comparison returns nothing, and Z and CY order its operands. */
  method Comparisons() returns (results: seq<Result<Option<RegisterValue>>>, flagsSeen: seq<AluFlags>)
    ensures results == [Ok(None), Ok(None), Ok(None)]
    ensures flagsSeen == [AluFlags(true, false, true, false, false), AluFlags(false, false, false, false, false),
                          AluFlags(false, true, true, true, true)]
  {
    ComparisonsSteps();
    var alu := new Alu();
    var r0 := alu.Evaluate(Comparison(Integer8(5), Integer8(5)));
    var f0 := alu.flags;
    var r1 := alu.Evaluate(Comparison(Integer8(6), Integer8(5)));
    var f1 := alu.flags;
    var r2 := alu.Evaluate(Comparison(Integer8(4), Integer8(5)));
    var f2 := alu.flags;
    results := [r0, r1, r2];
    flagsSeen := [f0, f1, f2];
  }

  /** The rotation evaluate runs for a direction and a kind. */
  function RotationOperation(x: RegisterValue, right: bool, throughCarry: bool): (operation: AluOperation)
    ensures operation.IsUnary() && operation.a == x
  {
    if right then (if throughCarry then RotateRightThroughCarry(x) else RotateRight(x))
    else (if throughCarry then RotateLeftThroughCarry(x) else RotateLeft(x))
  }

  /** A rotation of a byte evaluates to RotateResult. */
  lemma RotationEvaluated(x: u8, right: bool, throughCarry: bool, flags: AluFlags)
    ensures Evaluated(RotationOperation(Integer8(x), right, throughCarry), flags)
              == Produced(RotateResult(x, right, throughCarry, flags))
  {
  }

  /**
   * The loops of the rotation tests: x is rotated n times, each result
   * evaluated again, and the byte and flags are those of n rotations.
   */
  method RotateRepeatedly(alu: Alu, x: u8, right: bool, throughCarry: bool, n: nat) returns (result: u8)
    modifies alu
    ensures Computed(result, alu.flags) == Rotations(Computed(x, old(alu.flags)), right, throughCarry, n)
    ensures alu.accumulator == if n == 0 then old(alu.accumulator) else Integer8(result)
  {
    result := x;
    for i := 0 to n
      invariant Computed(result, alu.flags) == Rotations(Computed(x, old(alu.flags)), right, throughCarry, i)
      invariant alu.accumulator == if i == 0 then old(alu.accumulator) else Integer8(result)
    {
      RotationEvaluated(result, right, throughCarry, alu.flags);
      RotationsUnfold(Computed(x, old(alu.flags)), right, throughCarry, i);
      var r := alu.Evaluate(RotationOperation(Integer8(result), right, throughCarry));
      result := r.value.value.byte;
    }
  }

  /** alu_rotate_left: eight RLC of 1 give 1 back with bit 0 in the carry; RLC of 0x55 is 0xAA. */
  method LeftRotations() returns (cycled: u8, cycleFlags: AluFlags,
                                  rotated: Result<Option<RegisterValue>>, rotatedFlags: AluFlags)
    ensures cycled == 1 && cycleFlags == AluFlags(false, false, false, true, false)
    ensures rotated == Ok(Some(Integer8(0xAA))) && rotatedFlags == ClearedFlags
  {
    var alu := new Alu();
    PlainRotationsCycle(1, false, ClearedFlags);
    cycled := RotateRepeatedly(alu, 1, false, false, 8);
    cycleFlags := alu.flags;
    rotated := alu.Evaluate(RotateLeft(Integer8(0x55)));
    rotatedFlags := alu.flags;
  }

  /** alu_rotate_right: eight RRC of 1 give 1 back with bit 7 in the carry; RRC of 0xAA is 0x55. */
  method RightRotations() returns (cycled: u8, cycleFlags: AluFlags,
                                   rotated: Result<Option<RegisterValue>>, rotatedFlags: AluFlags)
    ensures cycled == 1 && cycleFlags == ClearedFlags
    ensures rotated == Ok(Some(Integer8(0x55))) && rotatedFlags == ClearedFlags
  {
    var alu := new Alu();
    PlainRotationsCycle(1, true, ClearedFlags);
    cycled := RotateRepeatedly(alu, 1, true, false, 8);
    cycleFlags := alu.flags;
    rotated := alu.Evaluate(RotateRight(Integer8(0xAA)));
    rotatedFlags := alu.flags;
  }

  /** The two steps of LeftCarryRotations after the cycle, from clear flags. */
  lemma LeftCarryRotationsSteps()
    ensures Evaluated(RotateLeftThroughCarry(Integer8(0xAA)), ClearedFlags)
              == Produced(Computed(0x54, AluFlags(false, false, false, true, false)))
    ensures Evaluated(RotateLeftThroughCarry(Integer8(0x54)), AluFlags(false, false, false, true, false))
              == Produced(Computed(0xA9, ClearedFlags))
  {
  }

  /**
   * alu_rotate_left_through_carry: nine RAL of 1 give 1 back with the carry clear; RAL of 0xAA
   * moves bit 7 into the carry, and the next RAL brings it back in at bit 0.
   */
  method LeftCarryRotations() returns (cycled: u8, cycleFlags: AluFlags,
                                       results: seq<Result<Option<RegisterValue>>>, flagsSeen: seq<AluFlags>)
    ensures cycled == 1 && cycleFlags == ClearedFlags
    ensures results == [Ok(Some(Integer8(0x54))), Ok(Some(Integer8(0xA9)))]
    ensures flagsSeen == [AluFlags(false, false, false, true, false), ClearedFlags]
  {
    LeftCarryRotationsSteps();
    var alu := new Alu();
    CarryRotationsCycle(1, false, ClearedFlags);
    cycled := RotateRepeatedly(alu, 1, false, true, 9);
    cycleFlags := alu.flags;
    var r0 := alu.Evaluate(RotateLeftThroughCarry(Integer8(0xAA)));
    var f0 := alu.flags;
    var r1 := alu.Evaluate(RotateLeftThroughCarry(Integer8(0x54)));
    var f1 := alu.flags;
    results := [r0, r1];
    flagsSeen := [f0, f1];
  }

  /** The two steps of RightCarryRotations after the cycle, from clear flags. */
  lemma RightCarryRotationsSteps()
    ensures Evaluated(RotateRightThroughCarry(Integer8(0x55)), ClearedFlags)
              == Produced(Computed(0x2A, AluFlags(false, false, false, true, false)))
    ensures Evaluated(RotateRightThroughCarry(Integer8(0x2A)), AluFlags(false, false, false, true, false))
              == Produced(Computed(0x95, ClearedFlags))
  {
  }

  /**
   * alu_rotate_right_through_carry: nine RAR of 1 give 1 back with the carry clear; RAR of 0x55
   * moves bit 0 into the carry, and the next RAR brings it back in at bit 7.
   */
  method RightCarryRotations() returns (cycled: u8, cycleFlags: AluFlags,
                                        results: seq<Result<Option<RegisterValue>>>, flagsSeen: seq<AluFlags>)
    ensures cycled == 1 && cycleFlags == ClearedFlags
    ensures results == [Ok(Some(Integer8(0x2A))), Ok(Some(Integer8(0x95)))]
    ensures flagsSeen == [AluFlags(false, false, false, true, false), ClearedFlags]
  {
    RightCarryRotationsSteps();
    var alu := new Alu();
    CarryRotationsCycle(1, true, ClearedFlags);
    cycled := RotateRepeatedly(alu, 1, true, true, 9);
    cycleFlags := alu.flags;
    var r0 := alu.Evaluate(RotateRightThroughCarry(Integer8(0x55)));
    var f0 := alu.flags;
    var r1 := alu.Evaluate(RotateRightThroughCarry(Integer8(0x2A)));
    var f1 := alu.flags;
    results := [r0, r1];
    flagsSeen := [f0, f1];
  }

  /** alu_complement: CMA inverts every bit and leaves the flags clear. */
  method ComplementTest() returns (results: seq<Result<Option<RegisterValue>>>, flagsSeen: seq<AluFlags>)
    ensures results == [Ok(Some(Integer8(0xAA))), Ok(Some(Integer8(0x0F)))]
    ensures flagsSeen == [ClearedFlags, ClearedFlags]
  {
    var alu := new Alu();
    var r0 := alu.Evaluate(Complement(Integer8(0x55)));
    var f0 := alu.flags;
    var r1 := alu.Evaluate(Complement(Integer8(0xF0)));
    var f1 := alu.flags;
    results := [r0, r1];
    flagsSeen := [f0, f1];
  }

  /** alu_set_and_complement_carry: STC sets the carry and each CMC inverts it, with no result. */
  method CarryFlagTests() returns (results: seq<Result<Option<RegisterValue>>>, flagsSeen: seq<AluFlags>)
    ensures results == [Ok(None), Ok(None), Ok(None)]
    ensures flagsSeen == [AluFlags(false, false, false, true, false), ClearedFlags, AluFlags(false, false, false, true, false)]
  {
    var alu := new Alu();
    var r0 := alu.Evaluate(SetCarry);
    var f0 := alu.flags;
    var r1 := alu.Evaluate(ComplementCarry);
    var f1 := alu.flags;
    var r2 := alu.Evaluate(ComplementCarry);
    var f2 := alu.flags;
    results := [r0, r1, r2];
    flagsSeen := [f0, f1, f2];
  }
}
