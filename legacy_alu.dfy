/**
 * The first ALU of the emulator (src/alu.rs), kept beside the CPU's: it
 * knows only ADD, ADC, SUB and SBB on byte operands, and evaluate returns
 * the byte itself and changes nothing but the flags.  Its flags structure
 * has the same five fields as the CPU ALU's, and its add and sub compute
 * the same result and flags, so the model reuses AluFlags, AddResult and
 * SubResult of CpuAlu.
 */
module LegacyAlu {
  import opened Binary
  import opened Registers
  import CpuAlu

  /** ALUOperation: an arithmetic operation with its two byte operands. */
  datatype LegacyOperation =
    | Add(x: u8, y: u8)
    | AddCarry(x: u8, y: u8)
    | Sub(x: u8, y: u8)
    | SubBorrow(x: u8, y: u8)

  /** The byte and the flags an operation gives when the flags were flags before it. */
  function Outcome(operation: LegacyOperation, flags: CpuAlu.AluFlags): CpuAlu.Computed {
    match operation
    case Add(x, y) => CpuAlu.AddResult(x, y, false, flags)
    case AddCarry(x, y) => CpuAlu.AddResult(x, y, true, flags)
    case Sub(x, y) => CpuAlu.SubResult(x, y, false, flags)
    case SubBorrow(x, y) => CpuAlu.SubResult(x, y, true, flags)
  }

  /** The operation of the CPU ALU with the same name, on the same operands as bytes. */
  function CpuOperation(operation: LegacyOperation): CpuAlu.AluOperation {
    match operation
    case Add(x, y) => CpuAlu.Add(Integer8(x), Integer8(y))
    case AddCarry(x, y) => CpuAlu.AddCarry(Integer8(x), Integer8(y))
    case Sub(x, y) => CpuAlu.Sub(Integer8(x), Integer8(y))
    case SubBorrow(x, y) => CpuAlu.SubBorrow(Integer8(x), Integer8(y))
  }

  /**
   * The two ALUs agree: the CPU ALU's evaluate of the same operation on byte
   * operands succeeds with the byte and the flags of the legacy one.
   */
  lemma AgreesWithCpuAlu(operation: LegacyOperation, flags: CpuAlu.AluFlags)
    ensures CpuAlu.Evaluated(CpuOperation(operation), flags) == CpuAlu.Produced(Outcome(operation, flags))
  {
  }

  /**
   * evaluate overwrites every flag: of the flags before it, only the carry,
   * and only for ADC and SBB, has any effect on the byte or the flags it gives.
   */
  lemma OnlyCarryIsRead(operation: LegacyOperation, before: CpuAlu.AluFlags, other: CpuAlu.AluFlags)
    requires before.carry == other.carry || operation.Add? || operation.Sub?
    ensures Outcome(operation, before) == Outcome(operation, other)
  {
  }

  class Alu {
    var accumulator: u8
    var temporaryAccumulator: u8
    var flags: CpuAlu.AluFlags
    var temporaryRegister: u8

    /** new: every register zero and every flag clear. */
    constructor ()
      ensures accumulator == 0 && temporaryAccumulator == 0 && temporaryRegister == 0
      ensures flags == CpuAlu.ClearedFlags
    {
      accumulator := 0;
      temporaryAccumulator := 0;
      flags := CpuAlu.ClearedFlags;
      temporaryRegister := 0;
    }

    /** flags: the flags as they are. */
    function Flags(): CpuAlu.AluFlags
      reads this
    {
      flags
    }

    /**
     * evaluate: returns the byte the operation computes and sets the flags
     * it gives; the accumulator and the temporary registers stay as they are.
     */
    method Evaluate(operation: LegacyOperation) returns (result: u8)
      modifies this`flags
      ensures CpuAlu.Computed(result, flags) == Outcome(operation, old(flags))
    {
      var c: CpuAlu.Computed;
      match operation {
        case Add(x, y) => c := CpuAlu.AddResult(x, y, false, flags);
        case AddCarry(x, y) => c := CpuAlu.AddResult(x, y, true, flags);
        case Sub(x, y) => c := CpuAlu.SubResult(x, y, false, flags);
        case SubBorrow(x, y) => c := CpuAlu.SubResult(x, y, true, flags);
      }
      flags := c.flags;
      result := c.value;
    }
  }

  /** alu_add of src/alu.rs: four additions on one ALU, with the flags each leaves. */
  method Addition() returns (results: seq<u8>, flagsSeen: seq<CpuAlu.AluFlags>)
    ensures results == [0, 20, 1, 128]
    ensures flagsSeen == [CpuAlu.AluFlags(true, false, true, false, false), CpuAlu.AluFlags(false, false, true, false, true),
                          CpuAlu.AluFlags(false, false, false, true, true), CpuAlu.AluFlags(false, true, false, false, true)]
  {
    var alu := new Alu();
    var r0 := alu.Evaluate(Add(0, 0));
    var f0 := alu.Flags();
    var r1 := alu.Evaluate(Add(13, 7));
    var f1 := alu.Flags();
    var r2 := alu.Evaluate(Add(255, 2));
    var f2 := alu.Flags();
    var r3 := alu.Evaluate(Add(127, 1));
    var f3 := alu.Flags();
    results := [r0, r1, r2, r3];
    flagsSeen := [f0, f1, f2, f3];
  }

  /** alu_add_with_carry: 240 + 16 carries out, and the next ADC adds that carry to 1 + 1. */
  method AdditionWithCarry() returns (results: seq<u8>, flagsSeen: seq<CpuAlu.AluFlags>)
    ensures results == [0, 3]
    ensures flagsSeen == [CpuAlu.AluFlags(true, false, true, true, false), CpuAlu.AluFlags(false, false, true, false, false)]
  {
    var alu := new Alu();
    var r0 := alu.Evaluate(AddCarry(240, 16));
    var f0 := alu.Flags();
    var r1 := alu.Evaluate(AddCarry(1, 1));
    var f1 := alu.Flags();
    results := [r0, r1];
    flagsSeen := [f0, f1];
  }

  /** alu_sub: 7 - 3, then 12 - 24 and 1 - 2, which borrow and wrap to 256 - 12 and 256 - 1. */
  method Subtraction() returns (results: seq<u8>, flagsSeen: seq<CpuAlu.AluFlags>)
    ensures results == [4, 244, 255]
    ensures flagsSeen == [CpuAlu.AluFlags(false, false, false, false, false), CpuAlu.AluFlags(false, true, false, true, false),
                          CpuAlu.AluFlags(false, true, true, true, true)]
  {
    var alu := new Alu();
    var r0 := alu.Evaluate(Sub(7, 3));
    var f0 := alu.Flags();
    var r1 := alu.Evaluate(Sub(12, 24));
    var f1 := alu.Flags();
    var r2 := alu.Evaluate(Sub(1, 2));
    var f2 := alu.Flags();
    results := [r0, r1, r2];
    flagsSeen := [f0, f1, f2];
  }

  /** alu_sub_with_borrow: 1 - 2 borrows, and the next SBB subtracts that borrow from 100 - 49. */
  method SubtractionWithBorrow() returns (results: seq<u8>, flagsSeen: seq<CpuAlu.AluFlags>)
    ensures results == [255, 50]
    ensures flagsSeen == [CpuAlu.AluFlags(false, true, true, true, true), CpuAlu.AluFlags(false, false, false, false, false)]
  {
    var alu := new Alu();
    var r0 := alu.Evaluate(SubBorrow(1, 2));
    var f0 := alu.Flags();
    var r1 := alu.Evaluate(SubBorrow(100, 49));
    var f1 := alu.Flags();
    results := [r0, r1];
    flagsSeen := [f0, f1];
  }
}
