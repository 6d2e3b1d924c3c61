/**
 * Instruction decoding (src/cpu/instruction.rs): the opcode byte's bits
 * select NOP (0x00) or, in the block 0x80..0xBF, one of the eight ALU
 * operations (bits 5..3) applied to the accumulator and a source (bits
 * 2..0).  Every other opcode is an error.
 */
module Instructions {
  import opened Binary
  import opened Results
  import opened Utils
  import opened Registers

  /**
   * `MemorySize` is not part of this model's sources; decoding uses only
   * its one-byte case.
   */
  datatype MemorySize = Byte

  datatype MemorySource =
    | Address(address: RegisterValue)
    | Register(register: Registers.Register)
    | ProgramCounter

  datatype InstructionSource =
    | Memory(source: MemorySource, size: MemorySize)
    | Register(register: Registers.Register)
    | Accumulator

  /** The ALU instructions share the operand names srcA and srcB. */
  datatype Instruction =
    | Add(srcA: InstructionSource, srcB: InstructionSource)
    | AddWithCarry(srcA: InstructionSource, srcB: InstructionSource)
    | Subtract(srcA: InstructionSource, srcB: InstructionSource)
    | SubtractWithBorrow(srcA: InstructionSource, srcB: InstructionSource)
    | BitwiseAnd(srcA: InstructionSource, srcB: InstructionSource)
    | BitwiseXor(srcA: InstructionSource, srcB: InstructionSource)
    | BitwiseOr(srcA: InstructionSource, srcB: InstructionSource)
    | Comparison(srcA: InstructionSource, srcB: InstructionSource)
    | Nop

  /**
   * `InstructionCondition` is not part of this model's sources; these are
   * the eight branch conditions that the ALU's flags decide.
   */
  datatype InstructionCondition = NotZero | Zero | NoCarry | Carry | ParityOdd | ParityEven | Plus | Minus

  /** The source `M`: the byte of memory addressed by HL. */
  const MemoryAtHL := InstructionSource.Memory(MemorySource.Register(HL), Byte)

  /** InstructionSource::from_id: 0..5 the registers B..L, 6 memory at HL, 7 the accumulator. */
  function FromId(id: u8): Result<InstructionSource> {
    if id <= 5 then
      var register :- FromRegId(id);
      Ok(InstructionSource.Register(register))
    else if id == 6 then
      Ok(MemoryAtHL)
    else if id == 7 then
      Ok(Accumulator)
    else
      Err(UnknownSourceId)
  }

  /** The sources that have an id. */
  predicate IsNumberedSource(source: InstructionSource) {
    match source
    case Register(register) => register in {B, C, D, E, H, L}
    case Memory(_, _) => source == MemoryAtHL
    case Accumulator => true
  }

  /** The id of a numbered source, the inverse of FromId. */
  function SourceId(source: InstructionSource): (id: u8)
    requires IsNumberedSource(source)
    ensures id < 8
  {
    match source
    case Register(register) => RegId(register)
    case Memory(_, _) => 6
    case Accumulator => 7
  }

  /** from_id succeeds exactly on 0..7, and is undone by SourceId. */
  lemma FromIdInverse(id: u8)
    ensures FromId(id).Ok? <==> id < 8
    ensures id < 8 ==> IsNumberedSource(FromId(id).value) && SourceId(FromId(id).value) == id
    ensures id >= 8 ==> FromId(id) == Err(UnknownSourceId)
  {
  }

  /** SourceId is undone by from_id. */
  lemma SourceIdInverse(source: InstructionSource)
    requires IsNumberedSource(source)
    ensures FromId(SourceId(source)) == Ok(source)
  {
    if source.Register? {
      FromRegIdOfRegId(source.register);
    }
  }

  /** The test's source table: ids 0..5 are B..L, 6 is memory at HL, 7 is the accumulator. */
  lemma FromIdTable()
    ensures FromId(0) == Ok(InstructionSource.Register(B)) && FromId(1) == Ok(InstructionSource.Register(C))
    ensures FromId(2) == Ok(InstructionSource.Register(D)) && FromId(3) == Ok(InstructionSource.Register(E))
    ensures FromId(4) == Ok(InstructionSource.Register(H)) && FromId(5) == Ok(InstructionSource.Register(L))
    ensures FromId(6) == Ok(MemoryAtHL) && FromId(7) == Ok(Accumulator)
  {
  }

  /** Instruction::alu_instr_from_id: the eight operations of the ALU block, in order. */
  function AluInstrFromId(alu: u8, srcA: InstructionSource, srcB: InstructionSource): Result<Instruction> {
    match alu
    case 0 => Ok(Add(srcA, srcB))
    case 1 => Ok(AddWithCarry(srcA, srcB))
    case 2 => Ok(Subtract(srcA, srcB))
    case 3 => Ok(SubtractWithBorrow(srcA, srcB))
    case 4 => Ok(BitwiseAnd(srcA, srcB))
    case 5 => Ok(BitwiseXor(srcA, srcB))
    case 6 => Ok(BitwiseOr(srcA, srcB))
    case 7 => Ok(Comparison(srcA, srcB))
    case _ => Err(UnknownAluOperation)
  }

  /** The operation number of an ALU instruction, the inverse of AluInstrFromId. */
  function AluId(instruction: Instruction): (id: u8)
    requires !instruction.Nop?
    ensures id < 8
  {
    match instruction
    case Add(_, _) => 0
    case AddWithCarry(_, _) => 1
    case Subtract(_, _) => 2
    case SubtractWithBorrow(_, _) => 3
    case BitwiseAnd(_, _) => 4
    case BitwiseXor(_, _) => 5
    case BitwiseOr(_, _) => 6
    case Comparison(_, _) => 7
  }

  /**
   * alu_instr_from_id succeeds exactly on 0..7, keeps both operands, and is
   * undone by AluId; AluId is undone by it.
   */
  lemma AluInstrFromIdInverse(alu: u8, srcA: InstructionSource, srcB: InstructionSource)
    ensures AluInstrFromId(alu, srcA, srcB).Ok? <==> alu < 8
    ensures alu < 8 ==> var instruction := AluInstrFromId(alu, srcA, srcB).value;
              !instruction.Nop? && AluId(instruction) == alu
              && instruction.srcA == srcA && instruction.srcB == srcB
    ensures alu >= 8 ==> AluInstrFromId(alu, srcA, srcB) == Err(UnknownAluOperation)
  {
  }

  lemma AluIdInverse(instruction: Instruction)
    requires !instruction.Nop?
    ensures AluInstrFromId(AluId(instruction), instruction.srcA, instruction.srcB) == Ok(instruction)
  {
  }

  /**
   * Instruction::decode: a one-byte value's bits, most significant first,
   * are matched against NOP's all-zero pattern and the ALU block's `10`
   * prefix.
   */
  function Decode(instruction: RegisterValue): Result<Instruction> {
    var op :- TryIntoU8(instruction);
    var bits := BitsOf(op);
    var ddd := (op & 0x38) >> 3;
    var sss := op & 0x07;
    if bits == [0, 0, 0, 0, 0, 0, 0, 0] then
      Ok(Nop)
    else if bits[0] == 1 && bits[1] == 0 then
      var srcA := Accumulator;
      var srcB :- FromId(sss);
      AluInstrFromId(ddd, srcA, srcB)
    else
      Err(UnknownInstruction)
  }

  lemma AllZeroBits(op: u8)
    ensures BitsOf(op) == [0, 0, 0, 0, 0, 0, 0, 0] <==> op == 0
  {
    var bits := BitsOf(op);
    if bits == [0, 0, 0, 0, 0, 0, 0, 0] {
      assert BitOf(op, 7) == bits[0] == 0 && BitOf(op, 6) == bits[1] == 0;
      assert BitOf(op, 5) == bits[2] == 0 && BitOf(op, 4) == bits[3] == 0;
      assert BitOf(op, 3) == bits[4] == 0 && BitOf(op, 2) == bits[5] == 0;
      assert BitOf(op, 1) == bits[6] == 0 && BitOf(op, 0) == bits[7] == 0;
      ZeroBits(op);
    }
  }

  lemma ZeroBits(op: u8)
    requires BitOf(op, 7) == 0 && BitOf(op, 6) == 0 && BitOf(op, 5) == 0 && BitOf(op, 4) == 0
    requires BitOf(op, 3) == 0 && BitOf(op, 2) == 0 && BitOf(op, 1) == 0 && BitOf(op, 0) == 0
    ensures op == 0
  {
  }

  lemma AluBlockBits(op: u8)
    ensures BitsOf(op)[0] == 1 && BitsOf(op)[1] == 0 <==> 0x80 <= op <= 0xBF
  {
  }

  lemma FieldsInRange(op: u8)
    ensures (op & 0x38) >> 3 < 8 && op & 0x07 < 8
  {
  }

  /** Opcode 0x00 is NOP. */
  lemma DecodeNop()
    ensures Decode(Integer8(0)) == Ok(Nop)
  {
    AllZeroBits(0);
  }

  /**
   * Every opcode of 0x80..0xBF decodes to the ALU operation numbered by
   * bits 5..3, with the accumulator as first operand and the source
   * numbered by bits 2..0 as second.
   */
  lemma DecodeAluBlock(op: u8)
    requires 0x80 <= op <= 0xBF
    ensures Decode(Integer8(op)).Ok?
    ensures var instruction := Decode(Integer8(op)).value;
              !instruction.Nop?
              && AluId(instruction) == (op & 0x38) >> 3
              && instruction.srcA == Accumulator
              && Ok(instruction.srcB) == FromId(op & 0x07)
  {
    AllZeroBits(op);
    AluBlockBits(op);
    FieldsInRange(op);
    FromIdInverse(op & 0x07);
    AluInstrFromIdInverse((op & 0x38) >> 3, Accumulator, FromId(op & 0x07).value);
  }

  /** An opcode decodes exactly when it is NOP or in the ALU block; otherwise the error is the unknown opcode. */
  lemma DecodeSucceedsIff(op: u8)
    ensures Decode(Integer8(op)).Ok? <==> op == 0 || 0x80 <= op <= 0xBF
    ensures !(op == 0 || 0x80 <= op <= 0xBF) ==> Decode(Integer8(op)) == Err(UnknownInstruction)
  {
    AllZeroBits(op);
    AluBlockBits(op);
    if 0x80 <= op <= 0xBF {
      DecodeAluBlock(op);
    }
  }

  /** A value wider than a byte is not an opcode. */
  lemma DecodeNonByte(instruction: RegisterValue)
    requires !instruction.Integer8?
    ensures Decode(instruction) == Err(WidthMismatch)
  {
  }

  /** The instructions that have an opcode. */
  predicate IsEncodable(instruction: Instruction) {
    instruction.Nop? || (instruction.srcA == Accumulator && IsNumberedSource(instruction.srcB))
  }

  /** The opcode of an instruction: `10 alu sss` for the ALU block, 0x00 for NOP. */
  function Encode(instruction: Instruction): u8
    requires IsEncodable(instruction)
  {
    if instruction.Nop? then 0
    else 0x80 | (AluId(instruction) << 3) | SourceId(instruction.srcB)
  }

  lemma EncodedFields(alu: u8, sss: u8)
    requires alu < 8 && sss < 8
    ensures 0x80 <= 0x80 | (alu << 3) | sss <= 0xBF
    ensures ((0x80 | (alu << 3) | sss) & 0x38) >> 3 == alu
    ensures (0x80 | (alu << 3) | sss) & 0x07 == sss
  {
  }

  lemma FieldsRebuild(op: u8)
    requires 0x80 <= op <= 0xBF
    ensures 0x80 | (((op & 0x38) >> 3) << 3) | (op & 0x07) == op
  {
  }

  /** Decoding the opcode of an instruction gives the instruction back. */
  lemma DecodeEncode(instruction: Instruction)
    requires IsEncodable(instruction)
    ensures Decode(Integer8(Encode(instruction))) == Ok(instruction)
  {
    if instruction.Nop? {
      DecodeNop();
    } else {
      var op := Encode(instruction);
      EncodedFields(AluId(instruction), SourceId(instruction.srcB));
      DecodeAluBlock(op);
      SourceIdInverse(instruction.srcB);
      AluIdInverse(instruction);
      AluInstrFromIdInverse(AluId(instruction), Accumulator, instruction.srcB);
    }
  }

  /** Every opcode that decodes is the opcode of what it decodes to. */
  lemma EncodeDecode(op: u8)
    requires Decode(Integer8(op)).Ok?
    ensures IsEncodable(Decode(Integer8(op)).value)
    ensures Encode(Decode(Integer8(op)).value) == op
  {
    DecodeSucceedsIff(op);
    if op == 0 {
      DecodeNop();
    } else {
      DecodeAluBlock(op);
      var instruction := Decode(Integer8(op)).value;
      FromIdInverse(op & 0x07);
      FieldsRebuild(op);
    }
  }

  lemma DecodesTo(instruction: Instruction, op: u8)
    requires IsEncodable(instruction) && Encode(instruction) == op
    ensures Decode(Integer8(op)) == Ok(instruction)
  {
    DecodeEncode(instruction);
  }

  /** The decoder test's first four opcodes: ADD B, ADC C, SUB D, SBB E. */
  lemma DecodeArithmeticExamples()
    ensures Decode(Integer8(0x80)) == Ok(Add(Accumulator, InstructionSource.Register(B)))
    ensures Decode(Integer8(0x89)) == Ok(AddWithCarry(Accumulator, InstructionSource.Register(C)))
    ensures Decode(Integer8(0x92)) == Ok(Subtract(Accumulator, InstructionSource.Register(D)))
    ensures Decode(Integer8(0x9B)) == Ok(SubtractWithBorrow(Accumulator, InstructionSource.Register(E)))
  {
    DecodesTo(Add(Accumulator, InstructionSource.Register(B)), 0x80);
    DecodesTo(AddWithCarry(Accumulator, InstructionSource.Register(C)), 0x89);
    DecodesTo(Subtract(Accumulator, InstructionSource.Register(D)), 0x92);
    DecodesTo(SubtractWithBorrow(Accumulator, InstructionSource.Register(E)), 0x9B);
  }

  /** The decoder test's last four opcodes: ANA H, XRA L, ORA M, CMP A. */
  lemma DecodeLogicExamples()
    ensures Decode(Integer8(0xA4)) == Ok(BitwiseAnd(Accumulator, InstructionSource.Register(H)))
    ensures Decode(Integer8(0xAD)) == Ok(BitwiseXor(Accumulator, InstructionSource.Register(L)))
    ensures Decode(Integer8(0xB6)) == Ok(BitwiseOr(Accumulator, MemoryAtHL))
    ensures Decode(Integer8(0xBF)) == Ok(Comparison(Accumulator, Accumulator))
  {
    DecodesTo(BitwiseAnd(Accumulator, InstructionSource.Register(H)), 0xA4);
    DecodesTo(BitwiseXor(Accumulator, InstructionSource.Register(L)), 0xAD);
    DecodesTo(BitwiseOr(Accumulator, MemoryAtHL), 0xB6);
    DecodesTo(Comparison(Accumulator, Accumulator), 0xBF);
  }
}
