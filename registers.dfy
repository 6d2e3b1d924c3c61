/**
 * The register array of the CPU (src/cpu/registers.rs): the 16-bit program
 * counter and stack pointer, the 8-bit registers B, C, D, E, H, L and the
 * temporaries W, Z, and the pair views BC, DE, HL, WZ, which are not stored
 * but read from and written to their two byte registers.
 */
module Registers {
  import opened Binary
  import opened Results
  import opened Utils

  datatype Register = PC | SP | B | C | D | E | H | L | W | Z | BC | DE | HL | WZ {

    /** The eight byte registers. */
    predicate IsByteRegister() {
      B? || C? || D? || E? || H? || L? || W? || Z?
    }

    /** The four register pairs. */
    predicate IsPair() {
      BC? || DE? || HL? || WZ?
    }
  }

  /** The stored fields a register reads: itself, or the two byte registers of a pair. */
  function Footprint(register: Register): (fields: set<Register>)
    ensures register.IsPair() ==> |fields| == 2
    ensures !register.IsPair() ==> fields == {register}
    ensures forall f :: f in fields ==> !f.IsPair()
  {
    match register
    case BC => {B, C}
    case DE => {D, E}
    case HL => {H, L}
    case WZ => {W, Z}
    case _ => {register}
  }

  /**
   * `Register::from_reg_id` is not part of this model's sources; the
   * 8080's register numbering it stands for gives B, C, D, E, H, L the ids
   * 0 to 5, and any other id is an error.
   */
  function FromRegId(id: u8): (r: Result<Register>)
    ensures r.Ok? <==> id <= 5
    ensures r.Ok? ==> r.value.IsByteRegister() && RegId(r.value) == id
  {
    match id
    case 0 => Ok(B)
    case 1 => Ok(C)
    case 2 => Ok(D)
    case 3 => Ok(E)
    case 4 => Ok(H)
    case 5 => Ok(L)
    case _ => Err(UnknownRegisterId)
  }

  /** The id of each register that has one, the inverse of FromRegId. */
  function RegId(register: Register): u8 {
    match register
    case B => 0
    case C => 1
    case D => 2
    case E => 3
    case H => 4
    case L => 5
    case _ => 0xFF
  }

  lemma FromRegIdOfRegId(register: Register)
    requires register in {B, C, D, E, H, L}
    ensures FromRegId(RegId(register)) == Ok(register)
  {
  }

  /** A value read from or written to a register: one byte, a byte pair, or a word. */
  datatype RegisterValue =
    | Integer8(byte: u8)
    | Integer8Pair(higher: u8, lower: u8)
    | Integer16(word: u16)
  {
    /** `n_bytes` (not part of this model's sources): the width in bytes. */
    function NBytes(): (n: nat)
      ensures n == 1 <==> Integer8?
      ensures n == 2 <==> !Integer8?
    {
      if Integer8? then 1 else 2
    }
  }

  /** `TryFrom<RegisterValue> for u8`: only a one-byte value converts. */
  function TryIntoU8(value: RegisterValue): (r: Result<u8>)
    ensures r.Ok? <==> value.Integer8?
    ensures r.Ok? ==> Integer8(r.value) == value
    ensures r.Err? ==> r.error == WidthMismatch
  {
    match value
    case Integer8(v) => Ok(v)
    case _ => Err(WidthMismatch)
  }

  /** `From<RegisterValue> for u16`: every value widens to its number. */
  function ToU16(value: RegisterValue): u16 {
    match value
    case Integer8(v) => v as u16
    case Integer8Pair(higher, lower) => CombineValues(higher, lower)
    case Integer16(v) => v
  }

  /** The number of each kind of value: a byte, a high and a low byte, a word. */
  lemma ToU16Meaning(value: RegisterValue)
    ensures value.Integer8? ==> ToU16(value) as int == value.byte as int
    ensures value.Integer8Pair? ==> ToU16(value) as int == value.higher as int * 256 + value.lower as int
    ensures value.Integer16? ==> ToU16(value) == value.word
  {
    match value
    case Integer8(v) => Widen8(v);
    case Integer8Pair(higher, lower) => CombinedValue(higher, lower);
    case Integer16(v) =>
  }

  /** From<u8> and From<u16> followed by the conversions back give the number again. */
  lemma {:induction false} ConversionsRoundTrip(x: u8, w: u16, higher: u8, lower: u8)
    ensures TryIntoU8(Integer8(x)) == Ok(x)
    ensures ToU16(Integer8(x)) as int == x as int
    ensures ToU16(Integer16(w)) == w
    ensures SeparateValues(ToU16(Integer8Pair(higher, lower))) == (higher, lower)
  {
    Widen8(x);
    SeparateCombined(higher, lower);
  }

  /** The stored state of a register array, as a value. */
  datatype RegisterFile = RegisterFile(
    programCounter: u16, stackPointer: u16,
    b: u8, c: u8, d: u8, e: u8, h: u8, l: u8, w: u8, z: u8)

  const Zeroed := RegisterFile(0, 0, 0, 0, 0, 0, 0, 0, 0, 0)

  /** read_reg: PC and SP as words, byte registers as bytes, pairs as byte pairs. */
  function Read(rf: RegisterFile, register: Register): RegisterValue {
    match register
    case PC => Integer16(rf.programCounter)
    case SP => Integer16(rf.stackPointer)
    case B => Integer8(rf.b)
    case C => Integer8(rf.c)
    case D => Integer8(rf.d)
    case E => Integer8(rf.e)
    case H => Integer8(rf.h)
    case L => Integer8(rf.l)
    case W => Integer8(rf.w)
    case Z => Integer8(rf.z)
    case BC => Integer8Pair(rf.b, rf.c)
    case DE => Integer8Pair(rf.d, rf.e)
    case HL => Integer8Pair(rf.h, rf.l)
    case WZ => Integer8Pair(rf.w, rf.z)
  }

  /**
   * write_reg on a value: a byte register takes a one-byte value, a pair
   * takes either byte of any value's 16-bit number, PC and SP refuse.
   */
  function Write(rf: RegisterFile, register: Register, value: RegisterValue): Result<RegisterFile> {
    match register
    case PC => Err(ReadOnlyRegister)
    case SP => Err(ReadOnlyRegister)
    case B => var v :- TryIntoU8(value); Ok(rf.(b := v))
    case C => var v :- TryIntoU8(value); Ok(rf.(c := v))
    case D => var v :- TryIntoU8(value); Ok(rf.(d := v))
    case E => var v :- TryIntoU8(value); Ok(rf.(e := v))
    case H => var v :- TryIntoU8(value); Ok(rf.(h := v))
    case L => var v :- TryIntoU8(value); Ok(rf.(l := v))
    case W => var v :- TryIntoU8(value); Ok(rf.(w := v))
    case Z => var v :- TryIntoU8(value); Ok(rf.(z := v))
    case BC => var (hi, lo) := SeparateValues(ToU16(value)); Ok(rf.(b := hi, c := lo))
    case DE => var (hi, lo) := SeparateValues(ToU16(value)); Ok(rf.(d := hi, e := lo))
    case HL => var (hi, lo) := SeparateValues(ToU16(value)); Ok(rf.(h := hi, l := lo))
    case WZ => var (hi, lo) := SeparateValues(ToU16(value)); Ok(rf.(w := hi, z := lo))
  }

  /** A freshly made register array reads zero everywhere, PC, SP, W and Z included. */
  lemma ZeroedReadsZero(register: Register)
    ensures ToU16(Read(Zeroed, register)) == 0
  {
  }

  /** A write succeeds exactly for a pair, or for a byte register given one byte. */
  lemma WriteSucceedsIff(rf: RegisterFile, register: Register, value: RegisterValue)
    ensures Write(rf, register, value).Ok? <==>
              register.IsPair() || (register.IsByteRegister() && value.Integer8?)
    ensures register.PC? || register.SP? ==> Write(rf, register, value) == Err(ReadOnlyRegister)
    ensures register.IsByteRegister() && !value.Integer8? ==> Write(rf, register, value) == Err(WidthMismatch)
  {
  }

  /** Writing a byte register with a byte and reading it back gives that byte. */
  lemma ReadAfterWriteByte(rf: RegisterFile, register: Register, x: u8)
    requires register.IsByteRegister()
    ensures Write(rf, register, Integer8(x)).Ok?
    ensures Read(Write(rf, register, Integer8(x)).value, register) == Integer8(x)
  {
  }

  /**
   * Writing a pair stores the high byte of the value's number in the first
   * register and the low byte in the second, so that the pair reads back as
   * the same number.
   */
  lemma ReadAfterWritePair(rf: RegisterFile, register: Register, value: RegisterValue)
    requires register.IsPair()
    ensures Write(rf, register, value).Ok?
    ensures Read(Write(rf, register, value).value, register).higher == SeparateValues(ToU16(value)).0
    ensures Read(Write(rf, register, value).value, register).lower == SeparateValues(ToU16(value)).1
    ensures ToU16(Read(Write(rf, register, value).value, register)) == ToU16(value)
  {
    var (hi, lo) := SeparateValues(ToU16(value));
    CombineSeparated(ToU16(value));
    assert Read(Write(rf, register, value).value, register) == Integer8Pair(hi, lo);
  }

  /** A pair reads as the combination of its two byte registers, high byte first. */
  lemma PairIsItsBytes(rf: RegisterFile, register: Register)
    requires register.IsPair()
    ensures ToU16(Read(rf, register)) as int ==
              ToU16(Read(rf, PairHigh(register))) as int * 256 + ToU16(Read(rf, PairLow(register))) as int
    ensures ToU16(Read(rf, register)) ==
              (ToU16(Read(rf, PairHigh(register))) << 8) + ToU16(Read(rf, PairLow(register)))
  {
    ToU16Meaning(Read(rf, register));
    ToU16Meaning(Read(rf, PairHigh(register)));
    ToU16Meaning(Read(rf, PairLow(register)));
  }

  function PairHigh(register: Register): Register
    requires register.IsPair()
  {
    match register
    case BC => B
    case DE => D
    case HL => H
    case WZ => W
  }

  function PairLow(register: Register): Register
    requires register.IsPair()
  {
    match register
    case BC => C
    case DE => E
    case HL => L
    case WZ => Z
  }

  /** A successful write changes no register whose stored fields it does not share. */
  lemma WriteFrame(rf: RegisterFile, register: Register, value: RegisterValue, other: Register)
    requires Write(rf, register, value).Ok?
    requires Footprint(register) !! Footprint(other)
    ensures Read(Write(rf, register, value).value, other) == Read(rf, other)
  {
    assert register in Footprint(register) || register.IsPair();
    assert other in Footprint(other) || other.IsPair();
  }

  /** The register array: the ten stored fields, updated in place by WriteReg. */
  class RegisterArray {
    var programCounter: u16
    var stackPointer: u16
    var b: u8
    var c: u8
    var d: u8
    var e: u8
    var h: u8
    var l: u8
    var w: u8
    var z: u8

    function Snapshot(): RegisterFile
      reads this
    {
      RegisterFile(programCounter, stackPointer, b, c, d, e, h, l, w, z)
    }

    /** new: every register, PC, SP, W and Z included, starts at 0. */
    constructor ()
      ensures Snapshot() == Zeroed
    {
      programCounter, stackPointer := 0, 0;
      b, c, d, e, h, l, w, z := 0, 0, 0, 0, 0, 0, 0, 0;
    }

    function ReadReg(register: Register): RegisterValue
      reads this
    {
      Read(Snapshot(), register)
    }

    /** write_reg: on success the new state is Write's; on failure nothing changes. */
    method WriteReg(register: Register, value: RegisterValue) returns (r: Result<()>)
      modifies this
      ensures Write(old(Snapshot()), register, value).Ok? ==>
                r == Ok(()) && Snapshot() == Write(old(Snapshot()), register, value).value
      ensures Write(old(Snapshot()), register, value).Err? ==>
                r == Err(Write(old(Snapshot()), register, value).error) && Snapshot() == old(Snapshot())
    {
      match register {
        case B => { var v :- TryIntoU8(value); b := v; }
        case C => { var v :- TryIntoU8(value); c := v; }
        case D => { var v :- TryIntoU8(value); d := v; }
        case E => { var v :- TryIntoU8(value); e := v; }
        case H => { var v :- TryIntoU8(value); h := v; }
        case L => { var v :- TryIntoU8(value); l := v; }
        case W => { var v :- TryIntoU8(value); w := v; }
        case Z => { var v :- TryIntoU8(value); z := v; }
        case BC => { var (higher, lower) := SeparateValues(ToU16(value)); b, c := higher, lower; }
        case DE => { var (higher, lower) := SeparateValues(ToU16(value)); d, e := higher, lower; }
        case HL => { var (higher, lower) := SeparateValues(ToU16(value)); h, l := higher, lower; }
        case WZ => { var (higher, lower) := SeparateValues(ToU16(value)); w, z := higher, lower; }
        case _ => { return Err(ReadOnlyRegister); }
      }
      r := Ok(());
    }
  }

  const ByteRegisters := [B, C, D, E, H, L, W, Z]
  const PairRegisters := [BC, DE, HL, WZ]

  /** The first n byte registers hold the first n of bytes. */
  ghost predicate BytesHeld(rf: RegisterFile, bytes: seq<u8>, n: nat)
    requires n <= |bytes| <= 8
  {
    forall k :: 0 <= k < n ==> Read(rf, ByteRegisters[k]) == Integer8(bytes[k])
  }

  /** The first n register pairs hold the first n of words. */
  ghost predicate WordsHeld(rf: RegisterFile, words: seq<u16>, n: nat)
    requires n <= |words| <= 4
  {
    forall k :: 0 <= k < n ==> ToU16(Read(rf, PairRegisters[k])) == words[k]
  }

  /** Writing the next byte register keeps the ones written before it. */
  lemma ByteStep(rf: RegisterFile, bytes: seq<u8>, i: nat)
    requires i < |bytes| == 8 && BytesHeld(rf, bytes, i)
    ensures Write(rf, ByteRegisters[i], Integer8(bytes[i])).Ok?
    ensures BytesHeld(Write(rf, ByteRegisters[i], Integer8(bytes[i])).value, bytes, i + 1)
  {
    ReadAfterWriteByte(rf, ByteRegisters[i], bytes[i]);
    forall k | 0 <= k < i
      ensures Read(Write(rf, ByteRegisters[i], Integer8(bytes[i])).value, ByteRegisters[k]) == Integer8(bytes[k])
    {
      WriteFrame(rf, ByteRegisters[i], Integer8(bytes[i]), ByteRegisters[k]);
    }
  }

  /** Writing the next register pair keeps the ones written before it. */
  lemma WordStep(rf: RegisterFile, words: seq<u16>, i: nat)
    requires i < |words| == 4 && WordsHeld(rf, words, i)
    ensures Write(rf, PairRegisters[i], Integer16(words[i])).Ok?
    ensures WordsHeld(Write(rf, PairRegisters[i], Integer16(words[i])).value, words, i + 1)
  {
    var register := PairRegisters[i];
    ReadAfterWritePair(rf, register, Integer16(words[i]));
    var written := Write(rf, register, Integer16(words[i])).value;
    forall k | 0 <= k < i
      ensures Read(written, PairRegisters[k]) == Read(rf, PairRegisters[k])
    {
      OtherPairKept(rf, register, Integer16(words[i]), PairRegisters[k]);
    }
  }

  lemma OtherPairKept(rf: RegisterFile, register: Register, value: RegisterValue, other: Register)
    requires register.IsPair() && other.IsPair() && register != other
    ensures Write(rf, register, value).Ok?
    ensures Read(Write(rf, register, value).value, other) == Read(rf, other)
  {
  }

  /** Writes bytes[k] to the k-th byte register, for every k. */
  method WriteEveryByte(registerArray: RegisterArray, bytes: seq<u8>)
    requires |bytes| == 8
    modifies registerArray
    ensures forall k :: 0 <= k < 8 ==> registerArray.ReadReg(ByteRegisters[k]) == Integer8(bytes[k])
  {
    for i := 0 to 8
      invariant BytesHeld(registerArray.Snapshot(), bytes, i)
    {
      ByteStep(registerArray.Snapshot(), bytes, i);
      var _ := registerArray.WriteReg(ByteRegisters[i], Integer8(bytes[i]));
    }
    assert BytesHeld(registerArray.Snapshot(), bytes, 8);
  }

  /** Writes words[k] to the k-th register pair, for every k. */
  method WriteEveryPair(registerArray: RegisterArray, words: seq<u16>)
    requires |words| == 4
    modifies registerArray
    ensures forall k :: 0 <= k < 4 ==> ToU16(registerArray.ReadReg(PairRegisters[k])) == words[k]
  {
    for i := 0 to 4
      invariant WordsHeld(registerArray.Snapshot(), words, i)
    {
      WordStep(registerArray.Snapshot(), words, i);
      var _ := registerArray.WriteReg(PairRegisters[i], Integer16(words[i]));
    }
    assert WordsHeld(registerArray.Snapshot(), words, 4);
  }

  /**
   * The register test as a client: writes one byte to each of B..Z on a new
   * array and reads them back, then writes a word to each pair, reads it back
   * as a u16 and checks each pair against `(high << 8) + low` of its bytes.
   */
  method ReadWriteRoundTrip(bytes: seq<u8>, words: seq<u16>) returns (bytesRead: seq<RegisterValue>, wordsRead: seq<u16>, pairsAgree: bool)
    requires |bytes| == 8 && |words| == 4
    ensures |bytesRead| == 8 && forall k :: 0 <= k < 8 ==> bytesRead[k] == Integer8(bytes[k])
    ensures wordsRead == words
    ensures pairsAgree
  {
    var registerArray := new RegisterArray();
    WriteEveryByte(registerArray, bytes);
    bytesRead := [];
    for i := 0 to 8
      invariant |bytesRead| == i
      invariant forall k :: 0 <= k < i ==> bytesRead[k] == Integer8(bytes[k])
    {
      bytesRead := bytesRead + [registerArray.ReadReg(ByteRegisters[i])];
    }
    WriteEveryPair(registerArray, words);
    wordsRead := [];
    for i := 0 to 4
      invariant |wordsRead| == i
      invariant forall k :: 0 <= k < i ==> wordsRead[k] == words[k]
    {
      wordsRead := wordsRead + [ToU16(registerArray.ReadReg(PairRegisters[i]))];
    }
    pairsAgree := true;
    for i := 0 to 4
      invariant pairsAgree
    {
      var pair := ToU16(registerArray.ReadReg(PairRegisters[i]));
      var high := ToU16(registerArray.ReadReg(PairHigh(PairRegisters[i])));
      var low := ToU16(registerArray.ReadReg(PairLow(PairRegisters[i])));
      PairIsItsBytes(registerArray.Snapshot(), PairRegisters[i]);
      pairsAgree := pairsAgree && pair == (high << 8) + low;
    }
  }
}
