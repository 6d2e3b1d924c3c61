# Intel 8080 emulator core in Dafny

This project models the core of the Rust Intel 8080 emulator
`intel-8080-emu` and proves properties of it. The core has six parts:

- the CPU's arithmetic and logic unit (`src/cpu/alu.rs`): an accumulator,
  five flags and eighteen operations;
- the first, smaller ALU that the repository still ships (`src/alu.rs`);
- the register array (`src/cpu/registers.rs`): PC, SP, the byte registers
  B..L, W, Z and the pairs BC, DE, HL, WZ;
- the 64 KB memory (`src/cpu/memory.rs`);
- the opcode decoder (`src/cpu/instruction.rs`), which knows NOP and the
  ALU block 0x80..0xBF;
- the bit and byte helpers (`src/cpu/utils.rs`).

Bytes are `bv8` and words `bv16`, so every wrap-around of the Rust code is
the bit-vector's own. Each arithmetic fact is stated in unbounded integers
in a separate "meaning" lemma. The Rust `Result<_, String>` becomes
`Results.Result<_>` with an `Error` datatype instead of the message text.

Files:

- `results.dfy` (`Results`): the Option, Result and Error types.
- `binary.dfy` (`Binary`): bit-vector and integer facts, plus `checked_add`,
  `checked_sub` and `count_ones`.
- `utils.dfy` (`Utils`): `get_bits`, `from_bits` and `combine_values`/`separate_values`.
- `registers.dfy` (`Registers`): the register array and its value type.
- `memory.dfy` (`MemoryUnit`): the memory.
- `instruction.dfy` (`Instructions`): the decoder.
- `alu.dfy` (`CpuAlu`): the CPU ALU. Each operation is a function on values,
  and there is a class `Alu` whose methods update the flags as the source
  does.
- `alu_properties.dfy` (`AluProperties`): properties that relate several
  operations or steps: the arithmetic meaning of ADD/ADC/SUB/SBB/CMP, the
  failures of `evaluate`, the rotation cycles and decimal adjustment.
- `alu_scenarios.dfy` (`AluScenarios`): each unit test of `src/cpu/alu.rs`
  as a method that drives a new `Alu` and promises the asserted values.
- `legacy_alu.dfy` (`LegacyAlu`): the ALU of `src/alu.rs` and its tests.

The register and memory tests write random values. Their models quantify
over every input sequence instead.

## Model

| member | source | states |
|---|---|---|
| Binary.CheckedAddMeaning | src/cpu/alu.rs:237 | `checked_add` fails exactly when the true sum exceeds 255; otherwise it returns that sum |
| Binary.CheckedSubMeaning | src/cpu/alu.rs:262 | `checked_sub` fails exactly when y exceeds x; otherwise it returns the difference |
| Binary.SignBit | src/cpu/alu.rs:235 | the sign test `r & 0x80 != 0` holds exactly for the bytes 128..255 |
| Utils.GetBits | src/cpu/utils.rs:6-14 | element j of the array is bit 7 - j of x, each element is 0 or 1, and the array is `BitsOf(x)` |
| Utils.FromBits | src/cpu/utils.rs:17-27 | succeeds exactly when the sum of bits[i] * (0x80 >> i) is below 256 and then returns that sum; otherwise fails with an overflow error |
| Utils.FromBitsOfGetBits | src/cpu/utils.rs:6-27 | from_bits(get_bits(x)) == x: a byte's weighted bits sum to the byte |
| Utils.GetBitsOfFromBits | src/cpu/utils.rs:6-27 | an array of 0/1 bits never overflows in from_bits, and get_bits gives it back |
| Utils.WeightedSumGrows | src/cpu/utils.rs:20-24 | the running sum of from_bits never decreases, so an overflow at one step means the whole sum overflows |
| Utils.CombineValues | src/cpu/utils.rs:33-37 | `combine_values`, the word `(higher << 8) + lower`; its meaning is CombinedValue and its inverse SeparateValues |
| Utils.CombinedValue | src/cpu/utils.rs:33-37 | the combined word is higher * 256 + lower |
| Utils.SeparateValues | src/cpu/utils.rs:43-48 | `separate_values`, the high and low bytes of a word; its meaning is SeparatedValue and its inverse CombineValues |
| Utils.SeparatedValue | src/cpu/utils.rs:43-48 | the two parts are the quotient and the remainder of the word by 256 |
| Utils.SeparateCombined | src/cpu/utils.rs:33-48 | separate_values undoes combine_values |
| Utils.CombineSeparated | src/cpu/utils.rs:33-48 | combine_values undoes separate_values |
| Utils.GetBitsExamples | src/cpu/utils.rs:54-59 | get_bits of 0b11001100 and 0b01011010 gives the test's two arrays |
| Utils.FromBitsExamples | src/cpu/utils.rs:61-66 | from_bits of the test's two arrays succeeds with 0b11001100 and 0b01011010 |
| Utils.CombineSeparateExamples | src/cpu/utils.rs:68-76 | 0xAB and 0xCD combine to 0xABCD, and 0xABCD separates into them |
| Registers.Footprint | src/cpu/registers.rs:48-99 | a pair reads and writes exactly two stored byte registers; every other register is its own field |
| Registers.FromRegId | src/cpu/instruction.rs:32 | register ids 0..5 name B, C, D, E, H, L and no other id is valid; RegId undoes it |
| Registers.FromRegIdOfRegId | src/cpu/instruction.rs:32 | from_reg_id of the id of B..L gives the register back |
| Registers.ToU16 | src/cpu/registers.rs:182-192 | `From<RegisterValue> for u16`, one case per variant; its meaning is ToU16Meaning |
| Registers.TryIntoU8 | src/cpu/registers.rs:169-180 | only a one-byte value converts to u8, to its own byte; any other fails with a width error |
| Registers.ToU16Meaning | src/cpu/registers.rs:182-192 | a byte widens to its number, a pair to high * 256 + low, a word to itself |
| Registers.ConversionsRoundTrip | src/cpu/registers.rs:157-192 | From<u8>/From<u16> and the conversions back give the same number, and a pair's word separates into its two bytes |
| Registers.Read | src/cpu/registers.rs:48-68 | `read_reg` on the register file's value, pairs combined from their two byte fields; stated by ZeroedReadsZero, PairIsItsBytes and the read-after-write lemmas |
| Registers.Write | src/cpu/registers.rs:71-99 | `write_reg` on the register file's value, with the byte conversion, the pair split and the PC/SP error; stated by WriteSucceedsIff, ReadAfterWriteByte, ReadAfterWritePair and WriteFrame |
| Registers.ZeroedReadsZero | src/cpu/registers.rs:32-68 | every register of a new array, pairs included, reads 0 |
| Registers.WriteSucceedsIff | src/cpu/registers.rs:71-99 | a write succeeds exactly for a pair, or for a byte register given one byte; PC and SP refuse any write, and a byte register refuses a wide value |
| Registers.ReadAfterWriteByte | src/cpu/registers.rs:48-82 | a byte written to a byte register reads back |
| Registers.ReadAfterWritePair | src/cpu/registers.rs:48-99 | a pair write stores the high byte of the value's number first and the low byte second, so the pair reads back as the same number |
| Registers.PairIsItsBytes | src/cpu/registers.rs:63-66 | a pair reads as its two byte registers combined, high byte first |
| Registers.WriteFrame | src/cpu/registers.rs:71-99 | a successful write leaves every register it shares no stored field with unchanged |
| Registers.RegisterArray.constructor | src/cpu/registers.rs:32-45 | a new register array holds zero in every field |
| Registers.RegisterArray.WriteReg | src/cpu/registers.rs:71-99 | on success the fields become those of the value-level write; on failure nothing changes |
| Registers.WriteEveryByte | src/cpu/registers.rs:232-240 | after writing bytes[k] to the k-th of B, C, D, E, H, L, W, Z, each reads back its own byte |
| Registers.WriteEveryPair | src/cpu/registers.rs:252-260 | after writing words[k] to the k-th of BC, DE, HL, WZ, each reads back its own word |
| Registers.ReadWriteRoundTrip | src/cpu/registers.rs:221-282 | the register test for every choice of values: each byte and each word reads back, and each pair equals (high << 8) + low of its bytes |
| MemoryUnit.Memory.constructor | src/cpu/memory.rs:13-17 | a new memory has 0x10000 bytes, all zero |
| MemoryUnit.Memory.Read | src/cpu/memory.rs:20-22 | `read`, the byte stored at the address; stated by StoredReadsBack and FreshMemoryIsZero |
| MemoryUnit.Memory.Write | src/cpu/memory.rs:30-32 | the byte at addr becomes value and every other byte stays |
| MemoryUnit.StoredReadsBack | src/cpu/memory.rs:20-32 | a write reads back at its address and leaves every other address as it was |
| MemoryUnit.Address | src/cpu/memory.rs:53 | `i as u16` of an index below 0x10000 is the address with that number |
| MemoryUnit.WriteEveryAddress | src/cpu/memory.rs:49-54 | writing values[i] at every address i in turn leaves the memory equal to values |
| MemoryUnit.ReadEveryAddress | src/cpu/memory.rs:56-61 | reading every address in turn gives the memory's contents |
| MemoryUnit.ReadWriteEveryAddress | src/cpu/memory.rs:40-62 | the memory test for every choice of values: what is read back is what was written |
| MemoryUnit.FreshMemoryIsZero | src/cpu/memory.rs:13-22 | a new memory reads 0 at every address |
| Instructions.FromId | src/cpu/instruction.rs:30-40 | `InstructionSource::from_id`, with its three arms and the unknown-source error; stated by FromIdInverse and FromIdTable |
| Instructions.FromIdInverse | src/cpu/instruction.rs:30-40 | from_id succeeds exactly on 0..7, fails with an unknown-source error otherwise, and is undone by SourceId |
| Instructions.SourceIdInverse | src/cpu/instruction.rs:30-40 | every numbered source comes back from from_id of its id |
| Instructions.FromIdTable | src/cpu/instruction.rs:30-40 | ids 0..5 are registers B..L, 6 is memory at HL and 7 is the accumulator |
| Instructions.AluInstrFromId | src/cpu/instruction.rs:91-107 | `alu_instr_from_id`, eight arms and the unknown-operation error; stated by AluInstrFromIdInverse |
| Instructions.AluInstrFromIdInverse | src/cpu/instruction.rs:91-107 | alu_instr_from_id succeeds exactly on 0..7, keeps both operands and is undone by AluId; other ids fail with an unknown-operation error |
| Instructions.AluIdInverse | src/cpu/instruction.rs:91-107 | every ALU instruction comes back from alu_instr_from_id of its number |
| Instructions.Decode | src/cpu/instruction.rs:60-89 | `decode`: the byte conversion, the NOP pattern, the ALU block and the unknown-instruction error; stated by DecodeSucceedsIff, DecodeAluBlock, DecodeNonByte and the round trips with Encode |
| Instructions.AllZeroBits | src/cpu/instruction.rs:72-74 | the bit pattern [0, 0, 0, 0, 0, 0, 0, 0] matches exactly the byte 0 |
| Instructions.AluBlockBits | src/cpu/instruction.rs:77 | the pattern [1, 0, ...] matches exactly the bytes 0x80..0xBF |
| Instructions.DecodeNop | src/cpu/instruction.rs:72-74 | opcode 0x00 decodes to NOP |
| Instructions.DecodeAluBlock | src/cpu/instruction.rs:60-82 | every opcode 0x80..0xBF decodes to the operation numbered by bits 5..3, with the accumulator first and the source numbered by bits 2..0 second |
| Instructions.DecodeSucceedsIff | src/cpu/instruction.rs:60-89 | an opcode decodes exactly when it is 0x00 or in 0x80..0xBF; any other fails with an unknown-instruction error |
| Instructions.DecodeNonByte | src/cpu/instruction.rs:62 | a value wider than one byte fails with a width error |
| Instructions.DecodeEncode | src/cpu/instruction.rs:60-107 | decoding the opcode of an instruction gives the instruction back |
| Instructions.EncodeDecode | src/cpu/instruction.rs:60-107 | every opcode that decodes is the opcode of what it decodes to |
| Instructions.DecodeArithmeticExamples | src/cpu/instruction.rs:115-150 | 0x80, 0x89, 0x92, 0x9B decode to ADD B, ADC C, SUB D, SBB E |
| Instructions.DecodeLogicExamples | src/cpu/instruction.rs:152-189 | 0xA4, 0xAD, 0xB6, 0xBF decode to ANA H, XRA L, ORA M, CMP A |
| CpuAlu.EvaluateCondition | src/cpu/alu.rs:41-54 | `evaluate_condition`, one arm per condition; stated by ConditionsReadOneFlag |
| CpuAlu.AddResult | src/cpu/alu.rs:224-246 | `add` on values: the carried operand, the wrapping sum and the five flags; stated by SumMeaning and AddResultMeaning |
| CpuAlu.SubResult | src/cpu/alu.rs:249-271 | `sub` on values; stated by DifferenceMeaning and SubResultMeaning |
| CpuAlu.IncDecResult | src/cpu/alu.rs:274-288 | `inc_dec` on values: add or sub of 1, then the old carry put back; stated by IncDecMeaning |
| CpuAlu.IncDec16 | src/cpu/alu.rs:291-298 | `inc_dec16`, the wrapping u16 step; stated by IncDec16Meaning and IncDec16Inverse |
| CpuAlu.DecimalAdjustResult | src/cpu/alu.rs:302-324 | `decimal_adjust` on values, step 2 applied to what step 1 left; stated by LowStep, HighStep and the BCD lemmas |
| CpuAlu.AndResult | src/cpu/alu.rs:327-337 | `bitwise_and` on values; stated by AndBits and LogicFlagsMeaning |
| CpuAlu.XorResult | src/cpu/alu.rs:340-350 | `bitwise_xor` on values; stated by XorBits and LogicFlagsMeaning |
| CpuAlu.OrResult | src/cpu/alu.rs:353-363 | `bitwise_or` on values; stated by OrBits and LogicFlagsMeaning |
| CpuAlu.RotateResult | src/cpu/alu.rs:366-397 | `rotate` on values; stated by RotateMeaning and the rotation lemmas |
| CpuAlu.Evaluated | src/cpu/alu.rs:124-221 | `evaluate` on values: the operand conversions, the dispatch and the result; stated by EvaluatedFailures and the per-operation lemmas |
| CpuAlu.CarriedOperandValue | src/cpu/alu.rs:226-229 | ADC and SBB see y + 1 modulo 256 when the carry is set; otherwise they see y |
| CpuAlu.FlagsOfMeaning | src/cpu/alu.rs:234-236 | Z says the result is 0, S says it is 128 or more, P says it has an even number of one bits |
| CpuAlu.SumMeaning | src/cpu/alu.rs:231-245 | the sum is x + y modulo 256; CY says x + y exceeds 255; AC says the low nibbles sum to 16 or more |
| CpuAlu.DifferenceMeaning | src/cpu/alu.rs:256-270 | the difference is x - y modulo 256; CY says y exceeds x; AC says the low nibble of y exceeds that of x |
| CpuAlu.IncDecMeaning | src/cpu/alu.rs:274-288 | INR/DCR move the byte by one modulo 256, keep CY, and set AC exactly when the low nibble wraps |
| CpuAlu.IncDec16Meaning | src/cpu/alu.rs:291-298 | INX/DCX add or subtract one, wrapping at 0xFFFF and 0 |
| CpuAlu.LowStep | src/cpu/alu.rs:311-315 | step 1 of DAA adds 6, with the flags of that add, exactly when the low nibble is above 9 or AC is set, and otherwise changes nothing |
| CpuAlu.HighStep | src/cpu/alu.rs:317-321 | step 2 of DAA adds 0x60, with the flags of that add, exactly when the high nibble is above 9 or CY is set, and otherwise changes nothing |
| CpuAlu.DecimalAdjustSteps | src/cpu/alu.rs:311-321 | step 1 adds 6 exactly when the low nibble is above 9 or AC is set; step 2 adds 0x60 exactly when the high nibble after step 1 is above 9 or CY, as step 1 left it, is set |
| CpuAlu.LogicFlagsMeaning | src/cpu/alu.rs:327-363 | AND, XOR and OR clear CY and AC and set Z, S, P from the result |
| CpuAlu.AndBits | src/cpu/alu.rs:327-337 | each bit of the AND is the AND of the operands' bits |
| CpuAlu.XorBits | src/cpu/alu.rs:340-350 | each bit of the XOR is the XOR of the operands' bits |
| CpuAlu.OrBits | src/cpu/alu.rs:353-363 | each bit of the OR is the OR of the operands' bits |
| CpuAlu.RotateMeaning | src/cpu/alu.rs:366-397 | RLC/RRC rotate the byte and copy the bit shifted out into CY; RAL/RAR rotate the nine bits CY:byte by one place; no other flag changes |
| CpuAlu.ComplementResult | src/cpu/alu.rs:400-402 | CMA gives 255 - x, every bit inverted |
| CpuAlu.Alu.constructor | src/cpu/alu.rs:91-96 | a new ALU holds the byte 0 with every flag clear |
| CpuAlu.Alu.WriteAccumulator | src/cpu/alu.rs:104-115 | only a one-byte value is written; any other fails with a width error and leaves the accumulator |
| CpuAlu.Alu.Add | src/cpu/alu.rs:224-246 | the result and the new flags are AddResult of the old flags |
| CpuAlu.Alu.Sub | src/cpu/alu.rs:249-271 | the result and the new flags are SubResult of the old flags |
| CpuAlu.Alu.IncDec | src/cpu/alu.rs:274-288 | an ADD or SUB of 1 with the carry put back gives IncDecResult |
| CpuAlu.Alu.DecimalAdjust | src/cpu/alu.rs:302-324 | the two conditional adds give DecimalAdjustResult of the old flags |
| CpuAlu.Alu.BitwiseAnd | src/cpu/alu.rs:327-337 | the flags assigned one by one are AndResult's |
| CpuAlu.Alu.BitwiseXor | src/cpu/alu.rs:340-350 | the flags assigned one by one are XorResult's |
| CpuAlu.Alu.BitwiseOr | src/cpu/alu.rs:353-363 | the flags assigned one by one are OrResult's |
| CpuAlu.Alu.Rotate | src/cpu/alu.rs:366-397 | the byte and the carry are RotateResult's |
| CpuAlu.Alu.Evaluate | src/cpu/alu.rs:124-221 | on failure nothing changes; on success the result and flags are Evaluated's, and the accumulator takes the result exactly when there is one |
| AluProperties.ConditionsReadOneFlag | src/cpu/alu.rs:41-54 | each condition reads one flag, and NZ/Z, NC/C, PO/PE, P/M are complementary pairs |
| AluProperties.CarryOperations | src/cpu/alu.rs:205-212 | STC sets CY only, CMC flips CY only, and CMC twice gives the flags back |
| AluProperties.AddResultMeaning | src/cpu/alu.rs:224-246 | ADD/ADC: with y' as ADC sees it, the result is x + y' modulo 256, CY says x + y' > 255, and AC says the low nibbles of x and y' sum to 16 or more |
| AluProperties.SubResultMeaning | src/cpu/alu.rs:249-271 | SUB/SBB: the result is x - y' modulo 256, CY says y' > x, and AC says the low nibble of y' exceeds that of x |
| AluProperties.ComparisonEvaluated | src/cpu/alu.rs:196-199 | CMP returns nothing and leaves the flags of SUB |
| AluProperties.ComparisonFlags | src/cpu/alu.rs:196-199 | after CMP, Z says the operands are equal and CY says the first is below the second |
| AluProperties.EvaluatedFailures | src/cpu/alu.rs:124-221 | evaluate fails exactly when a two-operand operation gets a wide operand (width error), or a one-operand operation other than INR/DCR gets a wide operand (panic) |
| AluProperties.WordIncrement | src/cpu/alu.rs:174-182 | a 16-bit increment changes no flag and gives a 16-bit result |
| AluProperties.WordDecrement | src/cpu/alu.rs:183-191 | a 16-bit decrement changes no flag and gives a 16-bit result |
| AluProperties.IncDec16Inverse | src/cpu/alu.rs:291-298 | INX and DCX undo each other |
| AluProperties.PairIncDec | src/cpu/alu.rs:145-191 | a register pair is widened to its number before INX/DCX, and no flag changes |
| AluProperties.PairIncDecValue | src/cpu/alu.rs:291-298 | INX/DCX of a pair give high * 256 + low plus or minus one, modulo 0x10000 |
| AluProperties.ComplementInvolution | src/cpu/alu.rs:400-402 | CMA changes no flag, and applying it twice gives the byte back |
| AluProperties.PlainRotations | src/cpu/alu.rs:366-397 | n RLC (RRC) rotate the byte n places, and CY holds the bit the last rotation moved out |
| AluProperties.CarryRotations | src/cpu/alu.rs:366-397 | n RAL (RAR) rotate the nine bits CY:byte n places, and no other flag changes |
| AluProperties.PlainRotationsCycle | src/cpu/alu.rs:366-397 | eight RLC (RRC) give the byte back, with bit 0 (bit 7) in CY |
| AluProperties.CarryRotationsCycle | src/cpu/alu.rs:366-397 | nine RAL (RAR) give the byte and every flag back |
| AluProperties.PackInjective | src/cpu/alu.rs:366-397 | the nine bits CY:byte determine both the carry and the byte |
| AluProperties.DecimalAdjustAfterAdd | src/cpu/alu.rs:302-324 | ADD of two BCD bytes followed by DAA gives a BCD byte. Its value is the decimal sum modulo 100 exactly when the binary sum is below 256 or the low digits sum to less than 10; otherwise it is the decimal sum less 160 |
| AluProperties.DecimalCarryAfterAdd | src/cpu/alu.rs:302-324 | for every two BCD bytes, CY after ADD and DAA is set exactly when the decimal sum is 100 or more and the binary sum is at most 0xF9 |
| AluProperties.WrappedSumAdjusted | src/cpu/alu.rs:311-321 | when the ADD of two BCD bytes carries out of the byte, DAA ends with CY clear and a BCD byte worth the decimal sum less 100 (low digits below 10) or less 160 (low digits 10 or more) |
| AluProperties.DecimalAdjustExamples | src/cpu/alu.rs:697-751 | 05 + 03, 15 + 27 and 99 + 01 adjust to 08, 42 and 00 with the test's flags |
| AluProperties.DecimalAdjustLosesCarry | src/cpu/alu.rs:302-324 | 0x99 + 0x99 sets CY, yet DAA gives 0x38 with CY clear |
| AluProperties.DecimalAdjustCarryOutOfStep1 | src/cpu/alu.rs:302-324 | 0x99 + 0x61 adjusts to 0x60 with CY clear |
| AluProperties.AddCarryOfFullByte | src/cpu/alu.rs:224-246 | ADC 0x01 + 0xFF with CY set gives 0x01 with every flag clear |
| AluProperties.SubBorrowOfFullByte | src/cpu/alu.rs:249-271 | SBB 0x01 - 0xFF with CY set gives 0x01 with every flag clear |
| AluScenarios.AccumulatorIsSet | src/cpu/alu.rs:410-423 | ADD 1 + 1 returns 2 and leaves 2 in the accumulator |
| AluScenarios.AdditionSteps | src/cpu/alu.rs:426-481 | each ADD of the test, from the flags the one before it left, gives the asserted byte and flags |
| AluScenarios.Addition | src/cpu/alu.rs:426-481 | on one new ALU the four ADDs return 0, 20, 1, 128 with the asserted flags |
| AluScenarios.AdditionWithCarrySteps | src/cpu/alu.rs:484-513 | each ADC of the test gives the asserted byte and flags |
| AluScenarios.AdditionWithCarry | src/cpu/alu.rs:484-513 | ADC 240 + 16 returns 0 with CY set, and then ADC 1 + 1 returns 3 |
| AluScenarios.SubtractionSteps | src/cpu/alu.rs:516-558 | each SUB of the test gives the asserted byte and flags |
| AluScenarios.Subtraction | src/cpu/alu.rs:516-558 | the three SUBs return 4, 244, 255 with the asserted flags |
| AluScenarios.SubtractionWithBorrowSteps | src/cpu/alu.rs:561-590 | each SBB of the test gives the asserted byte and flags |
| AluScenarios.SubtractionWithBorrow | src/cpu/alu.rs:561-590 | SBB 1 - 2 returns 255 with CY set, and then SBB 100 - 49 returns 50 |
| AluScenarios.IncrementsSteps | src/cpu/alu.rs:593-616 | each INR of the test gives the asserted byte and flags |
| AluScenarios.Increments | src/cpu/alu.rs:593-616 | INR 15 returns 16 with AC, and INR 255 returns 0 with Z, P, AC and CY untouched |
| AluScenarios.DecrementsSteps | src/cpu/alu.rs:619-642 | each DCR of the test gives the asserted byte and flags |
| AluScenarios.Decrements | src/cpu/alu.rs:619-642 | DCR 16 returns 15, and DCR 0 returns 255, with the asserted flags |
| AluScenarios.WordIncrements | src/cpu/alu.rs:645-668 | 16-bit INX of 255 and 65535 return 256 and 0 and leave the flags clear |
| AluScenarios.WordDecrements | src/cpu/alu.rs:671-694 | 16-bit DCX of 256 and 0 return 255 and 65535 and leave the flags clear |
| AluScenarios.AddThenAdjust | src/cpu/alu.rs:697-751 | ADD x + y and DAA of its result give AddAdjusted's byte and flags |
| AluScenarios.DecimalAdjustment | src/cpu/alu.rs:697-751 | the three ADD-then-DAA steps return 0x08, 0x42, 0x00 with the asserted flags |
| AluScenarios.ConjunctionsSteps | src/cpu/alu.rs:754-783 | each ANA of the test gives the asserted byte and flags |
| AluScenarios.Conjunctions | src/cpu/alu.rs:754-783 | 0x37 AND 0xF0 returns 0x30, and 0xFF AND 0 returns 0 with Z |
| AluScenarios.ExclusiveDisjunctionsSteps | src/cpu/alu.rs:786-815 | each XRA of the test gives the asserted byte and flags |
| AluScenarios.ExclusiveDisjunctions | src/cpu/alu.rs:786-815 | 0x55 XOR 0xFF returns 0xAA, and 0xAB XOR 0xAB returns 0 |
| AluScenarios.DisjunctionsSteps | src/cpu/alu.rs:818-847 | each ORA of the test gives the asserted byte and flags |
| AluScenarios.Disjunctions | src/cpu/alu.rs:818-847 | 0x55 OR 0xAA returns 0xFF, and 0x3A OR 0x4A returns 0x7A |
| AluScenarios.ComparisonsSteps | src/cpu/alu.rs:850-892 | each CMP of the test gives no result and the asserted flags |
| AluScenarios.Comparisons | src/cpu/alu.rs:850-892 | CMP of 5/5, 6/5, 4/5 returns nothing, with Z for equal and CY for below |
| AluScenarios.RotationOperation | src/cpu/alu.rs:73-76 | the rotation operation of each direction and kind is a one-operand operation on its operand |
| AluScenarios.RotationEvaluated | src/cpu/alu.rs:200-203 | evaluate of a rotation of a byte gives RotateResult |
| AluScenarios.RotateRepeatedly | src/cpu/alu.rs:895-1052 | feeding each rotation's result to the next, n times, gives the byte and flags of n rotations |
| AluScenarios.LeftRotations | src/cpu/alu.rs:895-926 | eight RLC of 1 return 1 with CY set, and RLC 0x55 returns 0xAA |
| AluScenarios.RightRotations | src/cpu/alu.rs:929-958 | eight RRC of 1 return 1 with CY clear, and RRC 0xAA returns 0x55 |
| AluScenarios.LeftCarryRotationsSteps | src/cpu/alu.rs:961-1005 | RAL 0xAA gives 0x54 with CY, and RAL 0x54 then gives 0xA9 |
| AluScenarios.LeftCarryRotations | src/cpu/alu.rs:961-1005 | nine RAL of 1 return 1 with CY clear, then 0x54 with CY set and 0xA9 with CY clear |
| AluScenarios.RightCarryRotationsSteps | src/cpu/alu.rs:1008-1052 | RAR 0x55 gives 0x2A with CY, and RAR 0x2A then gives 0x95 |
| AluScenarios.RightCarryRotations | src/cpu/alu.rs:1008-1052 | nine RAR of 1 return 1 with CY clear, then 0x2A with CY set and 0x95 with CY clear |
| AluScenarios.ComplementTest | src/cpu/alu.rs:1055-1080 | CMA of 0x55 and 0xF0 return 0xAA and 0x0F and leave the flags clear |
| AluScenarios.CarryFlagTests | src/cpu/alu.rs:1083-1107 | STC sets CY, CMC clears it and CMC sets it again, each with no result |
| LegacyAlu.Outcome | src/alu.rs:76-134 | the old `evaluate` on values, add or sub with or without the carry; stated by AgreesWithCpuAlu and OnlyCarryIsRead |
| LegacyAlu.Alu.Flags | src/alu.rs:70-72 | `flags`, the flags as they are |
| LegacyAlu.AgreesWithCpuAlu | src/alu.rs:76-134 | the old ALU's evaluate and the CPU ALU's evaluate of the same operation on bytes give the same byte and flags |
| LegacyAlu.OnlyCarryIsRead | src/alu.rs:88-134 | evaluate reads no flag but CY, and only ADC and SBB read that one |
| LegacyAlu.Alu.constructor | src/alu.rs:60-67 | a new ALU has every register zero and every flag clear |
| LegacyAlu.Alu.Evaluate | src/alu.rs:76-134 | the result and the new flags are those of add or sub; the accumulator and the temporary registers do not change |
| LegacyAlu.Addition | src/alu.rs:142-177 | the four ADDs return 0, 20, 1, 128 with the asserted flags |
| LegacyAlu.AdditionWithCarry | src/alu.rs:180-199 | ADC 240 + 16 returns 0 with CY set, and then ADC 1 + 1 returns 3 |
| LegacyAlu.Subtraction | src/alu.rs:202-229 | the three SUBs return 4, 244, 255 with the asserted flags |
| LegacyAlu.SubtractionWithBorrow | src/alu.rs:232-251 | SBB 1 - 2 returns 255, and then SBB 100 - 49 returns 50 |

## Where the code departs from the 8080

The model follows the code as written. Proving the 8080's documented
behaviour exposed four departures, each pinned by a lemma:

- **DAA loses the carry of the preceding ADD.** Step 1 is a full `add`, so
  it overwrites CY. Step 2 then tests the carry of step 1, not that of the
  ADD, and the carry out of DAA is that of its last add. Take 0x99 + 0x99:
  the ADD sets CY, and DAA gives 0x38 with CY clear, where decimal
  arithmetic gives 98 and a carry (`AluProperties.DecimalAdjustLosesCarry`).
  When the binary sum of two BCD bytes is 256 or more, CY always ends clear.
  The digits are still right when the low digits sum to less than 10: the
  kept carry makes step 2 add 0x60, so 0x90 + 0x90 gives 0x80. When the
  low digits sum to 10 or more, step 1 clears the carry and step 2 is
  skipped, so the digits are 60 short, as with 0x99 + 0x99
  (`AluProperties.DecimalAdjustAfterAdd`, `AluProperties.WrappedSumAdjusted`).
- **DAA can clear the carry of step 1.** For example 0x99 + 0x61 = 0xFA.
  Step 1 carries out of the byte, step 2 adds 0x60 without a carry, and
  CY ends clear (`AluProperties.DecimalAdjustCarryOutOfStep1`). CY after
  DAA is set exactly when the decimal sum is 100 or more and the binary
  sum is at most 0xF9 (`AluProperties.DecimalCarryAfterAdd`).
- **ADC/SBB with y = 0xFF and CY set.** The carry is added to y with
  wrap-around before the operation, so the operand becomes 0. The carry
  out is then clear (`AluProperties.AddCarryOfFullByte`,
  `AluProperties.SubBorrowOfFullByte`). AC is likewise computed from the
  wrapped operand.
- **AND clears AC** like XOR and OR. On the 8080, ANA sets AC from bit 3 of its operands.

## Left out

- `src/cpu.rs`, `src/main.rs`, `src/arguments.rs`, `src/cp_m.rs` and the debug
  menu: they drive the core and draw it, and are not part of this model.
- `Memory::get_mut`: it returns a mutable reference into the array, which
  Dafny cannot express. `Write` models its only use, storing through it.
- `Register::get_human_readable_name` and every error message text: errors
  are constructors of `Results.Error`.
- `Register::from_reg_id`, `MemorySize`, `InstructionCondition` and
  `RegisterValue::n_bytes` are used but not defined in the modelled files.
  For the first three the model uses the 8080's own numbering and names.
  `MemorySize` keeps only the one-byte case decoding uses, named `Byte`
  because `Integer8` is already a `RegisterValue` constructor.
- The private `combine_values`/`separate_values` of `src/cpu/registers.rs` are
  the same code as those of `src/cpu/utils.rs`, and the model uses the latter.
- The selection values `rp`, `cc` and `n` of `Instruction::decode`: they are
  computed but unused.
- Panics: an `unwrap` of a missing byte in `evaluate` is modelled as
  `Err(Panic)` with no state change.
- Utils.FromBits: models the debug build, where the plain u8 `*` and `+=`
  of `from_bits` panic on overflow; that panic is `Err(ArithmeticOverflow)`.
  The wrap-around of a release build is not modelled. Only its test calls
  `from_bits`.
- Random test values: the register and memory tests are modelled for every
  choice of values, passed as parameters.
- `u8::count_ones` is modelled as the sum of the eight bits.
- `Alu::accumulator`, `Alu::flags` (and the old ALU's `flags`): plain field
  reads, except the old ALU's, which is `LegacyAlu.Alu.Flags`.
- The old ALU's `temporary_accumulator` and `temporary_register` are set
  by `new` and never used again. The old `ALUFlags` has the same five
  fields as the CPU's, and the model shares `CpuAlu.AluFlags`.
- CpuAlu.Alu.Add: assigns the five flags at once from AddResult rather than
  one by one. No caller can observe the order.
- CpuAlu.Alu.Sub: assigns the five flags at once from SubResult, for the same reason.
- LegacyAlu.Alu.Evaluate: assigns the flags at once from AddResult or
  SubResult, as `CpuAlu.Alu.Add` does.
