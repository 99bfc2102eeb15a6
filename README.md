# A verified model of the quick_nes 6502 CPU core

The project models the CPU core of a small 6502-style emulator. The core is the C file
`cpu.c`, together with the types it declares in `cpu.h`. The CPU has:

- an accumulator A and index registers X and Y, all `uchar`;
- a status byte with Carry in bit 0, Zero in bit 1, Overflow in bit 6 and Negative in bit 7;
- a `ushort` program counter;
- a memory of `MEMORY_SIZE` = 0xFFFF cells.

The core turns opcodes into descriptors (`cpu_turn_op_into_instruction_set`). It resolves
addressing modes, executes LDA, TAX, INX, INY, STA, AND and ADC, and runs a
fetch-decode-execute loop until BRK. `cpu_load_and_run` places a program at 0x8000, points the
reset vector at 0xFFFC to it, resets the registers and runs the loop.

The model has two layers.

- **Value layer.** The modules `CpuTypes`, `Flags`, `Memory`, `Opcodes`, `Addressing` and
  `Machine` describe the machine as a value (`Machine.State`). Every C function becomes a
  function on that value. The lemmas state what those functions promise:
  - the flag algebra;
  - the little-endian word round trip;
  - the byte-level meaning of each addressing mode;
  - the ADC arithmetic;
  - how far pc advances;
  - that a run never writes memory;
  - how runs compose with fuel.
- **Object layer.** The module `Emulator` holds the class `Cpu`. Its fields mirror the C struct,
  and its memory is an `array`. Its methods update the object in place, as the C functions do.
  Each mutating method is proved equal to the matching value-layer function: the instruction,
  reset, load and run methods end in `Snapshot() == Machine.F(old(Snapshot()))`, the flag helpers
  in `status == Flags.F(old(status))`, and the memory writers in `memory[..] == Write…/WriteWord…`
  of the old contents. The queries (`ReadMemory`, `ReadMemoryWord`, `GetOperandAddress`) return
  what the matching function computes.

The module `Scenarios` runs the eight programs of the repository's test driver `main.c` through
the value layer. It proves the register and flag values that each test asserts.

### Modelling choices

- `uchar` and `ushort` are the integer ranges `Byte` and `Word`. Every place where C truncates
  is written out explicitly:
  - `reg_x + 1` and `reg_y + 1` stored into a `uchar`: 0xFF becomes 0 (an `if` in `Machine.Inx`
    and `Machine.Iny`, `% 256` in the class);
  - `pos + 1` passed as a `ushort` (`% 0x1_0000`);
  - `pc + bytes - 1` stored into a `ushort` (`% 0x1_0000`);
  - the zero-page and indexed sums (`% 256`).

  The status byte is only ever masked, so it is a `bv8`.
- The memory has 0xFFFF cells, so address 0xFFFF is one past the end of the C array. The C code
  would index out of bounds in three cases:
  - fetching an opcode at pc 0xFFFF;
  - reading any operand byte at 0xFFFF: the byte after an opcode at 0xFFFE (for every mode that
    reads an operand, the absolute ones included), or the high byte of an absolute operand word
    that starts at 0xFFFE;
  - an operand that resolves to 0xFFFF.

  In each case the model stops the run with the outcome `OutOfBounds`. C has no such check.
- `cpu_run` loops forever until BRK. The model's `Run` takes `fuel`, the largest number of loop
  turns it may make, and reports `OutOfFuel` when that is used up.

### Where the code departs from the 6502

Where the code departs from the 6502 behaviour it imitates, the model follows the code.

- **ADC overflow.**
  - Code: Overflow is set exactly when the truncated sum is above 127 (`cpu.c:259-263`).
  - 6502: the signed-overflow rule.
- **ADC Zero and Negative.**
  - Code: Zero and Negative describe A as it was *before* the addition (`cpu.c:264`).
  - 6502: they describe the result.
  - The driver's tests expect the code's behaviour (`main.c:74-75`).
- **Initial status byte.**
  - Code: 0 after `make_cpu` and after `cpu_reset` (`cpu.c:15`, `cpu.c:100`).
  - 6502: bit 5 is set.
- **Unknown opcodes.**
  - Code: they decode to the zeroed descriptor, which is BRK, so the loop stops (`cpu.c:62-65`).
  - 6502: every other opcode is an instruction of its own; this table covers a subset.
- **ADC addressing mode.**
  - Code: every ADC opcode is tagged with the immediate mode, whatever its opcode (`cpu.c:30-37`).
- **AbsoluteX and AbsoluteY.**
  - Code: they keep only the low byte of the operand word, and they truncate the indexed sum to
    a `uchar` (`cpu.c:135-136`).

## Model

| member | source | states |
|---|---|---|
| CpuTypes.InstructionOfOrdinal | cpu.h:21-30 | the enumerator with numeric value n has that value: the enumeration order of INSTRUCTION |
| CpuTypes.ModeOfOrdinal | cpu.h:32-44 | the addressing-mode enumerator with numeric value n has that value: the order of ADDRESS_MODE |
| CpuTypes.OrdinalsAreInjective | cpu.h:21-44 | distinct enumerators have distinct numeric values, in both enumerations |
| CpuTypes.InstructionCase | cpu.h:10-19 | the `instruction_case` macro's descriptor; no contract of its own: the table entries built with it are described by `Opcodes.TableWellFormed` and `Opcodes.DecodeModes` |
| CpuTypes.ZeroedIsBrk | cpu.c:64 | the zero-initialised descriptor (the constant `CpuTypes.Zeroed`) is BRK in accumulator mode with opcode, length and cycles 0 |
| Flags.SetOverflow | cpu.c:166-169 | Overflow is set afterwards and no other bit changes |
| Flags.ClearOverflow | cpu.c:171-174 | Overflow is clear afterwards and no other bit changes |
| Flags.SetCarry | cpu.c:176-179 | Carry is set afterwards and no other bit changes |
| Flags.ClearCarry | cpu.c:181-184 | Carry is clear afterwards and no other bit changes |
| Flags.ZeroAndNegative | cpu.c:186-199 | Zero holds iff the byte is 0; Negative holds iff the byte is at least 0x80; every other bit is kept |
| Flags.SignBitIsHighHalf | cpu.c:194 | the mask test `result & 0b10000000` is true exactly for bytes of at least 0x80 |
| Flags.SingleBitHelpersIdempotent | cpu.c:166-184 | setting or clearing Carry or Overflow twice gives the same byte as doing it once |
| Flags.ZeroAndNegativeIgnoresPriorFlags | cpu.c:186-199 | the update's result does not depend on the previous Zero and Negative bits |
| Flags.ZeroAndNegativeIdempotent | cpu.c:186-199 | applying the zero/negative update twice with the same byte equals applying it once |
| Memory.Read | cpu.c:70-73 | the byte in the addressed cell; no contract of its own: `Memory.ReadAfterWrite` and `Memory.ReadWord` state what it returns |
| Memory.Write | cpu.c:75-78 | the addressed cell holds the new byte and every other cell is unchanged |
| Memory.ReadAfterWrite | cpu.c:70-78 | a read after a write returns the written byte at that address and the old byte elsewhere |
| Memory.LittleEndian | cpu.c:84 | the composed word has low byte `lo` and high byte `hi` |
| Memory.ReadWord | cpu.c:80-85 | the word's low byte is the cell at pos; its high byte is the cell at pos + 1, wrapping as a ushort |
| Memory.WriteWord | cpu.c:87-93 | the low byte goes to pos and the high byte to pos + 1 (wrapping); all other cells are unchanged |
| Memory.WordRoundTrip | cpu.c:80-93 | reading back a word just written at the same position returns that word |
| Memory.WriteWordOfReadWord | cpu.c:80-93 | writing back the word just read leaves memory unchanged |
| Memory.Copy | cpu.c:108 | the block at the origin holds the program and every cell outside it is unchanged |
| Opcodes.Decode | cpu.c:23-68 | `cpu_turn_op_into_instruction_set`: the entry of the constant map `Opcodes.Table` (one entry per case, cpu.c:28-61) or the zeroed descriptor; no contract of its own: its meaning is stated by `Opcodes.TableWellFormed`, `Opcodes.DecodeBrk`, `Opcodes.DecodeModes` and `Opcodes.DecodeNeverAsl` |
| Opcodes.TableWellFormed | cpu.c:23-68 | each table opcode's descriptor records that opcode and is 1 to 3 bytes long; any other opcode decodes to the zeroed descriptor |
| Opcodes.DecodeBrk | cpu.c:28-65 | a descriptor is BRK exactly when the opcode is 0x00 or has no case in the switch |
| Opcodes.DecodeNeverAsl | cpu.c:23-68 | no opcode decodes to ASL |
| Opcodes.DecodeModes | cpu.c:28-61 | TAX, INX, INY and the BRK entry for opcode 0x00 are one byte long with no operand; every ADC opcode carries the immediate mode |
| Addressing.OperandAddress | cpu.c:112-164 | the resolver `cpu_get_operand_address` itself; no contract of its own: its meaning is stated by `Addressing.OperandAddressResolves` and the three lemmas below it |
| Addressing.OperandAddressResolves | cpu.c:112-164 | the resolved address meets each mode's byte-level meaning (see the list after this table) |
| Addressing.ZeroPageModesStayInZeroPage | cpu.c:118-143 | the zero-page modes, both absolute-indexed modes and the operand-less modes yield an address below 256 |
| Addressing.AbsoluteIndexedIgnoresHighByte | cpu.c:134-143 | AbsoluteX and AbsoluteY give the same address whatever the high operand byte holds |
| Addressing.IndirectModesAgreeWithoutIndex | cpu.c:144-158 | with X and Y both 0, the two indirect modes resolve to the same address |
| Machine.Lda | cpu.c:201-207 | A becomes the operand byte and Zero/Negative describe it; X, Y, pc, memory and the other flag bits are unchanged |
| Machine.Tax | cpu.c:209-213 | X becomes A and Zero/Negative describe it; everything else is unchanged |
| Machine.Inx | cpu.c:215-220 | X becomes X + 1 modulo 256, so it is 0 exactly when X was 0xFF; Zero/Negative describe the new X; everything else is unchanged |
| Machine.Iny | cpu.c:222-227 | the same as INX, for Y |
| Machine.Sta | cpu.c:229-233 | the operand cell becomes A; every other cell, every register and the status byte are unchanged |
| Machine.BitAnd | cpu.c:238 | the C `&` of two bytes; no contract of its own: `Machine.And` states the result as the bitwise AND of the two bytes |
| Machine.And | cpu.c:235-241 | A becomes the bitwise AND of A and the operand; Zero/Negative describe the new A; everything else is unchanged |
| Machine.CarryIn | cpu.c:249-251 | the carry added by ADC is 1 exactly when Carry is set, and 0 otherwise |
| Machine.Adc | cpu.c:243-266 | `cpu_instruction_ADC`: the operand byte is read and `Machine.AddWithCarry` applied; no contract of its own: its meaning is stated by `Machine.AdcResult` and `Machine.AdcOverflowIsThreshold` |
| Machine.AddWithCarry | cpu.c:247-265 | the arithmetic of ADC once the operand byte is known, step by step as in C; no contract of its own: `Machine.AdcInSteps` and `Machine.AdcResult` state its result |
| Machine.AdcResult | cpu.c:243-266 | ADC's effect as written (see the list after this table) |
| Machine.AdcOverflowIsThreshold | cpu.c:259-263 | the Overflow rule is not signed overflow: 0x80 + 0x01 sets it and 0x80 + 0x80 clears it |
| Machine.AdcInSteps | cpu.c:247-265 | carry from the full sum, then overflow from the truncated sum, then zero/negative from the old A, give ADC's final state |
| Machine.Reset | cpu.c:95-103 | the registers and the status byte become 0; pc is the little-endian word at 0xFFFC; memory is unchanged |
| Machine.Load | cpu.c:105-110 | a program that does not fit changes nothing; otherwise every program byte lies at 0x8000 + i except where the vector at 0xFFFC/0xFFFD, which reads 0x8000, overwrites it (so the last byte of a 0x7FFF-byte program stays at 0xFFFE); the other cells and all registers are unchanged |
| Machine.LoadedProgramBytes | cpu.c:108-109 | after the copy and the vector write, every program byte that is not at 0xFFFC or 0xFFFD sits at 0x8000 + i, including 0xFFFE for a 0x7FFF-byte program |
| Machine.LoadThenResetStartsAtProgram | cpu.c:306-309 | after a load that fits, reset sets pc to 0x8000 |
| Machine.Advance | cpu.c:277 | `pc + bytes - 1` stored into a ushort; no contract of its own: `Machine.ExecuteAdvancesPc` and `Machine.StepAdvancesPc` state the resulting pc |
| Machine.Step | cpu.c:271-272 | one turn of the loop: fetch the opcode at pc (or fault at 0xFFFF), decode it, move pc past it and execute; no contract of its own: its meaning is stated by `Machine.StepAdvancesPc`, `Machine.BrkHalts` and `Machine.StepKeepsMemory` |
| Machine.Execute | cpu.c:274-302 | the switch of the loop on a decoded instruction; no contract of its own: `Machine.ExecuteAdvancesPc` states how it moves pc and `Machine.StepKeepsMemory` that it keeps memory |
| Machine.Run | cpu.c:268-304 | `cpu_run` bounded by fuel; no contract of its own: its meaning is stated by `Machine.RunContinues`, `Machine.RunHalts`, `Machine.RunFaults`, `Machine.RunKeepsMemory`, `Machine.RunMoreFuel` and `Machine.RunResumes` |
| Machine.Proceed | cpu.c:270-303 | the rest of a run after one turn; no contract of its own: `Machine.ProceedMoreFuel` and `Machine.ProceedResumes` state its fuel properties |
| Machine.LoadAndRun | cpu.c:306-311 | `cpu_load_and_run`: load, reset, run; no contract of its own: `Machine.LoadThenResetStartsAtProgram` and `Scenarios.BootState` state where the run starts, and the `Run` lemmas what follows |
| Machine.RunContinues | cpu.c:270-303 | a turn that executes an instruction passes the remaining fuel to the next state |
| Machine.RunHalts | cpu.c:283-285 | a turn that meets BRK ends the run as Halted, whatever fuel is left |
| Machine.RunFaults | cpu.c:271 | a turn that would index past the memory array ends the run as OutOfBounds |
| Machine.ExecuteAdvancesPc | cpu.c:274-302 | after its opcode is consumed, each executed instruction moves pc by its length minus one, as a ushort |
| Machine.StepAdvancesPc | cpu.c:270-302 | one executed turn moves pc forward by exactly the decoded length, modulo 65536 |
| Machine.BrkHalts | cpu.c:283-285 | on opcode 0x00, or any opcode outside the table, the run halts with pc one past it and nothing else changed |
| Machine.StepKeepsMemory | cpu.c:270-302 | no turn of the loop writes memory |
| Machine.RunKeepsMemory | cpu.c:268-304 | a whole run leaves memory as it found it |
| Machine.RunMoreFuel | cpu.c:268-304 | once a run halts or faults by itself, more fuel gives the same result |
| Machine.ProceedMoreFuel | cpu.c:268-304 | the same property for the remainder of a run after one turn |
| Machine.RunResumes | cpu.c:268-304 | running f1 turns and then f2 more equals running f1 + f2 turns |
| Machine.ProceedResumes | cpu.c:268-304 | the same property for the remainder of a run after one turn |
| Scenarios.BootState | cpu.c:306-309 | after load and reset: pc is 0x8000, registers and status are 0, the program is in place, and the cells below 0x8000 are unchanged |
| Scenarios.StepLdaImmediate | cpu.c:286-289 | opcode 0xA9 loads the next byte into A, updates Zero/Negative and moves pc past both bytes |
| Scenarios.StepLdaZeroPage | cpu.c:286-289 | opcode 0xA5 loads A from the zero-page cell that the next byte names |
| Scenarios.StepAndImmediate | cpu.c:279-282 | opcode 0x29 ANDs the next byte into A |
| Scenarios.ExecuteAndImmediate | cpu.c:279-282 | a decoded immediate AND of length 2 ANDs the byte at pc into A and moves pc past it |
| Scenarios.StepAdcImmediate | cpu.c:275-278 | opcode 0x69 performs the ADC of the next byte and moves pc past both bytes |
| Scenarios.StepTax | cpu.c:290-293 | opcode 0xAA copies A into X and moves pc past the opcode |
| Scenarios.StepInx | cpu.c:294-297 | opcode 0xE8 increments X modulo 256 and moves pc past the opcode |
| Scenarios.StepBrk | cpu.c:283-285 | opcode 0x00 halts with pc one past it |
| Scenarios.LdaImmediateLoadData | main.c:5-14 | LDA #$05; BRK halts with A = 5 and Zero and Negative clear |
| Scenarios.LdaZeroFlag | main.c:16-23 | LDA #$00; BRK halts with Zero set |
| Scenarios.FiveOpsWorkingTogether | main.c:25-32 | LDA #$C0; TAX; INX; BRK halts with X = 0xC1 |
| Scenarios.LdaFromMemory | main.c:34-41 | with 0x55 at 0x10, LDA $10; BRK halts with A = 0x55 |
| Scenarios.AndImmediate | main.c:43-52 | LDA #$05; AND #$06; BRK halts with A = 4 and Zero and Negative clear |
| Scenarios.AdcImmediate | main.c:55-65 | LDA #$05; ADC #$06; BRK halts with A = 11 and Zero, Negative and Carry clear |
| Scenarios.AdcWrapsToZero | cpu.c:243-266 | 0xFF + 0x01 with Carry clear gives A = 0 and status 0x81: Carry set, Negative set from the old A, Overflow and Zero clear |
| Scenarios.AdcAddsCarryIn | cpu.c:243-266 | 0x02 + 0x02 with Carry set gives A = 5 and a status byte of 0 |
| Scenarios.AdcImmediateCarry | main.c:68-79 | LDA #$FF; ADC #$01; BRK halts with A = 0, Carry and Negative set, and Zero and Overflow clear |
| Scenarios.CarryPrefix | main.c:71 | LDA #$FF; ADC #$01 from a fresh boot leaves A = 0, status 0x81 and pc 0x8004, using two turns |
| Scenarios.CarryThroughSuffix | main.c:85 | LDA #$02; ADC #$02; BRK with Carry set on entry halts with A = 5 and status 0 |
| Scenarios.AdcImmediateCarryThrough | main.c:82-93 | the carry from 0xFF + 1 is added into 2 + 2, giving A = 5 with Zero, Negative, Carry and Overflow clear |
| Emulator.Cpu.constructor | cpu.c:11-21 | a fresh CPU equals the all-zero machine `Machine.Initial`: registers, status, pc and every memory cell are 0 |
| Emulator.Cpu.ReadMemory | cpu.c:70-73 | returns the byte stored in the addressed cell |
| Emulator.Cpu.WriteMemory | cpu.c:75-78 | the memory array afterwards equals `Write` of its old contents |
| Emulator.Cpu.ReadMemoryWord | cpu.c:80-85 | returns the little-endian word `ReadWord` of the memory |
| Emulator.Cpu.WriteMemoryWord | cpu.c:87-93 | the memory array afterwards equals `WriteWord` of its old contents |
| Emulator.Cpu.Reset | cpu.c:95-103 | the object afterwards equals `Machine.Reset` of its old state |
| Emulator.Cpu.Load | cpu.c:105-110 | the object afterwards equals `Machine.Load` of its old state, the block copy being done cell by cell in place |
| Emulator.Cpu.GetOperandAddress | cpu.c:112-164 | returns `OperandAddress` of the current memory, pc and index registers |
| Emulator.Cpu.SetOverflowFlag | cpu.c:166-169 | status becomes `SetOverflow` of the old status; the registers and pc are unchanged |
| Emulator.Cpu.RemoveOverflowFlag | cpu.c:171-174 | status becomes `ClearOverflow` of the old status; the registers and pc are unchanged |
| Emulator.Cpu.SetCarryFlag | cpu.c:176-179 | status becomes `SetCarry` of the old status; the registers and pc are unchanged |
| Emulator.Cpu.RemoveCarryFlag | cpu.c:181-184 | status becomes `ClearCarry` of the old status; the registers and pc are unchanged |
| Emulator.Cpu.UpdateZeroAndNegativeFlags | cpu.c:186-199 | status becomes `ZeroAndNegative` of the old status and the byte, computed with the two if-statements of C |
| Emulator.Cpu.Lda | cpu.c:201-207 | the object afterwards equals `Machine.Lda` of its old state |
| Emulator.Cpu.Tax | cpu.c:209-213 | the object afterwards equals `Machine.Tax` of its old state |
| Emulator.Cpu.Inx | cpu.c:215-220 | the object afterwards equals `Machine.Inx` of its old state |
| Emulator.Cpu.Iny | cpu.c:222-227 | the object afterwards equals `Machine.Iny` of its old state |
| Emulator.Cpu.Sta | cpu.c:229-233 | the object afterwards equals `Machine.Sta` of its old state |
| Emulator.Cpu.And | cpu.c:235-241 | the object afterwards equals `Machine.And` of its old state |
| Emulator.Cpu.Adc | cpu.c:243-266 | the object afterwards equals `Machine.Adc` of its old state, whose meaning `Machine.AdcResult` states |
| Emulator.Cpu.AddWithCarry | cpu.c:247-265 | given the operand byte, C's sequence of carry, overflow and zero/negative helper calls yields `Machine.AddWithCarry` of the old state |
| Emulator.Cpu.Dispatch | cpu.c:274-302 | the switch of the loop: continue in the state `Machine.Execute` gives, or stop with Halted on BRK or OutOfBounds where C would index past memory |
| Emulator.Cpu.Cycle | cpu.c:270-302 | one loop turn (fetch, decode, pc + 1, dispatch) agrees with `Machine.Step` |
| Emulator.Cpu.Run | cpu.c:268-304 | the loop, bounded by fuel, ends in the outcome and state of `Machine.Run` |
| Emulator.Cpu.LoadAndRun | cpu.c:306-311 | load, reset and run end in the outcome and state of `Machine.LoadAndRun` |

`Addressing.OperandAddressResolves` states the byte-level meaning of each mode:

- Immediate gives pc itself.
- ZeroPage gives the operand byte.
- Absolute gives the little-endian operand word.
- ZeroPageX and AbsoluteX give the operand byte plus X, modulo 256. ZeroPageY and AbsoluteY do
  the same with Y.
- IndirectX reads its pointer from the zero page at operand + X. Both pointer bytes stay inside
  the zero page.
- IndirectY reads its pointer at the bare operand, then adds Y modulo 65536.
- The other modes give 1.

`Machine.AdcResult` states ADC's effect as written:

- A becomes (A + operand + carry) modulo 256.
- Carry holds iff that sum is above 255.
- Overflow holds iff the new A is above 127.
- Zero and Negative describe the old A.
- The status bits outside these four are unchanged, and X, Y, pc and memory are unchanged.

## Left out

- Printing, the `main` function and the test driver's `assert` calls are not modelled as code.
  The tests' expected values are stated as the `Scenarios` lemmas instead.
- `tests.h` and the header's prototypes without a body: `cpu_set_flag`, `cpu_remove_flag` and
  `cpu_instruction_ASL`. They have no definition in the sources, so they are not part of this model.
  The CPU_FLAG enumeration is unused.
- ASL is an enumerator that no opcode decodes to, and the loop's switch has no case for it. The
  model dispatches it as "do nothing", and `Opcodes.DecodeNeverAsl` shows that this is never
  reached.
- STA has no opcode in the table, so it is modelled as an operation (`Machine.Sta`,
  `Emulator.Cpu.Sta`) that the loop never calls.
- The cycle count in each descriptor is recorded but never used by the C code, so nothing is
  proved about it.
- `assert("...")` on a string literal can never fail. The two in `cpu.c` (the default opcode
  case and the unsupported-mode fall-through) have no effect and are not modelled.
- Emulator.Cpu.Run: C loops without bound until BRK. The model's loop stops after `fuel` turns,
  so a program that never reaches BRK is described only for a bounded number of turns.
- Machine.Step: C's behaviour when it reads or writes `memory[0xFFFF]`, one past the end of the
  array, is undefined. The model stops the run there with `OutOfBounds`, whether the access is
  the opcode fetch, the read of an operand byte lying at 0xFFFF, or an operand that resolves to
  0xFFFF.
- Emulator.Cpu.OperandAccessible: this bounds check has no counterpart in C. It exists only so
  that the class stops where C would index past the array.
- The AND result is stated as the bitwise AND of the two bytes viewed as `bv8`. C computes it in
  an `int` and stores it back through a `ushort` into a `uchar`, which gives the same byte.
- The test driver checks the Overflow bit with `status * 0b01000000` where a mask was evidently
  meant (`main.c:77`, `main.c:91`); that product only tells whether the status byte is 0. The
  scenario lemmas state instead what the model gives for the Overflow bit: clear in both programs.
