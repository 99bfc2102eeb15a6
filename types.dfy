/**
 * The types of the emulator's header: the instruction kinds, the addressing
 * modes, the opcode descriptor and the size of the memory.
 *
 * A `uchar` that takes part in arithmetic is a `Byte` and a `ushort` a
 * `Word`: both are integers, and every update that C performs in a wider
 * type and then truncates is written here with an explicit `%`.
 */
module CpuTypes {

  /** An `unsigned char` value. */
  type Byte = x: int | 0 <= x < 0x100

  /** An `unsigned short` value: a register or memory address. */
  type Word = x: int | 0 <= x < 0x1_0000

  /** Number of memory cells: valid addresses run from 0 to 0xFFFE. */
  const MEMORY_SIZE: int := 0xFFFF

  /** The instruction kinds, in the order of the C enumeration. */
  datatype Instruction = BRK | LDA | TAX | INX | INY | AND | ADC | ASL

  /** The addressing modes, in the order of the C enumeration. */
  datatype AddressMode =
    | Accumulator
    | Immediate
    | ZeroPage
    | ZeroPageX
    | ZeroPageY
    | Absolute
    | AbsoluteX
    | AbsoluteY
    | IndirectX
    | IndirectY
    | NoneMode

  /** An opcode descriptor: the C struct INSTRUCTION_SET. */
  datatype InstructionSet = InstructionSet(
    opCode: Byte,
    instruction: Instruction,
    bytes: Byte,
    cycles: Byte,
    mode: AddressMode)

  /** The numeric value C gives each instruction enumerator. */
  function InstructionOrdinal(i: Instruction): (n: nat)
    ensures n < 8
  {
    match i
    case BRK => 0
    case LDA => 1
    case TAX => 2
    case INX => 3
    case INY => 4
    case AND => 5
    case ADC => 6
    case ASL => 7
  }

  /** The instruction enumerator whose numeric value is `n`. */
  function InstructionOfOrdinal(n: nat): (i: Instruction)
    requires n < 8
    ensures InstructionOrdinal(i) == n
  {
    if n == 0 then BRK
    else if n == 1 then LDA
    else if n == 2 then TAX
    else if n == 3 then INX
    else if n == 4 then INY
    else if n == 5 then AND
    else if n == 6 then ADC
    else ASL
  }

  /** The numeric value C gives each addressing-mode enumerator. */
  function ModeOrdinal(m: AddressMode): (n: nat)
    ensures n < 11
  {
    match m
    case Accumulator => 0
    case Immediate => 1
    case ZeroPage => 2
    case ZeroPageX => 3
    case ZeroPageY => 4
    case Absolute => 5
    case AbsoluteX => 6
    case AbsoluteY => 7
    case IndirectX => 8
    case IndirectY => 9
    case NoneMode => 10
  }

  /** The addressing-mode enumerator whose numeric value is `n`. */
  function ModeOfOrdinal(n: nat): (m: AddressMode)
    requires n < 11
    ensures ModeOrdinal(m) == n
  {
    if n == 0 then Accumulator
    else if n == 1 then Immediate
    else if n == 2 then ZeroPage
    else if n == 3 then ZeroPageX
    else if n == 4 then ZeroPageY
    else if n == 5 then Absolute
    else if n == 6 then AbsoluteX
    else if n == 7 then AbsoluteY
    else if n == 8 then IndirectX
    else if n == 9 then IndirectY
    else NoneMode
  }

  /** Distinct enumerators have distinct numeric values. */
  lemma OrdinalsAreInjective(i: Instruction, j: Instruction, m: AddressMode, n: AddressMode)
    ensures InstructionOrdinal(i) == InstructionOrdinal(j) ==> i == j
    ensures ModeOrdinal(m) == ModeOrdinal(n) ==> m == n
  {
  }

  /** The descriptor-building macro `instruction_case`. */
  function InstructionCase(op: Byte, ins: Instruction, length: Byte, cy: Byte, mo: AddressMode): InstructionSet
  {
    InstructionSet(op, ins, length, cy, mo)
  }

  /**
   * A zero-initialised descriptor `(INSTRUCTION_SET){}`: every field holds the
   * value 0, which for the two enumerations is their first enumerator.
   */
  const Zeroed: InstructionSet :=
    InstructionSet(0, InstructionOfOrdinal(0), 0, 0, ModeOfOrdinal(0))

  /** The zeroed descriptor denotes BRK in accumulator mode with length 0. */
  lemma ZeroedIsBrk()
    ensures Zeroed.instruction == BRK && Zeroed.mode == Accumulator
    ensures Zeroed.opCode == 0 && Zeroed.bytes == 0 && Zeroed.cycles == 0
  {
  }
}
