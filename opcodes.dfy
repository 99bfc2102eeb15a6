/**
 * The opcode table: `cpu_turn_op_into_instruction_set` maps an opcode byte to
 * its descriptor, and every opcode outside the table to the zeroed
 * descriptor, which reads as BRK.
 */
module Opcodes {
  import opened CpuTypes

  /**
   * The table of `cpu_turn_op_into_instruction_set`, one entry per case of
   * its switch: (op_code, instruction, bytes, cycles, mode).
   */
  const Table: map<Byte, InstructionSet> := map[
    // BRK
    0x00 := InstructionCase(0x00, BRK, 1, 7, NoneMode),
    // ADC: every entry carries the immediate mode
    0x69 := InstructionCase(0x69, ADC, 2, 2, Immediate),
    0x65 := InstructionCase(0x65, ADC, 2, 3, Immediate),
    0x75 := InstructionCase(0x75, ADC, 2, 4, Immediate),
    0x6D := InstructionCase(0x6D, ADC, 3, 4, Immediate),
    0x7D := InstructionCase(0x7D, ADC, 3, 4, Immediate),
    0x79 := InstructionCase(0x79, ADC, 3, 4, Immediate),
    0x61 := InstructionCase(0x61, ADC, 2, 6, Immediate),
    0x71 := InstructionCase(0x71, ADC, 2, 5, Immediate),
    // AND
    0x29 := InstructionCase(0x29, AND, 2, 2, Immediate),
    0x25 := InstructionCase(0x25, AND, 2, 3, ZeroPage),
    0x35 := InstructionCase(0x35, AND, 2, 4, ZeroPageX),
    0x2D := InstructionCase(0x2D, AND, 3, 4, Absolute),
    0x3D := InstructionCase(0x3D, AND, 3, 4, AbsoluteX),
    0x39 := InstructionCase(0x39, AND, 3, 4, AbsoluteY),
    0x21 := InstructionCase(0x21, AND, 2, 6, IndirectX),
    0x31 := InstructionCase(0x31, AND, 2, 5, IndirectY),
    // LDA
    0xA9 := InstructionCase(0xA9, LDA, 2, 2, Immediate),
    0xA5 := InstructionCase(0xA5, LDA, 2, 3, ZeroPage),
    0xB5 := InstructionCase(0xB5, LDA, 2, 4, ZeroPageX),
    0xAD := InstructionCase(0xAD, LDA, 3, 4, Absolute),
    0xBD := InstructionCase(0xBD, LDA, 3, 4, AbsoluteX),
    0xB9 := InstructionCase(0xB9, LDA, 3, 4, AbsoluteY),
    0xA1 := InstructionCase(0xA1, LDA, 2, 6, IndirectX),
    0xB1 := InstructionCase(0xB1, LDA, 2, 5, IndirectY),
    // TAX, INX, INY
    0xAA := InstructionCase(0xAA, TAX, 1, 2, NoneMode),
    0xE8 := InstructionCase(0xE8, INX, 1, 2, NoneMode),
    0xC8 := InstructionCase(0xC8, INY, 1, 2, NoneMode)
  ]

  /** The opcodes that have an entry in the table. */
  const Known: set<Byte> := Table.Keys

  /**
   * `cpu_turn_op_into_instruction_set`: the table entry of `op`, or the
   * zeroed descriptor for an opcode outside the table (the default case).
   */
  function Decode(op: Byte): InstructionSet
  {
    if op in Table then Table[op] else Zeroed
  }

  /**
   * Every table entry records its own opcode (the macro copies the case
   * label into `op_code`) and is one to three bytes long; every other
   * opcode yields the zeroed descriptor.
   */
  lemma TableWellFormed(op: Byte)
    ensures op in Known ==> Decode(op).opCode == op && 1 <= Decode(op).bytes <= 3
    ensures op !in Known ==> Decode(op) == Zeroed
  {
  }

  /**
   * The opcodes that halt the loop: a descriptor is BRK exactly for opcode
   * 0x00 and for the opcodes outside the table.
   */
  lemma DecodeBrk(op: Byte)
    ensures Decode(op).instruction == BRK <==> op == 0x00 || op !in Known
  {
    ZeroedIsBrk();
  }

  /** ASL has no table entry, so no opcode decodes to it. */
  lemma DecodeNeverAsl(op: Byte)
    ensures Decode(op).instruction != ASL
  {
    ZeroedIsBrk();
  }

  /**
   * Addressing modes of the table: TAX, INX, INY and the BRK entry at 0x00
   * carry no operand, and every ADC entry carries the immediate mode
   * whatever its opcode.  (The BRK produced for an unknown opcode is the
   * zeroed descriptor, whose mode is Accumulator.)
   */
  lemma DecodeModes(op: Byte)
    ensures Decode(op).instruction in {TAX, INX, INY} ==> Decode(op).mode == NoneMode && Decode(op).bytes == 1
    ensures Decode(op).instruction == ADC ==> Decode(op).mode == Immediate
    ensures op == 0x00 ==> Decode(op).mode == NoneMode && Decode(op).bytes == 1
    ensures Decode(op).instruction in {LDA, AND} ==> Decode(op).mode !in {Accumulator, NoneMode}
  {
    ZeroedIsBrk();
  }
}
