/**
 * The addressing-mode resolver `cpu_get_operand_address`: from the operand
 * bytes at `pc` (the byte after the opcode) and the index registers it
 * computes the effective address.  It only reads memory.
 */
module Addressing {
  import opened CpuTypes
  import opened Memory

  /** The cells the resolver reads for `mode` lie inside the memory array. */
  predicate OperandReadable(pc: Word, mode: AddressMode)
  {
    match mode
    case ZeroPage | ZeroPageX | ZeroPageY | IndirectX | IndirectY => InBounds(pc)
    case Absolute | AbsoluteX | AbsoluteY => WordInBounds(pc)
    case Immediate | Accumulator | NoneMode => true
  }

  /**
   * What each mode promises about the effective address `addr`, stated by
   * its bytes: the operand itself for Immediate, the operand byte for
   * ZeroPage, the little-endian operand word for Absolute.  Zero-page
   * indexing wraps at 256.  The absolute-indexed modes, as written, end up
   * with the same address as the zero-page-indexed ones: the high operand
   * byte is dropped.  IndirectX reads its pointer from the zero page at the
   * indexed operand, both of its bytes inside the zero page; IndirectY reads
   * its pointer at the bare operand and adds Y afterwards, modulo 65536.
   * Modes without an operand give 1.
   */
  ghost predicate Resolves(mem: Mem, pc: Word, x: Byte, y: Byte, mode: AddressMode, addr: Word)
    requires OperandReadable(pc, mode)
  {
    match mode
    case Immediate => addr == pc
    case ZeroPage => addr == mem[pc]
    case Absolute => addr % 256 == mem[pc] && addr / 256 == mem[Next(pc)]
    case ZeroPageX | AbsoluteX => addr == (mem[pc] + x) % 256
    case ZeroPageY | AbsoluteY => addr == (mem[pc] + y) % 256
    case IndirectX =>
      var ptr := (mem[pc] + x) % 256;
      addr % 256 == mem[ptr] && addr / 256 == mem[(ptr + 1) % 256]
    case IndirectY =>
      var ptr: int := mem[pc];
      (addr + 0x1_0000 - y) % 0x1_0000 == LittleEndian(mem[ptr], mem[(ptr + 1) % 256])
    case Accumulator | NoneMode => addr == 1
  }

  /**
   * The effective address for `mode`.  Zero-page arithmetic is done in a
   * `uchar` and wraps at 256; the indirect-indexed sum is done in a `ushort`
   * and wraps at 65536.  The absolute-indexed modes keep only the low byte
   * of the operand word (it is stored into a `uchar`) and truncate the sum
   * to a `uchar` as well.  Modes without an operand fall through to 1.
   */
  function OperandAddress(mem: Mem, pc: Word, x: Byte, y: Byte, mode: AddressMode): Word
    requires OperandReadable(pc, mode)
  {
    match mode
    case Immediate => pc
    case ZeroPage => Read(mem, pc)
    case Absolute => ReadWord(mem, pc)
    case ZeroPageX =>
      var pos := Read(mem, pc);
      (pos + x) % 256
    case ZeroPageY =>
      var pos := Read(mem, pc);
      (pos + y) % 256
    case AbsoluteX =>
      var base := ReadWord(mem, pc) % 256;
      (base + x) % 256
    case AbsoluteY =>
      var base := ReadWord(mem, pc) % 256;
      (base + y) % 256
    case IndirectX =>
      var base := Read(mem, pc);
      var ptr := (base + x) % 256;
      var lo := Read(mem, ptr);
      var hi := Read(mem, (ptr + 1) % 256);
      LittleEndian(lo, hi)
    case IndirectY =>
      var base := Read(mem, pc);
      var lo := Read(mem, base);
      var hi := Read(mem, (base + 1) % 256);
      var derefBase := LittleEndian(lo, hi);
      (derefBase + y) % 0x1_0000
    case Accumulator | NoneMode => 1
  }

  /** The resolver meets the byte-level description of every mode. */
  lemma OperandAddressResolves(mem: Mem, pc: Word, x: Byte, y: Byte, mode: AddressMode)
    requires OperandReadable(pc, mode)
    ensures Resolves(mem, pc, x, y, mode, OperandAddress(mem, pc, x, y, mode))
  {
    if mode == IndirectY {
      var base: int := mem[pc];
      UnwrapIndex(LittleEndian(mem[base], mem[(base + 1) % 256]), y);
    }
  }

  /** Subtracting the index from a wrapped indexed address gives back the base. */
  lemma UnwrapIndex(base: Word, index: Byte)
    ensures ((base + index) % 0x1_0000 + 0x1_0000 - index) % 0x1_0000 == base
  {
    if base + index >= 0x1_0000 {
      assert (base + index) % 0x1_0000 == base + index - 0x1_0000;
    }
  }

  /**
   * Every mode except Absolute and the indirect ones yields an address in
   * the zero page or the operand's own address, so the only modes that can
   * reach the last cell 0xFFFF are Immediate, Absolute and the indirect ones.
   */
  lemma ZeroPageModesStayInZeroPage(mem: Mem, pc: Word, x: Byte, y: Byte, mode: AddressMode)
    requires OperandReadable(pc, mode)
    requires mode in {ZeroPage, ZeroPageX, ZeroPageY, AbsoluteX, AbsoluteY, Accumulator, NoneMode}
    ensures OperandAddress(mem, pc, x, y, mode) < 256
  {
  }

  /**
   * The absolute-indexed modes ignore the high operand byte: two memories
   * that differ only in the cell after `pc` give the same address.
   */
  lemma AbsoluteIndexedIgnoresHighByte(mem: Mem, pc: Word, x: Byte, y: Byte, v: Byte)
    requires WordInBounds(pc)
    ensures OperandAddress(mem, pc, x, y, AbsoluteX) == OperandAddress(Write(mem, Next(pc), v), pc, x, y, AbsoluteX)
    ensures OperandAddress(mem, pc, x, y, AbsoluteY) == OperandAddress(Write(mem, Next(pc), v), pc, x, y, AbsoluteY)
  {
  }

  /**
   * The two indirect modes differ in where the index is applied: IndirectX
   * indexes the zero-page pointer and IndirectY the dereferenced word.  With
   * both index registers 0 they read the same pointer.
   */
  lemma IndirectModesAgreeWithoutIndex(mem: Mem, pc: Word)
    requires InBounds(pc)
    ensures OperandAddress(mem, pc, 0, 0, IndirectX) == OperandAddress(mem, pc, 0, 0, IndirectY)
  {
    var base: int := mem[pc];
    assert (base + 0) % 256 == base;
    var w := LittleEndian(mem[base], mem[(base + 1) % 256]);
    assert (w + 0) % 0x1_0000 == w;
  }
}
