/**
 * The memory as a value: MEMORY_SIZE byte cells, byte and little-endian word
 * access, and the block copy that loads a program.  The word helpers compute
 * the address of the second byte as a `ushort`, so it wraps from 0xFFFF to 0.
 */
module Memory {
  import opened CpuTypes

  /** The contents of the memory array. */
  type Mem = m: seq<Byte> | |m| == MEMORY_SIZE witness seq(MEMORY_SIZE, _ => 0)

  /** Memory with every cell 0. */
  const Cleared: Mem := seq(MEMORY_SIZE, _ => 0)

  /** An address that indexes the memory array: 0xFFFF is one past its end. */
  predicate InBounds(addr: Word) { addr < MEMORY_SIZE }

  /** The address of the byte after `addr`, as a `ushort`. */
  function Next(addr: Word): Word
  {
    (addr + 1) % 0x1_0000
  }

  /** `cpu_read_memory`. */
  function Read(mem: Mem, addr: Word): Byte
    requires InBounds(addr)
  {
    mem[addr]
  }

  /** `cpu_write_memory`: one cell changes, to `v`. */
  function Write(mem: Mem, addr: Word, v: Byte): (r: Mem)
    requires InBounds(addr)
    ensures r[addr] == v
    ensures forall i :: 0 <= i < MEMORY_SIZE && i != addr ==> r[i] == mem[i]
  {
    mem[addr := v]
  }

  /** A read after a write sees the written byte at that address and the old byte elsewhere. */
  lemma ReadAfterWrite(mem: Mem, a: Word, b: Word, v: Byte)
    requires InBounds(a) && InBounds(b)
    ensures Read(Write(mem, a, v), b) == if a == b then v else Read(mem, b)
  {
  }

  /** Both bytes of the word at `pos` lie inside the memory array. */
  predicate WordInBounds(pos: Word) { InBounds(pos) && InBounds(Next(pos)) }

  /**
   * The word `(hi << 8) | lo`, which is `hi * 256 + lo` because `lo` is
   * below 256: its low byte is `lo` and its high byte `hi`.
   */
  function LittleEndian(lo: Byte, hi: Byte): (w: Word)
    ensures w % 256 == lo && w / 256 == hi
  {
    hi * 256 + lo
  }

  /** `cpu_read_memory_ushort`: the little-endian word at `pos`. */
  function ReadWord(mem: Mem, pos: Word): (w: Word)
    requires WordInBounds(pos)
    ensures w % 256 == mem[pos] && w / 256 == mem[Next(pos)]
  {
    var lo := Read(mem, pos);
    var hi := Read(mem, Next(pos));
    LittleEndian(lo, hi)
  }

  /**
   * `cpu_write_memory_ushort`: the low byte (`data & 0xff`) at `pos`, the
   * high byte (`data >> 8`) after it, and nothing else.
   */
  function WriteWord(mem: Mem, pos: Word, data: Word): (r: Mem)
    requires WordInBounds(pos)
    ensures r[pos] == data % 256 && r[Next(pos)] == data / 256
    ensures forall i :: 0 <= i < MEMORY_SIZE && i != pos && i != Next(pos) ==> r[i] == mem[i]
  {
    var hi := data / 256;
    var lo := data % 256;
    Write(Write(mem, pos, lo), Next(pos), hi)
  }

  /** Writing a word and reading it back at the same position gives the word. */
  lemma WordRoundTrip(mem: Mem, pos: Word, data: Word)
    requires WordInBounds(pos)
    ensures ReadWord(WriteWord(mem, pos, data), pos) == data
  {
  }

  /** Writing back the word just read leaves the memory as it was. */
  lemma WriteWordOfReadWord(mem: Mem, pos: Word)
    requires WordInBounds(pos)
    ensures WriteWord(mem, pos, ReadWord(mem, pos)) == mem
  {
  }

  /** `memcpy(&memory[origin], program, |program|)`: the program replaces that block, the rest stays. */
  function Copy(mem: Mem, origin: nat, program: seq<Byte>): (r: Mem)
    requires origin + |program| <= MEMORY_SIZE
    ensures forall i :: 0 <= i < |program| ==> r[origin + i] == program[i]
    ensures forall i :: 0 <= i < MEMORY_SIZE && !(origin <= i < origin + |program|) ==> r[i] == mem[i]
  {
    mem[..origin] + program + mem[origin + |program|..]
  }
}
