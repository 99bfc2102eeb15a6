/**
 * The C struct CPU and the functions of cpu.c that update it in place.  The
 * registers, the status byte and the program counter are fields; the memory
 * is an array of MEMORY_SIZE cells.  Each mutating method is proved equal to
 * the matching value-layer function: the instruction, reset, load and run
 * methods end in `Snapshot() == Machine.F(old(Snapshot()))`, the flag helpers
 * in `status == F(old(status))`, the memory writers in `memory[..]` equal to
 * `Write`/`WriteWord` of the old contents; the queries return what the
 * matching function computes.
 */
module Emulator {
  import opened CpuTypes
  import opened Flags
  import opened Memory
  import opened Opcodes
  import opened Addressing
  import Machine

  class Cpu {
    var regA: Byte
    var regX: Byte
    var regY: Byte
    var status: bv8
    var pc: Word
    const memory: array<Byte>

    /** The memory array has exactly MEMORY_SIZE cells. */
    ghost predicate Valid()
      reads this
    {
      memory.Length == MEMORY_SIZE
    }

    /** The whole machine state as a value. */
    ghost function Snapshot(): Machine.State
      reads this, memory
      requires Valid()
    {
      Machine.State(regA, regX, regY, status, pc, memory[..])
    }

    /** `make_cpu`: every register, the status byte, pc and every memory cell start at 0. */
    constructor ()
      ensures Valid() && Snapshot() == Machine.Initial
      ensures fresh(memory)
    {
      regA := 0;
      regX := 0;
      regY := 0;
      status := 0;
      pc := 0;
      memory := new Byte[MEMORY_SIZE](_ => 0);
      new;
      assert memory[..] == Cleared;
    }

    /** `cpu_read_memory`. */
    method ReadMemory(addr: Word) returns (v: Byte)
      requires Valid() && InBounds(addr)
      ensures v == Read(memory[..], addr)
    {
      v := memory[addr];
    }

    /** `cpu_write_memory`. */
    method WriteMemory(addr: Word, data: Byte)
      requires Valid() && InBounds(addr)
      modifies memory
      ensures Valid() && memory[..] == Write(old(memory[..]), addr, data)
    {
      memory[addr] := data;
    }

    /** `cpu_read_memory_ushort`: the little-endian word at `pos`. */
    method ReadMemoryWord(pos: Word) returns (w: Word)
      requires Valid() && WordInBounds(pos)
      ensures w == ReadWord(memory[..], pos)
    {
      var lo := ReadMemory(pos);
      var hi := ReadMemory(Next(pos));
      w := LittleEndian(lo, hi);
    }

    /** `cpu_write_memory_ushort`: low byte at `pos`, high byte after it. */
    method WriteMemoryWord(pos: Word, data: Word)
      requires Valid() && WordInBounds(pos)
      modifies memory
      ensures Valid() && memory[..] == WriteWord(old(memory[..]), pos, data)
    {
      var hi := data / 256;
      var lo := data % 256;
      WriteMemory(pos, lo);
      WriteMemory(Next(pos), hi);
    }

    /** `cpu_reset`: registers and status to 0, pc from the reset vector. */
    method Reset()
      requires Valid()
      modifies this
      ensures Valid() && Snapshot() == Machine.Reset(old(Snapshot()))
    {
      regA := 0;
      regX := 0;
      regY := 0;
      status := 0;
      pc := ReadMemoryWord(Machine.RESET_VECTOR);
    }

    /**
     * `cpu_load`: a program that would pass the end of memory is ignored;
     * otherwise its bytes are copied to PROGRAM_START (the `memcpy`) and the
     * reset vector is pointed at them.
     */
    method Load(program: seq<Byte>)
      requires Valid()
      modifies memory
      ensures Valid() && Snapshot() == Machine.Load(old(Snapshot()), program)
    {
      if |program| + Machine.PROGRAM_START > MEMORY_SIZE {
        return;
      }
      ghost var before := memory[..];
      forall i | 0 <= i < |program| {
        memory[Machine.PROGRAM_START + i] := program[i];
      }
      assert memory[..] == Copy(before, Machine.PROGRAM_START, program);
      WriteMemoryWord(Machine.RESET_VECTOR, Machine.PROGRAM_START);
    }

    /** `cpu_get_operand_address`: the effective address for `mode`. */
    method GetOperandAddress(mode: AddressMode) returns (addr: Word)
      requires Valid() && OperandReadable(pc, mode)
      ensures addr == OperandAddress(memory[..], pc, regX, regY, mode)
    {
      ghost var m := memory[..];
      assert forall i :: 0 <= i < MEMORY_SIZE ==> m[i] == memory[i];
      match mode
      case Immediate =>
        addr := pc;
      case ZeroPage =>
        addr := memory[pc];
      case Absolute =>
        addr := ReadMemoryWord(pc);
      case ZeroPageX =>
        var pos := memory[pc];
        addr := (pos + regX) % 256;
      case ZeroPageY =>
        var pos := memory[pc];
        addr := (pos + regY) % 256;
      case AbsoluteX =>
        var word := ReadMemoryWord(pc);
        var base := word % 256;
        addr := (base + regX) % 256;
      case AbsoluteY =>
        var word := ReadMemoryWord(pc);
        var base := word % 256;
        addr := (base + regY) % 256;
      case IndirectX =>
        var base: int := memory[pc];
        var ptr := (base + regX) % 256;
        var lo := memory[ptr];
        var hi := memory[(ptr + 1) % 256];
        addr := LittleEndian(lo, hi);
      case IndirectY =>
        var base: int := memory[pc];
        var lo := memory[base];
        var hi := memory[(base + 1) % 256];
        var derefBase := LittleEndian(lo, hi);
        addr := (derefBase + regY) % 0x1_0000;
      case Accumulator | NoneMode =>
        addr := 1;
    }

    /** `cpu_set_overflow_flag`. */
    method SetOverflowFlag()
      modifies this
      ensures status == SetOverflow(old(status))
      ensures regA == old(regA) && regX == old(regX) && regY == old(regY) && pc == old(pc)
    {
      status := status | 0x40;
    }

    /** `cpu_remove_overflow_flag`. */
    method RemoveOverflowFlag()
      modifies this
      ensures status == ClearOverflow(old(status))
      ensures regA == old(regA) && regX == old(regX) && regY == old(regY) && pc == old(pc)
    {
      status := status & 0xBF;
    }

    /** `cpu_set_carry_flag`. */
    method SetCarryFlag()
      modifies this
      ensures status == SetCarry(old(status))
      ensures regA == old(regA) && regX == old(regX) && regY == old(regY) && pc == old(pc)
    {
      status := status | 0x01;
    }

    /** `cpu_remove_carry_flag`. */
    method RemoveCarryFlag()
      modifies this
      ensures status == ClearCarry(old(status))
      ensures regA == old(regA) && regX == old(regX) && regY == old(regY) && pc == old(pc)
    {
      status := status & 0xFE;
    }

    /** `cpu_update_zero_and_negative_flags`. */
    method UpdateZeroAndNegativeFlags(result: Byte)
      modifies this
      ensures status == ZeroAndNegative(old(status), result)
      ensures regA == old(regA) && regX == old(regX) && regY == old(regY) && pc == old(pc)
    {
      if result == 0 {
        status := status | 0x02;
      } else {
        status := status & 0xFD;
      }
      if SignBit(result) {
        status := status | 0x80;
      } else {
        status := status & 0x7F;
      }
    }

    /** `cpu_instruction_LDA`. */
    method Lda(mode: AddressMode)
      requires Valid() && Machine.Accessible(Snapshot(), mode)
      modifies this
      ensures Valid() && Snapshot() == Machine.Lda(old(Snapshot()), mode)
    {
      var addr := GetOperandAddress(mode);
      var value := ReadMemory(addr);
      regA := value;
      UpdateZeroAndNegativeFlags(regA);
    }

    /** `cpu_instruction_TAX`. */
    method Tax()
      requires Valid()
      modifies this
      ensures Valid() && Snapshot() == Machine.Tax(old(Snapshot()))
    {
      regX := regA;
      UpdateZeroAndNegativeFlags(regX);
    }

    /** `cpu_instruction_INX`: the increment is stored back into a `uchar`. */
    method Inx()
      requires Valid()
      modifies this
      ensures Valid() && Snapshot() == Machine.Inx(old(Snapshot()))
    {
      regX := (regX + 1) % 256;
      UpdateZeroAndNegativeFlags(regX);
    }

    /** `cpu_instruction_INY`: the increment is stored back into a `uchar`. */
    method Iny()
      requires Valid()
      modifies this
      ensures Valid() && Snapshot() == Machine.Iny(old(Snapshot()))
    {
      regY := (regY + 1) % 256;
      UpdateZeroAndNegativeFlags(regY);
    }

    /** `cpu_instruction_STA`. */
    method Sta(mode: AddressMode)
      requires Valid() && Machine.Accessible(Snapshot(), mode)
      modifies memory
      ensures Valid() && Snapshot() == Machine.Sta(old(Snapshot()), mode)
    {
      var addr := GetOperandAddress(mode);
      WriteMemory(addr, regA);
    }

    /** `cpu_instruction_AND`. */
    method And(mode: AddressMode)
      requires Valid() && Machine.Accessible(Snapshot(), mode)
      modifies this
      ensures Valid() && Snapshot() == Machine.And(old(Snapshot()), mode)
    {
      var addr := GetOperandAddress(mode);
      var operand := ReadMemory(addr);
      var result := Machine.BitAnd(regA, operand);
      regA := result;
      UpdateZeroAndNegativeFlags(regA);
    }

    /**
     * `cpu_instruction_ADC`: the sum is formed in a `ushort`, the carry and
     * overflow helpers are called on it, the zero/negative update is applied
     * to A before A is replaced by the truncated sum.
     */
    method Adc(mode: AddressMode)
      requires Valid() && Machine.Accessible(Snapshot(), mode)
      modifies this
      ensures Valid() && Snapshot() == Machine.Adc(old(Snapshot()), mode)
    {
      var addr := GetOperandAddress(mode);
      var operand := ReadMemory(addr);
      AddWithCarry(operand);
    }

    /** The body of `cpu_instruction_ADC` once the operand byte is known. */
    method AddWithCarry(operand: Byte)
      requires Valid()
      modifies this
      ensures Valid() && Snapshot() == Machine.AddWithCarry(old(Snapshot()), operand)
    {
      ghost var s := Snapshot();
      var result := regA + operand;
      if status & 0x01 != 0 {
        result := result + 1;
      }
      ghost var sum := result;
      if result > 255 {
        SetCarryFlag();
        result := result - 256;
      } else {
        RemoveCarryFlag();
      }
      ghost var s1 := status;
      if result > 127 {
        SetOverflowFlag();
      } else {
        RemoveOverflowFlag();
      }
      Machine.AdcInSteps(s, operand, sum, s1, status);
      UpdateZeroAndNegativeFlags(regA);
      regA := result;
    }

    /**
     * Whether the operand of `mode` and the cell it names lie inside the
     * memory array.  C indexes past the array when they do not; the model
     * stops the loop there instead.
     */
    method OperandAccessible(mode: AddressMode) returns (ok: bool)
      requires Valid()
      ensures ok == Machine.Accessible(Snapshot(), mode)
    {
      if !OperandReadable(pc, mode) {
        return false;
      }
      var addr := GetOperandAddress(mode);
      ok := InBounds(addr);
    }

    /**
     * The `switch` of `cpu_run` for a decoded instruction whose opcode has
     * been consumed: execute it and move pc past its operands.  BRK stops
     * the loop; ASL has no case and does nothing.  An instruction whose
     * operand lies outside the memory array stops the loop instead of
     * indexing past it.  `outcome` means something only when `stopped`
     * holds; otherwise it is the placeholder `OutOfFuel`.
     */
    method Dispatch(instructionSet: InstructionSet) returns (stopped: bool, outcome: Machine.Outcome)
      requires Valid()
      modifies this
      ensures Valid()
      ensures match Machine.Execute(old(Snapshot()), instructionSet)
        case Continue(t) => !stopped && Snapshot() == t
        case Halt(t) => stopped && outcome == Machine.Halted && Snapshot() == t
        case Fault(t) => stopped && outcome == Machine.OutOfBounds && Snapshot() == t
    {
      stopped, outcome := false, Machine.OutOfFuel;
      match instructionSet.instruction {
        case ADC =>
          var ok := OperandAccessible(instructionSet.mode);
          if !ok {
            return true, Machine.OutOfBounds;
          }
          Adc(instructionSet.mode);
          pc := (pc + instructionSet.bytes - 1) % 0x1_0000;
        case AND =>
          var ok := OperandAccessible(instructionSet.mode);
          if !ok {
            return true, Machine.OutOfBounds;
          }
          And(instructionSet.mode);
          pc := (pc + instructionSet.bytes - 1) % 0x1_0000;
        case BRK =>
          return true, Machine.Halted;
        case LDA =>
          var ok := OperandAccessible(instructionSet.mode);
          if !ok {
            return true, Machine.OutOfBounds;
          }
          Lda(instructionSet.mode);
          pc := (pc + instructionSet.bytes - 1) % 0x1_0000;
        case TAX =>
          Tax();
          pc := (pc + instructionSet.bytes - 1) % 0x1_0000;
        case INX =>
          Inx();
          pc := (pc + instructionSet.bytes - 1) % 0x1_0000;
        case INY =>
          Iny();
          pc := (pc + instructionSet.bytes - 1) % 0x1_0000;
        case ASL =>
      }
    }

    /**
     * One turn of the `while (1)` loop of `cpu_run`: fetch the opcode at pc,
     * decode it, move pc past it and dispatch.  Fetching from pc 0xFFFF
     * would index past the memory array and stops the loop.
     */
    method Cycle() returns (stopped: bool, outcome: Machine.Outcome)
      requires Valid()
      modifies this
      ensures Valid()
      ensures match Machine.Step(old(Snapshot()))
        case Continue(t) => !stopped && Snapshot() == t
        case Halt(t) => stopped && outcome == Machine.Halted && Snapshot() == t
        case Fault(t) => stopped && outcome == Machine.OutOfBounds && Snapshot() == t
    {
      if !InBounds(pc) {
        return true, Machine.OutOfBounds;
      }
      ghost var s := Snapshot();
      var op := ReadMemory(pc);
      var instructionSet := Decode(op);
      pc := Next(pc);
      assert Machine.Step(s) == Machine.Execute(Snapshot(), instructionSet);
      stopped, outcome := Dispatch(instructionSet);
    }

    /**
     * `cpu_run`: turns of the loop until BRK.  The C loop has no bound; this
     * one gives up after `fuel` turns.
     */
    method Run(fuel: nat) returns (outcome: Machine.Outcome)
      requires Valid()
      modifies this
      ensures Valid() && Machine.Run(old(Snapshot()), fuel) == Machine.RunResult(outcome, Snapshot())
    {
      var remaining := fuel;
      while remaining > 0
        invariant Valid()
        invariant Machine.Run(old(Snapshot()), fuel) == Machine.Run(Snapshot(), remaining)
        decreases remaining
      {
        ghost var s := Snapshot();
        var stopped;
        stopped, outcome := Cycle();
        match Machine.Step(s) {
          case Continue(t) => Machine.RunContinues(s, t, remaining);
          case Halt(t) => Machine.RunHalts(s, t, remaining);
          case Fault(t) => Machine.RunFaults(s, t, remaining);
        }
        if stopped {
          return;
        }
        remaining := remaining - 1;
      }
      return Machine.OutOfFuel;
    }

    /** `cpu_load_and_run`: load the program, reset, run. */
    method LoadAndRun(program: seq<Byte>, fuel: nat) returns (outcome: Machine.Outcome)
      requires Valid()
      modifies this, memory
      ensures Valid() && Machine.LoadAndRun(old(Snapshot()), program, fuel) == Machine.RunResult(outcome, Snapshot())
    {
      Load(program);
      Reset();
      outcome := Run(fuel);
    }
  }
}
