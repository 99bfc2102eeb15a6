/**
 * The emulator's state as a value and the meaning of every operation on it:
 * the instruction semantics, reset, load, one step of the fetch-decode-
 * execute loop and the loop itself, bounded by fuel.  The `Cpu` class runs
 * the same operations in place and is proved equal to these functions.
 */
module Machine {
  import opened CpuTypes
  import opened Flags
  import opened Memory
  import opened Opcodes
  import opened Addressing

  /** The C struct CPU: three registers, the status byte, the program counter and the memory. */
  datatype State = State(a: Byte, x: Byte, y: Byte, status: bv8, pc: Word, mem: Mem)

  /** `make_cpu`: every register, the status byte, the program counter and every cell 0. */
  const Initial: State := State(0, 0, 0, 0, 0, Cleared)

  /** The start address of a loaded program and the cell holding the reset vector. */
  const PROGRAM_START: Word := 0x8000
  const RESET_VECTOR: Word := 0xFFFC

  /** True when resolving `mode` and then touching the resolved cell stays inside the memory array. */
  predicate Accessible(s: State, mode: AddressMode)
  {
    OperandReadable(s.pc, mode) && InBounds(OperandAddress(s.mem, s.pc, s.x, s.y, mode))
  }

  /** The effective address of an instruction with `mode` in state `s`. */
  function Address(s: State, mode: AddressMode): Word
    requires OperandReadable(s.pc, mode)
  {
    OperandAddress(s.mem, s.pc, s.x, s.y, mode)
  }

  /** The operand byte of an instruction with `mode` in state `s`. */
  function Operand(s: State, mode: AddressMode): Byte
    requires Accessible(s, mode)
  {
    s.mem[Address(s, mode)]
  }

  /** True when `r.status` carries the zero and negative flags of `v` and every other bit of `s.status`. */
  predicate FlagsOf(r: State, s: State, v: Byte)
  {
    (Zero(r.status) <==> v == 0) && (Negative(r.status) <==> v >= 0x80)
    && SameOutside(r.status, s.status, ZERO | NEGATIVE)
  }

  /** `cpu_instruction_LDA`: A becomes the operand byte. */
  function Lda(s: State, mode: AddressMode): (r: State)
    requires Accessible(s, mode)
    ensures r.a == Operand(s, mode) && FlagsOf(r, s, r.a)
    ensures r.x == s.x && r.y == s.y && r.pc == s.pc && r.mem == s.mem
  {
    var value := Operand(s, mode);
    s.(a := value, status := ZeroAndNegative(s.status, value))
  }

  /** `cpu_instruction_TAX`: X becomes A. */
  function Tax(s: State): (r: State)
    ensures r.x == s.a && FlagsOf(r, s, r.x)
    ensures r.a == s.a && r.y == s.y && r.pc == s.pc && r.mem == s.mem
  {
    s.(x := s.a, status := ZeroAndNegative(s.status, s.a))
  }

  /** `cpu_instruction_INX`: X goes up by one in a `uchar`, so 0xFF becomes 0. */
  function Inx(s: State): (r: State)
    ensures r.x == (s.x + 1) % 256 && FlagsOf(r, s, r.x)
    ensures r.x == 0 <==> s.x == 0xFF
    ensures r.a == s.a && r.y == s.y && r.pc == s.pc && r.mem == s.mem
  {
    var x := if s.x == 0xFF then 0 else s.x + 1;
    s.(x := x, status := ZeroAndNegative(s.status, x))
  }

  /** `cpu_instruction_INY`: Y goes up by one in a `uchar`, so 0xFF becomes 0. */
  function Iny(s: State): (r: State)
    ensures r.y == (s.y + 1) % 256 && FlagsOf(r, s, r.y)
    ensures r.y == 0 <==> s.y == 0xFF
    ensures r.a == s.a && r.x == s.x && r.pc == s.pc && r.mem == s.mem
  {
    var y := if s.y == 0xFF then 0 else s.y + 1;
    s.(y := y, status := ZeroAndNegative(s.status, y))
  }

  /** `cpu_instruction_STA`: the operand cell becomes A; registers and flags stay. */
  function Sta(s: State, mode: AddressMode): (r: State)
    requires Accessible(s, mode)
    ensures r.mem[Address(s, mode)] == s.a
    ensures forall i :: 0 <= i < MEMORY_SIZE && i != Address(s, mode) ==> r.mem[i] == s.mem[i]
    ensures r.a == s.a && r.x == s.x && r.y == s.y && r.status == s.status && r.pc == s.pc
  {
    s.(mem := Write(s.mem, Address(s, mode), s.a))
  }

  /** The C `&` of two `uchar` values. */
  function BitAnd(a: Byte, b: Byte): Byte
  {
    ((a as bv8) & (b as bv8)) as int
  }

  /** `cpu_instruction_AND`: A becomes A & operand. */
  function And(s: State, mode: AddressMode): (r: State)
    requires Accessible(s, mode)
    ensures r.a as bv8 == (s.a as bv8) & (Operand(s, mode) as bv8) && FlagsOf(r, s, r.a)
    ensures r.x == s.x && r.y == s.y && r.pc == s.pc && r.mem == s.mem
  {
    var result := BitAnd(s.a, Operand(s, mode));
    s.(a := result, status := ZeroAndNegative(s.status, result))
  }

  /** The carry bit as the number added by ADC. */
  function CarryIn(status: bv8): (c: nat)
    ensures c == 1 <==> Carry(status)
    ensures c <= 1
  {
    if status & 0x01 != 0 then 1 else 0
  }

  /**
   * `cpu_instruction_ADC` as written: the sum of A, the operand and the
   * carry is formed in a `ushort`; Carry records whether it passed 255 and
   * A keeps it modulo 256; Overflow records whether that truncated sum is
   * above 127; and Zero and Negative are computed from A as it was BEFORE
   * the addition.  The other status bits do not move.
   */
  function Adc(s: State, mode: AddressMode): State
    requires Accessible(s, mode)
  {
    AddWithCarry(s, Operand(s, mode))
  }

  /** The arithmetic of `cpu_instruction_ADC` once the operand byte has been read. */
  function AddWithCarry(s: State, operand: Byte): State
  {
    var result := s.a + operand;
    var result := if Carry(s.status) then result + 1 else result;
    var s1 := if result > 255 then SetCarry(s.status) else ClearCarry(s.status);
    var result := if result > 255 then result - 256 else result;
    var s2 := if result > 127 then SetOverflow(s1) else ClearOverflow(s1);
    var s3 := ZeroAndNegative(s2, s.a);
    s.(a := result, status := s3)
  }

  /**
   * What ADC computes, as written: A is the sum of A, the operand and the
   * carry modulo 256; Carry records whether that sum passed 255; Overflow
   * whether the new A is above 127; Zero and Negative describe A as it was
   * BEFORE the addition; no other status bit moves.
   */
  lemma AdcResult(s: State, mode: AddressMode)
    requires Accessible(s, mode)
    ensures var r := Adc(s, mode);
      var sum := s.a + Operand(s, mode) + CarryIn(s.status);
      && r.a == sum % 256
      && (Carry(r.status) <==> sum > 255)
      && (Overflow(r.status) <==> r.a > 127)
      && (Zero(r.status) <==> s.a == 0)
      && (Negative(r.status) <==> s.a >= 0x80)
      && SameOutside(r.status, s.status, CARRY | ZERO | OVERFLOW | NEGATIVE)
      && r.x == s.x && r.y == s.y && r.pc == s.pc && r.mem == s.mem
  {
    var sum := s.a + Operand(s, mode) + CarryIn(s.status);
    var s1 := if sum > 255 then SetCarry(s.status) else ClearCarry(s.status);
    var s2 := if sum % 256 > 127 then SetOverflow(s1) else ClearOverflow(s1);
    var s3 := ZeroAndNegative(s2, s.a);
    AdcInSteps(s, Operand(s, mode), sum, s1, s2);
    SameOutsideCompose(s2, s1, s.status, OVERFLOW, CARRY);
    SameOutsideCompose(s3, s2, s.status, ZERO | NEGATIVE, OVERFLOW | CARRY);
  }

  /**
   * Overflow is a threshold on the new A, not the signed-overflow rule:
   * 0x80 + 0x01 (opposite signs, no signed overflow) sets it, and
   * 0x80 + 0x80 (two negatives giving a positive byte) clears it.
   */
  lemma AdcOverflowIsThreshold(s: State, mode: AddressMode)
    requires Accessible(s, mode) && s.a == 0x80 && !Carry(s.status)
    ensures Operand(s, mode) == 0x01 ==> Overflow(Adc(s, mode).status)
    ensures Operand(s, mode) == 0x80 ==> !Overflow(Adc(s, mode).status)
  {
    AdcResult(s, mode);
  }

  /**
   * The three status updates of ADC, one after the other: carry from the
   * full sum, overflow from the truncated sum, zero/negative from the old A.
   */
  lemma AdcInSteps(s: State, operand: Byte, sum: nat, s1: bv8, s2: bv8)
    requires sum == s.a + operand + CarryIn(s.status)
    requires s1 == if sum > 255 then SetCarry(s.status) else ClearCarry(s.status)
    requires s2 == if sum % 256 > 127 then SetOverflow(s1) else ClearOverflow(s1)
    ensures AddWithCarry(s, operand) == State(sum % 256, s.x, s.y, ZeroAndNegative(s2, s.a), s.pc, s.mem)
  {
  }

  /**
   * `cpu_reset`: the registers and the status byte become 0 and the program
   * counter is loaded from the little-endian vector at 0xFFFC; memory stays.
   */
  function Reset(s: State): (r: State)
    ensures r.a == 0 && r.x == 0 && r.y == 0 && r.status == 0
    ensures r.pc % 256 == s.mem[RESET_VECTOR] && r.pc / 256 == s.mem[RESET_VECTOR + 1]
    ensures r.mem == s.mem
  {
    State(0, 0, 0, 0, ReadWord(s.mem, RESET_VECTOR), s.mem)
  }

  /** True when `program` fits below the last cell when placed at PROGRAM_START. */
  predicate Fits(program: seq<Byte>) { |program| + PROGRAM_START <= MEMORY_SIZE }

  /**
   * `cpu_load`: a program that does not fit changes nothing; otherwise it is
   * copied to PROGRAM_START and then the vector 0x8000 is written at 0xFFFC,
   * over any program bytes there.  Registers do not change.
   */
  function Load(s: State, program: seq<Byte>): (r: State)
    ensures !Fits(program) ==> r == s
    ensures Fits(program) ==>
      && r.mem[RESET_VECTOR] == 0x00 && r.mem[RESET_VECTOR + 1] == 0x80
      && (forall i :: 0 <= i < |program| && PROGRAM_START + i != RESET_VECTOR && PROGRAM_START + i != RESET_VECTOR + 1 ==>
            r.mem[PROGRAM_START + i] == program[i])
      && (forall i :: 0 <= i < PROGRAM_START ==> r.mem[i] == s.mem[i])
      && (forall i :: PROGRAM_START + |program| <= i < MEMORY_SIZE && i != RESET_VECTOR && i != RESET_VECTOR + 1 ==> r.mem[i] == s.mem[i])
      && r.a == s.a && r.x == s.x && r.y == s.y && r.status == s.status && r.pc == s.pc
  {
    if !Fits(program) then s
    else
      var copied := Copy(s.mem, PROGRAM_START, program);
      LoadedProgramBytes(s.mem, program);
      s.(mem := WriteWord(copied, RESET_VECTOR, PROGRAM_START))
  }

  /**
   * After the copy and the vector write, every program byte outside the two
   * vector cells is in place: this covers 0xFFFE, which holds the last byte
   * of a program of the largest accepted length.
   */
  lemma LoadedProgramBytes(mem: Mem, program: seq<Byte>)
    requires Fits(program)
    ensures var r := WriteWord(Copy(mem, PROGRAM_START, program), RESET_VECTOR, PROGRAM_START);
      forall i :: 0 <= i < |program| && PROGRAM_START + i != RESET_VECTOR && PROGRAM_START + i != RESET_VECTOR + 1 ==>
        r[PROGRAM_START + i] == program[i]
  {
    var copied := Copy(mem, PROGRAM_START, program);
    var r := WriteWord(copied, RESET_VECTOR, PROGRAM_START);
    forall i | 0 <= i < |program| && PROGRAM_START + i != RESET_VECTOR && PROGRAM_START + i != RESET_VECTOR + 1
      ensures r[PROGRAM_START + i] == program[i]
    {
      assert Next(RESET_VECTOR) == RESET_VECTOR + 1;
      assert r[PROGRAM_START + i] == copied[PROGRAM_START + i];
    }
  }

  /** Loading a program that fits and then resetting starts execution at PROGRAM_START. */
  lemma LoadThenResetStartsAtProgram(s: State, program: seq<Byte>)
    requires Fits(program)
    ensures Reset(Load(s, program)).pc == PROGRAM_START
  {
    var l := Load(s, program);
    assert ReadWord(l.mem, RESET_VECTOR) == 0x8000 by {
      assert l.mem[RESET_VECTOR] == 0x00 && l.mem[RESET_VECTOR + 1] == 0x80;
    }
  }

  /** What one turn of the loop ends in. */
  datatype StepResult =
    | Continue(next: State)   // an instruction was executed; the loop goes on
    | Halt(final: State)      // BRK: the loop returns
    | Fault(at: State)        // the turn would index memory[0xFFFF], past the array

  /**
   * The program counter after an instruction of `length` bytes whose opcode
   * has been consumed: `pc + bytes - 1` stored into a `ushort`.
   */
  function Advance(s: State, length: Byte): State
  {
    s.(pc := (s.pc + length - 1) % 0x1_0000)
  }

  /**
   * One turn of `cpu_run`: fetch the opcode at pc, decode it, move pc past
   * it, dispatch, and move pc past the operand bytes.  BRK returns with pc
   * one past the BRK.  ASL has no case in the dispatch and would only
   * consume its opcode.
   */
  function Step(s: State): StepResult
  {
    if !InBounds(s.pc) then Fault(s)
    else Execute(s.(pc := Next(s.pc)), Decode(s.mem[s.pc]))
  }

  /**
   * The `switch` of `cpu_run` on a decoded instruction whose opcode has been
   * consumed: execute it and move pc past its operands.  BRK halts; ASL has
   * no case and does nothing; an operand outside the array faults.
   */
  function Execute(t: State, d: InstructionSet): StepResult
  {
    match d.instruction
    case BRK => Halt(t)
    case ADC => if Accessible(t, d.mode) then Continue(Advance(Adc(t, d.mode), d.bytes)) else Fault(t)
    case AND => if Accessible(t, d.mode) then Continue(Advance(And(t, d.mode), d.bytes)) else Fault(t)
    case LDA => if Accessible(t, d.mode) then Continue(Advance(Lda(t, d.mode), d.bytes)) else Fault(t)
    case TAX => Continue(Advance(Tax(t), d.bytes))
    case INX => Continue(Advance(Inx(t), d.bytes))
    case INY => Continue(Advance(Iny(t), d.bytes))
    case ASL => Continue(t)
  }

  /** How a bounded run ended. */
  datatype Outcome = Halted | OutOfFuel | OutOfBounds

  datatype RunResult = RunResult(outcome: Outcome, state: State)

  /** `cpu_run`, allowed at most `fuel` turns of its `while (1)` loop. */
  function Run(s: State, fuel: nat): RunResult
    decreases fuel, 0
  {
    if fuel == 0 then RunResult(OutOfFuel, s)
    else Proceed(Step(s), fuel - 1)
  }

  /** The rest of a run after a turn that ended in `r`, with `fuel` turns left. */
  function Proceed(r: StepResult, fuel: nat): RunResult
    decreases fuel, 1
  {
    match r
    case Halt(t) => RunResult(Halted, t)
    case Fault(t) => RunResult(OutOfBounds, t)
    case Continue(t) => Run(t, fuel)
  }

  /** `cpu_load_and_run`: load, reset, run. */
  function LoadAndRun(s: State, program: seq<Byte>, fuel: nat): RunResult
  {
    Run(Reset(Load(s, program)), fuel)
  }

  /** A turn that continues hands the remaining fuel to the next state. */
  lemma RunContinues(s: State, t: State, fuel: nat)
    requires fuel > 0 && Step(s) == Continue(t)
    ensures Run(s, fuel) == Run(t, fuel - 1)
  {
  }

  /** A turn that halts ends the run, whatever fuel is left. */
  lemma RunHalts(s: State, t: State, fuel: nat)
    requires fuel > 0 && Step(s) == Halt(t)
    ensures Run(s, fuel) == RunResult(Halted, t)
  {
  }

  /** A turn that would leave the memory array ends the run, whatever fuel is left. */
  lemma RunFaults(s: State, t: State, fuel: nat)
    requires fuel > 0 && Step(s) == Fault(t)
    ensures Run(s, fuel) == RunResult(OutOfBounds, t)
  {
  }

  /**
   * An executed instruction other than ASL leaves pc at `bytes - 1` past
   * where it found it: the instruction functions themselves never move pc.
   */
  lemma ExecuteAdvancesPc(t: State, d: InstructionSet)
    requires Execute(t, d).Continue? && d.instruction != ASL
    ensures Execute(t, d).next.pc == (t.pc + d.bytes - 1) % 0x1_0000
  {
    match d.instruction
    case ADC => assert Adc(t, d.mode).pc == t.pc;
    case AND => assert And(t, d.mode).pc == t.pc;
    case LDA => assert Lda(t, d.mode).pc == t.pc;
    case TAX =>
    case INX =>
    case INY =>
  }

  /**
   * Every executed instruction moves pc past its opcode and operands: by
   * exactly the descriptor's length, modulo 65536.
   */
  lemma StepAdvancesPc(s: State)
    requires Step(s).Continue?
    ensures InBounds(s.pc)
    ensures Step(s).next.pc == (s.pc + Decode(s.mem[s.pc]).bytes) % 0x1_0000
  {
    var d := Decode(s.mem[s.pc]);
    var t := s.(pc := Next(s.pc));
    assert Step(s) == Execute(t, d);
    DecodeNeverAsl(s.mem[s.pc]);
    ExecuteAdvancesPc(t, d);
    assert t.pc == s.pc + 1;
  }

  /** BRK, and any opcode outside the table, stops the loop with pc one past it and nothing else changed. */
  lemma BrkHalts(s: State, fuel: nat)
    requires fuel > 0 && InBounds(s.pc)
    requires s.mem[s.pc] == 0x00 || s.mem[s.pc] !in Known
    ensures Run(s, fuel) == RunResult(Halted, s.(pc := (s.pc + 1) % 0x1_0000))
  {
    DecodeBrk(s.mem[s.pc]);
  }

  /** No turn of the loop writes memory: no opcode of the table is a store. */
  lemma StepKeepsMemory(s: State)
    ensures match Step(s)
      case Continue(t) => t.mem == s.mem
      case Halt(t) => t.mem == s.mem
      case Fault(t) => t.mem == s.mem
  {
  }

  /** A whole run leaves memory exactly as it found it. */
  lemma {:induction false} RunKeepsMemory(s: State, fuel: nat)
    ensures Run(s, fuel).state.mem == s.mem
    decreases fuel
  {
    StepKeepsMemory(s);
    if fuel > 0 && Step(s).Continue? {
      RunKeepsMemory(Step(s).next, fuel - 1);
    }
  }

  /** Once a run has stopped by itself, more fuel changes nothing. */
  lemma {:induction false} RunMoreFuel(s: State, fuel: nat, more: nat)
    requires fuel <= more && Run(s, fuel).outcome != OutOfFuel
    ensures Run(s, more) == Run(s, fuel)
    decreases fuel, 0
  {
    ProceedMoreFuel(Step(s), fuel - 1, more - 1);
  }

  lemma {:induction false} ProceedMoreFuel(r: StepResult, fuel: nat, more: nat)
    requires fuel <= more && Proceed(r, fuel).outcome != OutOfFuel
    ensures Proceed(r, more) == Proceed(r, fuel)
    decreases fuel, 1
  {
    if r.Continue? {
      RunMoreFuel(r.next, fuel, more);
    }
  }

  /** A run that uses up its fuel can be resumed: running f1 then f2 turns is running f1 + f2. */
  lemma {:induction false} RunResumes(s: State, f1: nat, f2: nat)
    requires Run(s, f1).outcome == OutOfFuel
    ensures Run(s, f1 + f2) == Run(Run(s, f1).state, f2)
    decreases f1, 0
  {
    if f1 > 0 {
      ProceedResumes(Step(s), f1 - 1, f2);
    }
  }

  lemma {:induction false} ProceedResumes(r: StepResult, f1: nat, f2: nat)
    requires Proceed(r, f1).outcome == OutOfFuel
    ensures Proceed(r, f1 + f2) == Run(Proceed(r, f1).state, f2)
    decreases f1, 1
  {
    RunResumes(r.next, f1, f2);
  }
}
