/**
 * The programs of the repository's own test driver, run through the model
 * from a fresh CPU: each lemma states the register and flag values the
 * driver asserts after `cpu_load_and_run`.  The fuel given to each run is
 * the number of instructions the program executes, its final BRK included.
 */
module Scenarios {
  import opened CpuTypes
  import opened Flags
  import opened Memory
  import opened Opcodes
  import opened Machine

  /** A machine that has just been loaded with `program` and reset. */
  function Boot(s: State, program: seq<Byte>): State
  {
    Reset(Load(s, program))
  }

  /**
   * After loading and resetting, execution starts at PROGRAM_START with
   * every register and the status byte 0, and the program bytes are in
   * place.
   */
  lemma BootState(s: State, program: seq<Byte>)
    requires Fits(program) && PROGRAM_START + |program| <= RESET_VECTOR
    ensures var b := Boot(s, program);
      && b.pc == PROGRAM_START && b.a == 0 && b.x == 0 && b.y == 0 && b.status == 0
      && (forall i :: 0 <= i < |program| ==> b.mem[PROGRAM_START + i] == program[i])
      && (forall i :: 0 <= i < PROGRAM_START ==> b.mem[i] == s.mem[i])
  {
    LoadThenResetStartsAtProgram(s, program);
  }

  /** Opcode 0xA9, LDA immediate: A and its flags from the byte after the opcode, pc past both. */
  lemma StepLdaImmediate(s: State)
    requires s.pc + 1 < MEMORY_SIZE && s.mem[s.pc] == 0xA9
    ensures var v := s.mem[s.pc + 1];
      Step(s) == Continue(s.(a := v, status := ZeroAndNegative(s.status, v), pc := s.pc + 2))
  {
    assert Decode(0xA9) == InstructionSet(0xA9, LDA, 2, 2, Immediate);
  }

  /** Opcode 0xA5, LDA zero page: A and its flags from the zero-page cell the operand names. */
  lemma StepLdaZeroPage(s: State)
    requires s.pc + 1 < MEMORY_SIZE && s.mem[s.pc] == 0xA5
    ensures var v := s.mem[s.mem[s.pc + 1]];
      Step(s) == Continue(s.(a := v, status := ZeroAndNegative(s.status, v), pc := s.pc + 2))
  {
    assert Decode(0xA5) == InstructionSet(0xA5, LDA, 2, 3, ZeroPage);
  }

  /** Opcode 0x29, AND immediate: A becomes A & the byte after the opcode. */
  lemma StepAndImmediate(s: State)
    requires s.pc + 1 < MEMORY_SIZE && s.mem[s.pc] == 0x29
    ensures var v := BitAnd(s.a, s.mem[s.pc + 1]);
      Step(s) == Continue(s.(a := v, status := ZeroAndNegative(s.status, v), pc := s.pc + 2))
  {
    var t := s.(pc := s.pc + 1);
    assert Decode(0x29) == InstructionSet(0x29, AND, 2, 2, Immediate);
    assert Step(s) == Execute(t, Decode(0x29));
    ExecuteAndImmediate(t, Decode(0x29));
  }

  lemma ExecuteAndImmediate(t: State, d: InstructionSet)
    requires InBounds(t.pc) && d.instruction == AND && d.mode == Immediate && d.bytes == 2
    ensures var v := BitAnd(t.a, t.mem[t.pc]);
      Execute(t, d) == Continue(t.(a := v, status := ZeroAndNegative(t.status, v), pc := (t.pc + 1) % 0x1_0000))
  {
    assert Accessible(t, Immediate) && Operand(t, Immediate) == t.mem[t.pc];
  }

  /** Opcode 0x69, ADC immediate: the addition of `Adc` with the byte after the opcode. */
  lemma StepAdcImmediate(s: State)
    requires s.pc + 1 < MEMORY_SIZE && s.mem[s.pc] == 0x69
    ensures Step(s) == Continue(Adc(s.(pc := s.pc + 1), Immediate).(pc := s.pc + 2))
  {
    assert Decode(0x69) == InstructionSet(0x69, ADC, 2, 2, Immediate);
  }

  /** Opcode 0xAA, TAX: X and its flags from A, pc past the opcode. */
  lemma StepTax(s: State)
    requires s.pc < MEMORY_SIZE && s.mem[s.pc] == 0xAA
    ensures Step(s) == Continue(s.(x := s.a, status := ZeroAndNegative(s.status, s.a), pc := Next(s.pc)))
  {
    assert Decode(0xAA) == InstructionSet(0xAA, TAX, 1, 2, NoneMode);
  }

  /** Opcode 0xE8, INX: X goes up by one modulo 256, pc past the opcode. */
  lemma StepInx(s: State)
    requires s.pc < MEMORY_SIZE && s.mem[s.pc] == 0xE8
    ensures var v := (s.x + 1) % 256;
      Step(s) == Continue(s.(x := v, status := ZeroAndNegative(s.status, v), pc := Next(s.pc)))
  {
    assert Decode(0xE8) == InstructionSet(0xE8, INX, 1, 2, NoneMode);
  }

  /** Opcode 0x00, BRK: the run stops with pc one past it. */
  lemma StepBrk(s: State)
    requires s.pc < MEMORY_SIZE && s.mem[s.pc] == 0x00
    ensures Step(s) == Halt(s.(pc := Next(s.pc)))
  {
    assert Decode(0x00).instruction == BRK;
  }

  /** `test_0xa9_lda_immediate_load_data`: LDA #$05; BRK leaves A = 5 with Zero and Negative clear. */
  lemma LdaImmediateLoadData()
    ensures var r := LoadAndRun(Initial, [0xA9, 0x05, 0x00], 2);
      && r.outcome == Halted
      && r.state.a == 0x05 && !Zero(r.state.status) && !Negative(r.state.status)
  {
    var program := [0xA9, 0x05, 0x00];
    var s0 := Boot(Initial, program);
    BootState(Initial, program);
    StepLdaImmediate(s0);
    var s1 := s0.(a := 0x05, status := ZeroAndNegative(0, 0x05), pc := 0x8002);
    RunContinues(s0, s1, 2);
    StepBrk(s1);
    RunHalts(s1, s1.(pc := 0x8003), 1);
  }

  /** `test_0xa9_lda_zero_flag`: LDA #$00; BRK sets Zero. */
  lemma LdaZeroFlag()
    ensures var r := LoadAndRun(Initial, [0xA9, 0x00, 0x00], 2);
      r.outcome == Halted && Zero(r.state.status)
  {
    var program := [0xA9, 0x00, 0x00];
    var s0 := Boot(Initial, program);
    BootState(Initial, program);
    StepLdaImmediate(s0);
    var s1 := s0.(a := 0x00, status := ZeroAndNegative(0, 0x00), pc := 0x8002);
    RunContinues(s0, s1, 2);
    StepBrk(s1);
    RunHalts(s1, s1.(pc := 0x8003), 1);
  }

  /** `test_5ops_working_together`: LDA #$C0; TAX; INX; BRK leaves X = 0xC1. */
  lemma FiveOpsWorkingTogether()
    ensures var r := LoadAndRun(Initial, [0xA9, 0xC0, 0xAA, 0xE8, 0x00], 4);
      r.outcome == Halted && r.state.x == 0xC1
  {
    var program := [0xA9, 0xC0, 0xAA, 0xE8, 0x00];
    var s0 := Boot(Initial, program);
    BootState(Initial, program);
    StepLdaImmediate(s0);
    var s1 := s0.(a := 0xC0, status := ZeroAndNegative(0, 0xC0), pc := 0x8002);
    RunContinues(s0, s1, 4);
    StepTax(s1);
    var s2 := s1.(x := 0xC0, status := ZeroAndNegative(s1.status, 0xC0), pc := 0x8003);
    RunContinues(s1, s2, 3);
    StepInx(s2);
    var s3 := s2.(x := 0xC1, status := ZeroAndNegative(s2.status, 0xC1), pc := 0x8004);
    RunContinues(s2, s3, 2);
    StepBrk(s3);
    RunHalts(s3, s3.(pc := 0x8005), 1);
  }

  /** `test_lda_from_memory`: with 0x55 stored at 0x10, LDA $10; BRK leaves A = 0x55. */
  lemma LdaFromMemory()
    ensures var m := Initial.(mem := Write(Initial.mem, 0x10, 0x55));
      var r := LoadAndRun(m, [0xA5, 0x10, 0x00], 2);
      r.outcome == Halted && r.state.a == 0x55
  {
    var m := Initial.(mem := Write(Initial.mem, 0x10, 0x55));
    var program := [0xA5, 0x10, 0x00];
    var s0 := Boot(m, program);
    BootState(m, program);
    assert s0.mem[0x10] == 0x55;
    StepLdaZeroPage(s0);
    var s1 := s0.(a := 0x55, status := ZeroAndNegative(0, 0x55), pc := 0x8002);
    RunContinues(s0, s1, 2);
    StepBrk(s1);
    RunHalts(s1, s1.(pc := 0x8003), 1);
  }

  /** `test_0x29_and_immediate`: LDA #$05; AND #$06; BRK leaves A = 4 with Zero and Negative clear. */
  lemma AndImmediate()
    ensures var r := LoadAndRun(Initial, [0xA9, 0x05, 0x29, 0x06, 0x00], 3);
      && r.outcome == Halted
      && r.state.a == 0x04 && !Zero(r.state.status) && !Negative(r.state.status)
  {
    var program := [0xA9, 0x05, 0x29, 0x06, 0x00];
    var s0 := Boot(Initial, program);
    BootState(Initial, program);
    StepLdaImmediate(s0);
    var s1 := s0.(a := 0x05, status := ZeroAndNegative(0, 0x05), pc := 0x8002);
    RunContinues(s0, s1, 3);
    StepAndImmediate(s1);
    assert BitAnd(0x05, 0x06) == 0x04;
    var s2 := s1.(a := 0x04, status := ZeroAndNegative(s1.status, 0x04), pc := 0x8004);
    RunContinues(s1, s2, 2);
    StepBrk(s2);
    RunHalts(s2, s2.(pc := 0x8005), 1);
  }

  /** `test_0x69_adc_immediate`: LDA #$05; ADC #$06; BRK leaves A = 11 with Zero, Negative and Carry clear. */
  lemma AdcImmediate()
    ensures var r := LoadAndRun(Initial, [0xA9, 0x05, 0x69, 0x06, 0x00], 3);
      && r.outcome == Halted
      && r.state.a == 0x0B && !Zero(r.state.status) && !Negative(r.state.status) && !Carry(r.state.status)
  {
    var program := [0xA9, 0x05, 0x69, 0x06, 0x00];
    var s0 := Boot(Initial, program);
    BootState(Initial, program);
    StepLdaImmediate(s0);
    var s1 := s0.(a := 0x05, status := ZeroAndNegative(0, 0x05), pc := 0x8002);
    RunContinues(s0, s1, 3);
    StepAdcImmediate(s1);
    var s2 := Adc(s1.(pc := 0x8003), Immediate).(pc := 0x8004);
    assert s2.a == 0x0B && !Zero(s2.status) && !Negative(s2.status) && !Carry(s2.status);
    RunContinues(s1, s2, 2);
    StepBrk(s2);
    RunHalts(s2, s2.(pc := 0x8005), 1);
  }

  /** 0xFF + 0x01 with Carry clear: A wraps to 0, Carry is set, and Negative follows the old A. */
  lemma AdcWrapsToZero(t: State)
    requires InBounds(t.pc) && t.a == 0xFF && t.status == 0x80 && t.mem[t.pc] == 0x01
    ensures Adc(t, Immediate).a == 0x00 && Adc(t, Immediate).status == 0x81
  {
    var r := Adc(t, Immediate);
    assert Operand(t, Immediate) == 0x01 && CarryIn(t.status) == 0;
    assert Carry(r.status) && !Overflow(r.status) && !Zero(r.status) && Negative(r.status);
  }

  /** 0x02 + 0x02 with Carry set: A becomes 5 and every flag is clear. */
  lemma AdcAddsCarryIn(t: State)
    requires InBounds(t.pc) && t.a == 0x02 && t.status == 0x01 && t.mem[t.pc] == 0x02
    ensures Adc(t, Immediate).a == 0x05 && Adc(t, Immediate).status == 0x00
  {
    var r := Adc(t, Immediate);
    assert Operand(t, Immediate) == 0x02 && CarryIn(t.status) == 1;
    assert !Carry(r.status) && !Overflow(r.status) && !Zero(r.status) && !Negative(r.status);
  }

  /**
   * `test_0x69_adc_immediate_carry`: LDA #$FF; ADC #$01; BRK wraps A to 0
   * and sets Carry.  Zero is clear and Negative set because both follow A
   * as it was before the addition (0xFF); Overflow is clear because the
   * truncated sum, 0, is not above 127.
   */
  lemma AdcImmediateCarry()
    ensures var r := LoadAndRun(Initial, [0xA9, 0xFF, 0x69, 0x01, 0x00], 3);
      && r.outcome == Halted
      && r.state.a == 0x00 && !Zero(r.state.status) && Negative(r.state.status) && Carry(r.state.status)
      && !Overflow(r.state.status)
  {
    var program := [0xA9, 0xFF, 0x69, 0x01, 0x00];
    var s0 := Boot(Initial, program);
    BootState(Initial, program);
    assert s0.mem[0x8000] == 0xA9 && s0.mem[0x8001] == 0xFF && s0.mem[0x8002] == 0x69;
    assert s0.mem[0x8003] == 0x01 && s0.mem[0x8004] == 0x00;
    CarryPrefix(s0, 3);
    var s2 := s0.(a := 0x00, status := 0x81, pc := 0x8004);
    StepBrk(s2);
    RunHalts(s2, s2.(pc := 0x8005), 1);
  }

  /** The prefix shared by both carry programs: LDA #$FF; ADC #$01 leaves A = 0 and the status byte 0x81. */
  lemma CarryPrefix(s0: State, fuel: nat)
    requires fuel >= 2 && s0.pc == 0x8000 && s0.status == 0x00
    requires s0.mem[0x8000] == 0xA9 && s0.mem[0x8001] == 0xFF
    requires s0.mem[0x8002] == 0x69 && s0.mem[0x8003] == 0x01
    ensures Run(s0, fuel) == Run(s0.(a := 0x00, status := 0x81, pc := 0x8004), fuel - 2)
  {
    StepLdaImmediate(s0);
    var s1 := s0.(a := 0xFF, status := ZeroAndNegative(0, 0xFF), pc := 0x8002);
    assert s1.status == 0x80;
    RunContinues(s0, s1, fuel);
    StepAdcImmediate(s1);
    AdcWrapsToZero(s1.(pc := 0x8003));
    var s2 := Adc(s1.(pc := 0x8003), Immediate).(pc := 0x8004);
    assert s2 == s0.(a := 0x00, status := 0x81, pc := 0x8004);
    RunContinues(s1, s2, fuel - 1);
  }

  /** The rest of the carry-through program: LDA #$02; ADC #$02; BRK with Carry set on entry. */
  lemma CarryThroughSuffix(s2: State)
    requires s2.pc == 0x8004 && s2.status == 0x81
    requires s2.mem[0x8004] == 0xA9 && s2.mem[0x8005] == 0x02
    requires s2.mem[0x8006] == 0x69 && s2.mem[0x8007] == 0x02 && s2.mem[0x8008] == 0x00
    ensures var r := Run(s2, 3); r.outcome == Halted && r.state.a == 0x05 && r.state.status == 0x00
  {
    StepLdaImmediate(s2);
    var s3 := s2.(a := 0x02, status := ZeroAndNegative(0x81, 0x02), pc := 0x8006);
    assert s3.status == 0x01;
    RunContinues(s2, s3, 3);
    StepAdcImmediate(s3);
    AdcAddsCarryIn(s3.(pc := 0x8007));
    var s4 := Adc(s3.(pc := 0x8007), Immediate).(pc := 0x8008);
    RunContinues(s3, s4, 2);
    StepBrk(s4);
    RunHalts(s4, s4.(pc := 0x8009), 1);
  }

  /**
   * `test_0x69_adc_immediate_carry_through`: the carry left by 0xFF + 1 is
   * added into the next ADC, so 2 + 2 gives 5, and Zero, Negative, Carry
   * and Overflow all end clear.
   */
  lemma AdcImmediateCarryThrough()
    ensures var r := LoadAndRun(Initial, [0xA9, 0xFF, 0x69, 0x01, 0xA9, 0x02, 0x69, 0x02, 0x00], 5);
      && r.outcome == Halted
      && r.state.a == 0x05 && !Zero(r.state.status) && !Negative(r.state.status) && !Carry(r.state.status)
      && !Overflow(r.state.status)
  {
    var program := [0xA9, 0xFF, 0x69, 0x01, 0xA9, 0x02, 0x69, 0x02, 0x00];
    var s0 := Boot(Initial, program);
    BootState(Initial, program);
    assert s0.mem[0x8000] == 0xA9 && s0.mem[0x8001] == 0xFF && s0.mem[0x8002] == 0x69 && s0.mem[0x8003] == 0x01;
    assert s0.mem[0x8004] == 0xA9 && s0.mem[0x8005] == 0x02 && s0.mem[0x8006] == 0x69;
    assert s0.mem[0x8007] == 0x02 && s0.mem[0x8008] == 0x00;
    CarryPrefix(s0, 5);
    CarryThroughSuffix(s0.(a := 0x00, status := 0x81, pc := 0x8004));
  }
}
