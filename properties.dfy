/**
 * Properties of whole instructions: what one `cpu_tick` (`Semantics.Step`)
 * does for the opcodes that matter to the programs the emulator runs, and how
 * the dispatch treats opcodes it has no case for.
 */
module Properties {
  import opened Bits
  import opened Memory
  import opened CpuTypes
  import opened Semantics

  /** The dispatch halts exactly on the opcodes it has no case for, and then
      nothing but the opcode fetch has happened. */
  lemma HaltsExactlyWhenUnimplemented(opcode: Byte, m: Machine)
    ensures Execute(opcode, m).0.Halted? <==> !Implemented(opcode)
    ensures !Implemented(opcode) ==> Execute(opcode, m) == (Halted(opcode), m)
  {
    if opcode < 0x40 {
      assert Execute(opcode, m) == ExecuteLoads(opcode, m);
    } else if opcode < 0x80 {
      assert Execute(opcode, m) == ExecuteMoves(opcode, m);
    } else if opcode < 0xc0 {
      assert Execute(opcode, m) == ExecuteLogic(opcode, m);
    } else {
      assert Execute(opcode, m) == ExecuteControl(opcode, m);
    }
  }

  /** Only OUT reports a port write. */
  lemma OutputOnlyFromOut(opcode: Byte, m: Machine)
    ensures Execute(opcode, m).0.Output? <==> opcode == 0xd3
  {
  }

  /** Only DCR, DAD, RRC, ANA, ANI, POP PSW, ADI and CPI touch the flags:
      loads, moves, increments, stores, the other stack operations, jumps,
      calls, returns, OUT, XCHG, EI and RST leave all five as they were. */
  lemma FlagsOnlyFromFlagOps(opcode: Byte, m: Machine)
    requires !ChangesFlags(opcode)
    ensures Execute(opcode, m).1.flags == m.flags
  {
    if opcode < 0x40 {
      assert Execute(opcode, m) == ExecuteLoads(opcode, m);
    } else if opcode < 0x80 {
      assert Execute(opcode, m) == ExecuteMoves(opcode, m);
    } else if opcode < 0xc0 {
      assert Execute(opcode, m) == ExecuteLogic(opcode, m);
    } else {
      assert Execute(opcode, m) == ExecuteControl(opcode, m);
    }
  }

  /** Only MVI M, STA, MOV M,A, the PUSHes, CALL and RST write memory. */
  lemma MemoryOnlyFromWrites(opcode: Byte, m: Machine)
    requires !WritesMemory(opcode)
    ensures Execute(opcode, m).1.mem == m.mem
  {
    if opcode < 0x40 {
      assert Execute(opcode, m) == ExecuteLoads(opcode, m);
    } else if opcode < 0x80 {
      assert Execute(opcode, m) == ExecuteMoves(opcode, m);
    } else if opcode < 0xc0 {
      assert Execute(opcode, m) == ExecuteLogic(opcode, m);
    } else {
      assert Execute(opcode, m) == ExecuteControl(opcode, m);
    }
  }

  /** EI is the only instruction that touches the interrupt state: it sets
      `interrupts_enabled`, and nothing ever changes `interrupt_vector`. */
  lemma InterruptStateOnlyFromEi(opcode: Byte, m: Machine)
    ensures Execute(opcode, m).1.interruptsEnabled == (m.interruptsEnabled || opcode == 0xfb)
    ensures Execute(opcode, m).1.interruptVector == m.interruptVector
  {
    if opcode < 0x40 {
      assert Execute(opcode, m) == ExecuteLoads(opcode, m);
    } else if opcode < 0x80 {
      assert Execute(opcode, m) == ExecuteMoves(opcode, m);
    } else if opcode < 0xc0 {
      assert Execute(opcode, m) == ExecuteLogic(opcode, m);
    } else {
      assert Execute(opcode, m) == ExecuteControl(opcode, m);
    }
  }

  /** NOP and the undocumented 0x20 only move `pc` past the opcode. */
  lemma NoOperation(m: Machine)
    requires m.mem[m.pc] == 0x00 || m.mem[m.pc] == 0x20
    ensures Step(m) == (Running, m.(pc := Wrap16(m.pc + 1)))
  {
  }

  /** INR A (0x3C) is not among the cases of this interpreter: it halts. */
  lemma IncrementAccumulatorHalts(m: Machine)
    requires m.mem[m.pc] == 0x3c
    ensures Step(m) == (Halted(0x3c), m.(pc := Wrap16(m.pc + 1)))
  {
  }

  /** A conditional jump whose condition fails still skips its two operand
      bytes: JNZ with zero set and JZ with zero clear both fall through to
      the next instruction. */
  lemma JumpNotTakenSkipsOperands(m: Machine)
    requires (m.mem[m.pc] == 0xc2 && m.flags.zero) || (m.mem[m.pc] == 0xca && !m.flags.zero)
    ensures Step(m) == (Running, m.(pc := Wrap16(m.pc + 3)))
  {
    var m1 := NextByte(m).1;
    assert Wrap16(m1.pc + 2) == Wrap16(m.pc + 3);
  }

  /** JMP goes to the little-endian address in its operand bytes. */
  lemma JumpTaken(m: Machine)
    requires m.mem[m.pc] == 0xc3
    ensures Step(m) == (Running, m.(pc := Pair(m.mem[Wrap16(m.pc + 2)], m.mem[Wrap16(m.pc + 1)])))
  {
  }

  /** One step of an opcode from the last quarter of the opcode map. */
  lemma StepControl(m: Machine)
    requires m.mem[m.pc] >= 0xc0
    ensures Step(m) == ExecuteControl(m.mem[m.pc], NextByte(m).1)
  {
  }

  /** CALL (0xCD) is an unconditional `call`. */
  lemma StepCall(m: Machine)
    requires m.mem[m.pc] == 0xcd
    ensures Step(m) == (Running, Call(NextByte(m).1, true))
  {
    StepControl(m);
  }

  /** CALL pushes the address of the instruction after its three bytes, high
      byte above low byte, and jumps to its operand. */
  lemma CallPushesReturnAddress(m: Machine)
    requires m.mem[m.pc] == 0xcd
    ensures var r := Step(m).1; var back := Wrap16(m.pc + 3);
      && r.pc == Pair(m.mem[Wrap16(m.pc + 2)], m.mem[Wrap16(m.pc + 1)])
      && r.sp == Wrap16(m.sp - 2)
      && r.mem[Wrap16(m.sp - 1)] == High(back) && r.mem[Wrap16(m.sp - 2)] == Low(back)
  {
    StepCall(m);
    var m1 := NextByte(m).1;
    assert Wrap16(m1.pc + 2) == Wrap16(m.pc + 3);
    assert Wrap16(m1.pc + 1) == Wrap16(m.pc + 2);
  }

  /** RET pops `pc` off the stack, low byte first. */
  lemma ReturnPopsAddress(m: Machine)
    requires m.mem[m.pc] == 0xc9
    ensures Step(m) == (Running, m.(pc := Pair(m.mem[Wrap16(m.sp + 1)], m.mem[m.sp]), sp := Wrap16(m.sp + 2)))
  {
    StepControl(m);
  }

  /** PUSH B stores `bc` below `sp`, and POP D loads `de` from `sp`. */
  lemma PushAndPopRegisterPairs(m: Machine)
    ensures m.mem[m.pc] == 0xc5 ==>
      Step(m) == (Running, Push(m.(pc := Wrap16(m.pc + 1)), m.regs.bc))
    ensures m.mem[m.pc] == 0xd1 ==>
      Step(m) == (Running, m.(pc := Wrap16(m.pc + 1), sp := Wrap16(m.sp + 2),
        regs := m.regs.(de := Pair(m.mem[Wrap16(m.sp + 1)], m.mem[m.sp]))))
  {
    if m.mem[m.pc] == 0xc5 || m.mem[m.pc] == 0xd1 {
      StepControl(m);
    }
  }

  /** ADI 1 with 0xFF in the accumulator wraps it to zero and sets carry,
      aux-carry, zero and parity while clearing sign. */
  lemma AddImmediateWraps(m: Machine)
    requires m.mem[m.pc] == 0xc6 && m.mem[Wrap16(m.pc + 1)] == 0x01 && m.regs.a == 0xff
    ensures var r := Step(m).1;
      r.regs.a == 0 && r.flags == Flags(false, true, true, true, true) && r.pc == Wrap16(m.pc + 2)
  {
    var r := Step(m).1;
    assert EvenParity(0);
    assert !Bit(0, 7);
  }

  /** DCR B on 1 leaves 0 in B but the zero flag clear: this interpreter
      takes zero, sign and parity from the value before the decrement. */
  lemma DecrementFlagsFromOldValue(m: Machine)
    requires m.mem[m.pc] == 0x05 && m.regs.B() == 1
    ensures Step(m).1.regs.B() == 0 && !Step(m).1.flags.zero
  {
  }

  /** ANA A keeps the accumulator, clears carry and leaves aux-carry as it
      was. */
  lemma AndAccumulatorWithItself(m: Machine)
    requires m.mem[m.pc] == 0xa7
    ensures Step(m).1.regs.a == m.regs.a
    ensures !Step(m).1.flags.carry && Step(m).1.flags.auxCarry == m.flags.auxCarry
  {
    AndSelf(m.regs.a);
  }

  /** CPI with the accumulator's own value sets zero, clears carry and keeps
      the accumulator. */
  lemma CompareEqual(m: Machine)
    requires m.mem[m.pc] == 0xfe && m.mem[Wrap16(m.pc + 1)] == m.regs.a
    ensures Step(m).1.flags.zero && !Step(m).1.flags.carry
    ensures Step(m).1.regs == m.regs
  {
  }

  /** The CP/M patch that `load_test` writes: a program calling address 5
      runs OUT 1, then returns to its caller. */
  lemma TestPatchReturns(m: Machine, before: Ram, image: seq<Byte>)
    requires |image| <= TestImageSize
    requires m.mem == TestImage(before, image) && m.pc == 5
    ensures Step(m) == (Output(1), m.(pc := 7))
    ensures Step(Step(m).1) == (Running, Ret(m.(pc := 8), true))
  {
  }
}
