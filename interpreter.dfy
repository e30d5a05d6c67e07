/**
 * The interpreter of src/cpu.c as it runs: the static `cpu` is an object
 * whose fields the helpers update in place, and memory is the static array of
 * src/memory.c. Every helper is proved to do what the function of the same
 * name in module Semantics describes, and `Tick` to do one `Semantics.Step`.
 */
module Interpreter {
  import opened Bits
  import opened Memory
  import opened CpuTypes
  import opened Semantics

  /** `parity`: counts the set bits one at a time, then tests the count. */
  method Parity(value: Byte) returns (even: bool)
    ensures even == EvenParity(value)
  {
    var bits := 0;
    var v: nat := value;
    while v != 0
      invariant bits + PopCount(v) == PopCount(value)
      decreases v
    {
      bits := bits + v % 2;
      v := v / 2;
    }
    even := bits % 2 == 0;
  }

  /** The static `cpu`. The port callbacks of `struct CPU` are not used by
      src/cpu.c and are not modelled. */
  class Cpu {
    var regs: Registers
    var flags: Flags
    var sp: Word
    var pc: Word
    var interruptsEnabled: bool
    var interruptVector: Byte
    const memory: Memory

    ghost predicate Valid()
      reads memory, memory.cells
    {
      memory.Valid()
    }

    /** The whole state the interpreter runs on, as a value. */
    ghost function State(): Machine
      reads this, memory
    {
      Machine(regs, flags, sp, pc, interruptsEnabled, interruptVector, memory.contents)
    }

    /** A static object starts out all zero. */
    constructor (memory: Memory)
      requires memory.Valid()
      ensures Valid() && this.memory == memory
      ensures State() == Machine(
        Registers(0, 0, 0, 0), Flags(false, false, false, false, false),
        0, 0, false, 0, memory.contents)
    {
      regs := Registers(0, 0, 0, 0);
      flags := Flags(false, false, false, false, false);
      sp, pc := 0, 0;
      interruptsEnabled, interruptVector := false, 0;
      this.memory := memory;
    }

    method NextByte() returns (b: Byte)
      requires Valid()
      modifies this
      ensures (b, State()) == Semantics.NextByte(old(State()))
    {
      b := memory.Read(pc);
      pc := Wrap16(pc + 1);
    }

    method NextWord() returns (w: Word)
      requires Valid()
      modifies this
      ensures (w, State()) == Semantics.NextWord(old(State()))
    {
      var low := NextByte();
      var high := NextByte();
      w := Pair(high, low);
    }

    method SetZsp(value: Byte)
      requires Valid()
      modifies this
      ensures State() == old(State()).(flags := Zsp(old(flags), value))
    {
      flags := flags.(zero := value == 0);
      flags := flags.(sign := value >= 0x80);
      var even := Parity(value);
      flags := flags.(parity := even);
    }

    /** `dcr(&r)`: returns the new value of the register `reg` and sets the
        flags. */
    method Dcr(reg: Byte) returns (result: Byte)
      requires Valid()
      modifies this
      ensures (result, flags) == Semantics.Dcr(reg, old(flags))
      ensures State() == old(State()).(flags := flags)
    {
      var value := reg;
      result := Wrap8(reg - 1);
      SetZsp(value);
      flags := flags.(auxCarry := value % 0x10 == 0xf);
    }

    method Dad(value: Word)
      requires Valid()
      modifies this
      ensures State() == Semantics.Dad(old(State()), value)
    {
      regs := regs.(hl := Wrap16(regs.hl + value));
      flags := flags.(carry := regs.hl < value);
    }

    method Rrc()
      requires Valid()
      modifies this
      ensures State() == Semantics.Rrc(old(State()))
    {
      flags := flags.(carry := regs.a % 2 == 1);
      regs := regs.(a := regs.a / 2 + (if flags.carry then 0x80 else 0));
    }

    method Ana(value: Byte)
      requires Valid()
      modifies this
      ensures State() == Semantics.Ana(old(State()), value)
    {
      regs := regs.(a := And(regs.a, value));
      flags := flags.(carry := false);
      SetZsp(regs.a);
    }

    method Push(value: Word)
      requires Valid()
      modifies this, memory, memory.cells
      ensures Valid()
      ensures State() == Semantics.Push(old(State()), value)
    {
      sp := Wrap16(sp - 1);
      memory.Write(sp, value / 0x100);
      sp := Wrap16(sp - 1);
      memory.Write(sp, value % 0x100);
    }

    method Pop() returns (w: Word)
      requires Valid()
      modifies this
      ensures (w, State()) == Semantics.Pop(old(State()))
    {
      var low := memory.Read(sp);
      sp := Wrap16(sp + 1);
      var high := memory.Read(sp);
      sp := Wrap16(sp + 1);
      w := Pair(high, low);
    }

    /** The flag fields occupy distinct bits, so each `af |=` is an addition. */
    method PushPsw()
      requires Valid()
      modifies this, memory, memory.cells
      ensures Valid()
      ensures State() == Semantics.PushPsw(old(State()))
    {
      var af := regs.a * 0x100;
      af := af + Flag(flags.sign) * 0x80;
      af := af + Flag(flags.zero) * 0x40;
      af := af + Flag(flags.auxCarry) * 0x10;
      af := af + Flag(flags.parity) * 0x04;
      af := af + 0x02;
      af := af + Flag(flags.carry);
      Push(af);
    }

    method PopPsw()
      requires Valid()
      modifies this
      ensures State() == Semantics.PopPsw(old(State()))
    {
      var af := Pop();
      regs := regs.(a := af / 0x100);
      var psw := af % 0x100;
      flags := UnpackPsw(psw);
    }

    method Jmp(condition: bool)
      requires Valid()
      modifies this
      ensures State() == Semantics.Jmp(old(State()), condition)
    {
      var addr := NextWord();
      if condition {
        pc := addr;
      }
    }

    /** `add(&r, value)`: returns the new value of the register `reg` and
        sets the flags. */
    method Add(reg: Byte, value: Byte) returns (result: Byte)
      requires Valid()
      modifies this
      ensures (result, flags) == Semantics.Add(reg, value, old(flags))
      ensures State() == old(State()).(flags := flags)
    {
      result := Wrap8(reg + value);
      SetZsp(result);
      flags := flags.(carry := result < value);
      flags := flags.(auxCarry := result % 0x10 < value % 0x10);
    }

    method Ret(condition: bool)
      requires Valid()
      modifies this
      ensures State() == Semantics.Ret(old(State()), condition)
    {
      if condition {
        pc := Pop();
      }
    }

    method Call(condition: bool)
      requires Valid()
      modifies this, memory, memory.cells
      ensures Valid()
      ensures State() == Semantics.Call(old(State()), condition)
    {
      var addr := NextWord();
      if condition {
        Push(pc);
        pc := addr;
      }
    }

    method Out() returns (port: Byte)
      requires Valid()
      modifies this
      ensures (port, State()) == Semantics.Out(old(State()))
    {
      port := NextByte();
    }

    method Xchg()
      requires Valid()
      modifies this
      ensures State() == Semantics.Xchg(old(State()))
    {
      var temp := regs.de;
      regs := regs.(de := regs.hl);
      regs := regs.(hl := temp);
    }

    method Cmp(value: Byte)
      requires Valid()
      modifies this
      ensures State() == Semantics.Cmp(old(State()), value)
    {
      var comp := Wrap16(regs.a - value);
      SetZsp(Wrap8(comp));
      flags := flags.(carry := comp / 0x100 != 0);
    }

    method Rst(addr: Word)
      requires Valid()
      modifies this, memory, memory.cells
      ensures Valid()
      ensures State() == Semantics.Rst(old(State()), addr)
    {
      Push(pc);
      pc := addr;
    }

    /** The `cpu_tick` cases for opcodes 0x00-0x3F. */
    method ExecuteLoads(opcode: Byte) returns (outcome: Outcome)
      requires Valid() && opcode < 0x40
      modifies this, memory, memory.cells
      ensures Valid()
      ensures (outcome, State()) == Semantics.ExecuteLoads(opcode, old(State()))
    {
      outcome := Running;
      match opcode {
        // NOP
        case 0x00 =>
        // LXI
        case 0x01 => var w := NextWord(); regs := regs.(bc := w);
        case 0x11 => var w := NextWord(); regs := regs.(de := w);
        case 0x21 => var w := NextWord(); regs := regs.(hl := w);
        case 0x31 => var w := NextWord(); sp := w;
        // INX
        case 0x13 => regs := regs.(de := Wrap16(regs.de + 1));
        case 0x23 => regs := regs.(hl := Wrap16(regs.hl + 1));
        // DCR
        case 0x05 => var b := Dcr(regs.B()); regs := regs.SetB(b);
        case 0x3d => var a := Dcr(regs.a); regs := regs.(a := a);
        // MVI
        case 0x3e => var v := NextByte(); regs := regs.(a := v);
        case 0x06 => var v := NextByte(); regs := regs.SetB(v);
        case 0x0e => var v := NextByte(); regs := regs.SetC(v);
        case 0x26 => var v := NextByte(); regs := regs.SetH(v);
        case 0x36 => var v := NextByte(); memory.Write(regs.hl, v);
        // DAD
        case 0x09 => Dad(regs.bc);
        case 0x19 => Dad(regs.de);
        case 0x29 => Dad(regs.hl);
        // LDAX
        case 0x1a => var v := memory.Read(regs.de); regs := regs.(a := v);
        // RRC
        case 0x0f => Rrc();
        // STA
        case 0x32 => var addr := NextWord(); memory.Write(addr, regs.a);
        // LDA
        case 0x3a => var addr := NextWord(); var v := memory.Read(addr); regs := regs.(a := v);
        // Undocumented opcode, executed as a no-op
        case 0x20 =>
        case _ => outcome := Halted(opcode);
      }
    }

    /** The `cpu_tick` cases for opcodes 0x40-0x7F. */
    method ExecuteMoves(opcode: Byte) returns (outcome: Outcome)
      requires Valid() && 0x40 <= opcode < 0x80
      modifies this, memory, memory.cells
      ensures Valid()
      ensures (outcome, State()) == Semantics.ExecuteMoves(opcode, old(State()))
    {
      outcome := Running;
      match opcode {
        // MOV
        case 0x7a => regs := regs.(a := regs.D());
        case 0x7c => regs := regs.(a := regs.H());
        case 0x7e => var v := memory.Read(regs.hl); regs := regs.(a := v);
        case 0x56 => var v := memory.Read(regs.hl); regs := regs.SetD(v);
        case 0x5c => regs := regs.SetE(regs.H());
        case 0x5e => var v := memory.Read(regs.hl); regs := regs.SetE(v);
        case 0x66 => var v := memory.Read(regs.hl); regs := regs.SetH(v);
        case 0x6f => regs := regs.SetL(regs.a);
        case 0x77 => memory.Write(regs.hl, regs.a);
        case _ => outcome := Halted(opcode);
      }
    }

    /** The `cpu_tick` cases for opcodes 0x80-0xBF. */
    method ExecuteLogic(opcode: Byte) returns (outcome: Outcome)
      requires Valid() && 0x80 <= opcode < 0xc0
      modifies this, memory, memory.cells
      ensures Valid()
      ensures (outcome, State()) == Semantics.ExecuteLogic(opcode, old(State()))
    {
      outcome := Running;
      match opcode {
        // ANA
        case 0xa7 => Ana(regs.a);
        case _ => outcome := Halted(opcode);
      }
    }

    /** The `cpu_tick` cases for opcodes 0xC0-0xFF. */
    method ExecuteControl(opcode: Byte) returns (outcome: Outcome)
      requires Valid() && 0xc0 <= opcode
      modifies this, memory, memory.cells
      ensures Valid()
      ensures (outcome, State()) == Semantics.ExecuteControl(opcode, old(State()))
    {
      outcome := Running;
      match opcode {
        case 0xe6 => var v := NextByte(); Ana(v);
        // PUSH
        case 0xc5 => Push(regs.bc);
        case 0xd5 => Push(regs.de);
        case 0xe5 => Push(regs.hl);
        case 0xf5 => PushPsw();
        // POP
        case 0xc1 => var w := Pop(); regs := regs.(bc := w);
        case 0xd1 => var w := Pop(); regs := regs.(de := w);
        case 0xe1 => var w := Pop(); regs := regs.(hl := w);
        case 0xf1 => PopPsw();
        // JMP
        case 0xc2 => Jmp(!flags.zero);
        case 0xc3 => Jmp(true);
        case 0xca => Jmp(flags.zero);
        // ADD
        case 0xc6 => var v := NextByte(); var a := Add(regs.a, v); regs := regs.(a := a);
        // RET
        case 0xc9 => Ret(true);
        // CALL
        case 0xcd => Call(true);
        // OUT
        case 0xd3 => var port := Out(); outcome := Output(port);
        // XCHG
        case 0xeb => Xchg();
        // EI
        case 0xfb => interruptsEnabled := true;
        // CPI
        case 0xfe => var v := NextByte(); Cmp(v);
        // RST 7
        case 0xff => Rst(0x38);
        case _ => outcome := Halted(opcode);
      }
    }

    /** `cpu_tick`: fetch one opcode and execute it. */
    method Tick() returns (outcome: Outcome)
      requires Valid()
      modifies this, memory, memory.cells
      ensures Valid()
      ensures (outcome, State()) == Step(old(State()))
    {
      var opcode := NextByte();
      if opcode < 0x40 {
        outcome := ExecuteLoads(opcode);
      } else if opcode < 0x80 {
        outcome := ExecuteMoves(opcode);
      } else if opcode < 0xc0 {
        outcome := ExecuteLogic(opcode);
      } else {
        outcome := ExecuteControl(opcode);
      }
    }
  }
}
