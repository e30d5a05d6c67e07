/**
 * What each helper of src/cpu.c and the `cpu_tick` dispatch do, as functions
 * from the machine state before to the machine state after. The interpreter
 * in module Interpreter performs the same steps in place and is proved to
 * agree with these functions; the properties of the instruction set are
 * proved here, once, about the functions.
 */
module Semantics {
  import opened Bits
  import opened Memory
  import opened CpuTypes

  /** The static `cpu` of src/cpu.c (the fields of `struct CPU` that the
      interpreter uses) together with the address space of src/memory.c. */
  datatype Machine = Machine(
    regs: Registers,
    flags: Flags,
    sp: Word,
    pc: Word,
    interruptsEnabled: bool,
    interruptVector: Byte,
    mem: Ram)
  {
    function SpLow(): Byte { Low(sp) }
    function SpHi(): Byte { High(sp) }
    function PcLow(): Byte { Low(pc) }
    function PcHi(): Byte { High(pc) }
  }

  /** The stack pointer and the program counter alias their byte halves the
      same way the register pairs do. */
  lemma SpPcHalves(m: Machine)
    ensures m.sp == m.SpHi() * 0x100 + m.SpLow()
    ensures m.pc == m.PcHi() * 0x100 + m.PcLow()
  {
    PairOfHalves(m.sp);
    PairOfHalves(m.pc);
  }

  /** How one `cpu_tick` ends: it carries on, it wrote to a port (only the
      port number is modelled), or it met an opcode with no case and the
      process quit. */
  datatype Outcome = Running | Output(port: Byte) | Halted(opcode: Byte)

  /** Conversion to `u8` (truncation). */
  function Wrap8(x: int): Byte {
    x % 0x100
  }

  /** Conversion to `u16` (truncation). */
  function Wrap16(x: int): Word {
    x % 0x1_0000
  }

  /** `next_byte`: the byte at `pc`, with `pc` post-incremented (wrapping). */
  function NextByte(m: Machine): (r: (Byte, Machine))
    ensures r.0 == m.mem[m.pc]
    ensures r.1 == m.(pc := if m.pc == 0xFFFF then 0 else m.pc + 1)
  {
    (m.mem[m.pc], m.(pc := Wrap16(m.pc + 1)))
  }

  /** `next_word`: two `next_byte`s, the first one the low byte. C leaves the
      order of the two calls in `next_word` unspecified; this is the order
      the code evidently intends. */
  function NextWord(m: Machine): (r: (Word, Machine))
    ensures Low(r.0) == m.mem[m.pc] && High(r.0) == m.mem[Wrap16(m.pc + 1)]
    ensures r.1 == m.(pc := Wrap16(m.pc + 2))
  {
    var (low, m1) := NextByte(m);
    var (high, m2) := NextByte(m1);
    (Pair(high, low), m2)
  }

  /** `set_zsp`: zero, sign and parity describe `value`; aux-carry and carry
      are not touched. */
  function Zsp(f: Flags, value: Byte): (r: Flags)
    ensures r.zero <==> value == 0
    ensures r.sign <==> Bit(value, 7)
    ensures r.parity <==> EvenParity(value)
    ensures r.auxCarry == f.auxCarry && r.carry == f.carry
  {
    f.(zero := value == 0, sign := value >= 0x80, parity := EvenParity(value))
  }

  /** `dcr`: the register is decremented modulo 256 and carry is kept; but
      zero, sign, parity and aux-carry are computed from the value before the
      decrement (`u8 value = (*reg)--`). */
  function Dcr(reg: Byte, f: Flags): (r: (Byte, Flags))
    ensures Wrap8(r.0 + 1) == reg
    ensures r.1.zero <==> reg == 0
    ensures r.1.sign <==> Bit(reg, 7)
    ensures r.1.parity <==> EvenParity(reg)
    ensures r.1.auxCarry <==> reg % 0x10 == 0xf
    ensures r.1.carry == f.carry
  {
    var value := reg;
    assert Wrap8(Wrap8(reg - 1) + 1) == reg by {
      if reg == 0 {
        assert Wrap8(reg - 1) == 0xff;
      } else {
        assert Wrap8(reg - 1) == reg - 1;
      }
    }
    (Wrap8(reg - 1), Zsp(f, value).(auxCarry := value % 0x10 == 0xf))
  }

  /** `dad`: `hl` plus a pair, as a 17-bit sum whose top bit is carry; no
      other flag changes. */
  function Dad(m: Machine, value: Word): (r: Machine)
    ensures r.regs.hl + (if r.flags.carry then 0x1_0000 else 0) == m.regs.hl + value
    ensures r == m.(regs := m.regs.(hl := r.regs.hl), flags := m.flags.(carry := r.flags.carry))
  {
    var hl := Wrap16(m.regs.hl + value);
    m.(regs := m.regs.(hl := hl), flags := m.flags.(carry := hl < value))
  }

  /** Rotating a byte right by one moves bit 0 to bit 7 and every other bit
      down by one. */
  lemma RotateRightBits(x: Byte)
    ensures var r := x / 2 + (if x % 2 == 1 then 0x80 else 0);
      Bit(r, 7) == Bit(x, 0) && forall i: nat :: i < 7 ==> Bit(r, i) == Bit(x, i + 1)
  {
    var r := x / 2 + (if x % 2 == 1 then 0x80 else 0);
    forall i: nat | i < 7
      ensures Bit(r, i) == Bit(x, i + 1)
    {
      BitOfHalf(x, i);
      BitsBelowSeven(x / 2, if x % 2 == 1 then 1 else 0, i);
    }
  }

  /** Adding a multiple of 0x80 to a value below 0x80 leaves bits 0 to 6 as
      they were. */
  lemma BitsBelowSeven(y: nat, t: nat, i: nat)
    requires y < 0x80 && t <= 1 && i < 7
    ensures Bit(y + 0x80 * t, i) == Bit(y, i)
  {
    Pow2Add(i + 1, 6 - i);
    assert i + 1 + (6 - i) == 7;
    assert Pow2(7) == 0x80;
    assert Pow2(i + 1) == 2 * Pow2(i);
    assert 0x80 == 2 * Pow2(i) * Pow2(6 - i);
    assert 0x80 * t == 2 * Pow2(i) * (Pow2(6 - i) * t);
    BitAddEvenMultiple(y, Pow2(6 - i) * t, i);
  }

  /** The eight bits of a byte, each as a division by a constant. */
  lemma BitsOfByte(x: nat)
    ensures Bit(x, 0) == (x % 2 == 1) && Bit(x, 1) == ((x / 2) % 2 == 1)
    ensures Bit(x, 2) == ((x / 4) % 2 == 1) && Bit(x, 3) == ((x / 8) % 2 == 1)
    ensures Bit(x, 4) == ((x / 0x10) % 2 == 1) && Bit(x, 5) == ((x / 0x20) % 2 == 1)
    ensures Bit(x, 6) == ((x / 0x40) % 2 == 1) && Bit(x, 7) == ((x / 0x80) % 2 == 1)
  {
  }

  /** `rrc`: the accumulator rotates right by one bit and its old bit 0 goes
      both to bit 7 and to carry. */
  function Rrc(m: Machine): (r: Machine)
    ensures r.flags.carry == Bit(m.regs.a, 0)
    ensures Bit(r.regs.a, 7) == Bit(m.regs.a, 0)
    ensures forall i: nat :: i < 7 ==> Bit(r.regs.a, i) == Bit(m.regs.a, i + 1)
    ensures r == m.(regs := m.regs.(a := r.regs.a), flags := m.flags.(carry := r.flags.carry))
  {
    var carry := m.regs.a % 2 == 1;
    RotateRightBits(m.regs.a);
    m.(regs := m.regs.(a := m.regs.a / 2 + (if carry then 0x80 else 0)), flags := m.flags.(carry := carry))
  }

  lemma AndAllBits(x: nat, y: nat)
    ensures forall i: nat :: Bit(And(x, y), i) <==> Bit(x, i) && Bit(y, i)
  {
    forall i: nat
      ensures Bit(And(x, y), i) <==> Bit(x, i) && Bit(y, i)
    {
      AndBits(x, y, i);
    }
  }

  /** `ana`: the accumulator keeps exactly the bits set in both it and
      `value`; carry is cleared, zero, sign and parity describe the result,
      and aux-carry is not touched. */
  function Ana(m: Machine, value: Byte): (r: Machine)
    ensures forall i: nat :: Bit(r.regs.a, i) <==> Bit(m.regs.a, i) && Bit(value, i)
    ensures r.flags == Zsp(m.flags, r.regs.a).(carry := false)
    ensures r == m.(regs := m.regs.(a := r.regs.a), flags := r.flags)
  {
    AndAllBits(m.regs.a, value);
    var a := And(m.regs.a, value);
    m.(regs := m.regs.(a := a), flags := Zsp(m.flags.(carry := false), a))
  }

  /** `push`: `sp` drops by two (wrapping); the high byte goes to the higher
      address and the low byte below it; no other cell changes. */
  function Push(m: Machine, value: Word): (r: Machine)
    ensures r.sp == Wrap16(m.sp - 2)
    ensures r.mem[Wrap16(m.sp - 1)] == High(value) && r.mem[Wrap16(m.sp - 2)] == Low(value)
    ensures forall k :: 0 <= k < Size && k != Wrap16(m.sp - 1) && k != Wrap16(m.sp - 2) ==> r.mem[k] == m.mem[k]
    ensures r == m.(sp := r.sp, mem := r.mem)
  {
    var m1 := m.(sp := Wrap16(m.sp - 1));
    var m2 := m1.(mem := m1.mem[m1.sp := value / 0x100]);
    var m3 := m2.(sp := Wrap16(m2.sp - 1));
    m3.(mem := m3.mem[m3.sp := value % 0x100])
  }

  /** `pop`: the little-endian word at `sp`; `sp` rises by two (wrapping). */
  function Pop(m: Machine): (r: (Word, Machine))
    ensures Low(r.0) == m.mem[m.sp] && High(r.0) == m.mem[Wrap16(m.sp + 1)]
    ensures r.1 == m.(sp := Wrap16(m.sp + 2))
  {
    var low := m.mem[m.sp];
    var m1 := m.(sp := Wrap16(m.sp + 1));
    var high := m1.mem[m1.sp];
    var m2 := m1.(sp := Wrap16(m1.sp + 1));
    (Pair(high, low), m2)
  }

  /** A pop right after a push gives back the pushed word and the old `sp`. */
  lemma PushThenPop(m: Machine, value: Word)
    ensures Pop(Push(m, value)).0 == value
    ensures Pop(Push(m, value)).1 == m.(mem := Push(m, value).mem)
  {
    PairOfHalves(value);
  }

  function Flag(b: bool): nat {
    if b then 1 else 0
  }

  /** The status byte `push_psw` builds: sign, zero, aux-carry, parity and
      carry in bits 7, 6, 4, 2 and 0, bit 1 always set, bits 3 and 5 always
      clear. */
  function PswByte(f: Flags): (p: Byte)
    ensures Bit(p, 7) == f.sign && Bit(p, 6) == f.zero && Bit(p, 4) == f.auxCarry
    ensures Bit(p, 2) == f.parity && Bit(p, 0) == f.carry
    ensures Bit(p, 1) && !Bit(p, 3) && !Bit(p, 5)
  {
    PackedBits(Flag(f.sign), Flag(f.zero), Flag(f.auxCarry), Flag(f.parity), Flag(f.carry));
    Flag(f.sign) * 0x80 + Flag(f.zero) * 0x40 + Flag(f.auxCarry) * 0x10
      + Flag(f.parity) * 0x04 + 0x02 + Flag(f.carry)
  }

  /** The flags `pop_psw` reads back out of a status byte. */
  function UnpackPsw(psw: Byte): (f: Flags)
    ensures f.sign == Bit(psw, 7) && f.zero == Bit(psw, 6) && f.auxCarry == Bit(psw, 4)
    ensures f.parity == Bit(psw, 2) && f.carry == Bit(psw, 0)
  {
    BitsOfByte(psw);
    Flags(
      sign := psw / 0x80 != 0,
      zero := (psw / 0x40) % 2 == 1,
      auxCarry := (psw / 0x10) % 2 == 1,
      parity := (psw / 0x04) % 2 == 1,
      carry := psw % 2 == 1)
  }

  /** Unpacking a packed status byte gives every flag back. */
  lemma PswRoundTrip(f: Flags)
    ensures UnpackPsw(PswByte(f)) == f
  {
  }

  /** `push_psw`: the accumulator goes above the status byte on the stack;
      `sp` drops by two and no other cell changes. */
  function PushPsw(m: Machine): (r: Machine)
    ensures r.sp == Wrap16(m.sp - 2)
    ensures r.mem[Wrap16(m.sp - 1)] == m.regs.a && r.mem[Wrap16(m.sp - 2)] == PswByte(m.flags)
    ensures forall k :: 0 <= k < Size && k != Wrap16(m.sp - 1) && k != Wrap16(m.sp - 2) ==> r.mem[k] == m.mem[k]
    ensures r == m.(sp := r.sp, mem := r.mem)
  {
    Push(m, Pair(m.regs.a, PswByte(m.flags)))
  }

  /** `pop_psw`: the accumulator from the high byte, the flags from the low. */
  function PopPsw(m: Machine): (r: Machine)
    ensures r.regs == m.regs.(a := m.mem[Wrap16(m.sp + 1)])
    ensures r.flags == UnpackPsw(m.mem[m.sp])
    ensures r == m.(sp := Wrap16(m.sp + 2), regs := r.regs, flags := r.flags)
  {
    var (af, m1) := Pop(m);
    m1.(regs := m1.regs.(a := af / 0x100), flags := UnpackPsw(af % 0x100))
  }

  /** `push_psw` then `pop_psw` restores the accumulator, all five flags and
      `sp`; only the two stack cells differ. */
  lemma PushPswThenPopPsw(m: Machine)
    ensures PopPsw(PushPsw(m)) == m.(mem := PushPsw(m).mem)
  {
    var af := Pair(m.regs.a, PswByte(m.flags));
    PushThenPop(m, af);
    PswRoundTrip(m.flags);
  }

  /** `jmp`: both operand bytes are consumed whatever the condition; when it
      holds, `pc` becomes the operand. */
  function Jmp(m: Machine, condition: bool): (r: Machine)
    ensures condition ==> r == m.(pc := Pair(m.mem[Wrap16(m.pc + 1)], m.mem[m.pc]))
    ensures !condition ==> r == m.(pc := Wrap16(m.pc + 2))
  {
    var (addr, m1) := NextWord(m);
    if condition then m1.(pc := addr) else m1
  }

  /** The truncated sum of two bytes is below the addend exactly when the
      sum overflowed 8 bits, and its low nibble is below the addend's low
      nibble exactly when the low nibbles overflowed 4 bits. */
  lemma AddCarries(reg: Byte, value: Byte)
    ensures Wrap8(reg + value) < value <==> reg + value > 0xff
    ensures Wrap8(reg + value) + (if reg + value > 0xff then 0x100 else 0) == reg + value
    ensures Wrap8(reg + value) % 0x10 < value % 0x10 <==> reg % 0x10 + value % 0x10 > 0xf
  {
    var s := reg + value;
    var low := reg % 0x10 + value % 0x10;
    var sum := if s > 0xff then s - 0x100 else s;
    DivUnique(s, 0x100, if s > 0xff then 1 else 0, sum);
    assert sum == 0x10 * (reg / 0x10 + value / 0x10 - (if s > 0xff then 0x10 else 0)) + low;
    if low > 0xf {
      DivUnique(sum, 0x10, reg / 0x10 + value / 0x10 - (if s > 0xff then 0x10 else 0) + 1, low - 0x10);
    } else {
      DivUnique(sum, 0x10, reg / 0x10 + value / 0x10 - (if s > 0xff then 0x10 else 0), low);
    }
  }

  /** `add`: the register plus `value` as a 9-bit sum whose top bit is carry;
      aux-carry is the carry out of the low nibble; zero, sign and parity
      describe the 8-bit result. */
  function Add(reg: Byte, value: Byte, f: Flags): (r: (Byte, Flags))
    ensures r.0 + (if r.1.carry then 0x100 else 0) == reg + value
    ensures r.1.auxCarry <==> reg % 0x10 + value % 0x10 > 0xf
    ensures r.1 == Zsp(f, r.0).(carry := r.1.carry, auxCarry := r.1.auxCarry)
  {
    var sum := Wrap8(reg + value);
    AddCarries(reg, value);
    (sum, Zsp(f, sum).(carry := sum < value, auxCarry := sum % 0x10 < value % 0x10))
  }

  /** `ret`: when the condition holds, `pc` is popped off the stack. */
  function Ret(m: Machine, condition: bool): (r: Machine)
    ensures condition ==> r == m.(sp := Wrap16(m.sp + 2), pc := Pair(m.mem[Wrap16(m.sp + 1)], m.mem[m.sp]))
    ensures !condition ==> r == m
  {
    if condition then
      var (addr, m1) := Pop(m);
      m1.(pc := addr)
    else
      m
  }

  /** `call`: both operand bytes are consumed whatever the condition; when it
      holds, the address after the operands is pushed and `pc` becomes the
      operand. */
  function Call(m: Machine, condition: bool): (r: Machine)
    ensures !condition ==> r == m.(pc := Wrap16(m.pc + 2))
    ensures condition ==> r.pc == Pair(m.mem[Wrap16(m.pc + 1)], m.mem[m.pc])
    ensures condition ==> r == Push(m, Wrap16(m.pc + 2)).(pc := r.pc)
  {
    var (addr, m1) := NextWord(m);
    if condition then
      var m2 := Push(m1, m1.pc);
      m2.(pc := addr)
    else
      m1
  }

  /** `call(1)` and then `ret(1)`: execution resumes at the address after
      the CALL's operand bytes and `sp` is back where it was; only the two
      stack cells differ. */
  lemma CallThenRet(m: Machine)
    ensures Ret(Call(m, true), true) == m.(pc := Wrap16(m.pc + 2), mem := Call(m, true).mem)
  {
    var back := Wrap16(m.pc + 2);
    PushThenPop(m.(pc := back), back);
  }

  /** `out`: only the port number is consumed. */
  function Out(m: Machine): (r: (Byte, Machine))
    ensures r.0 == m.mem[m.pc] && r.1 == m.(pc := Wrap16(m.pc + 1))
  {
    NextByte(m)
  }

  /** `xchg`: `de` and `hl` trade places. */
  function Xchg(m: Machine): (r: Machine)
    ensures r.regs.de == m.regs.hl && r.regs.hl == m.regs.de
    ensures r == m.(regs := m.regs.(de := r.regs.de, hl := r.regs.hl))
  {
    var temp := m.regs.de;
    var m1 := m.(regs := m.regs.(de := m.regs.hl));
    m1.(regs := m1.regs.(hl := temp))
  }

  /** Exchanging twice changes nothing. */
  lemma XchgTwice(m: Machine)
    ensures Xchg(Xchg(m)) == m
  {
  }

  /** The 16-bit difference of two bytes has a non-zero high byte exactly
      when it borrowed, and its low byte is the 8-bit difference, zero exactly
      when the bytes are equal. */
  lemma CompareDifference(a: Byte, v: Byte)
    ensures Wrap16(a - v) / 0x100 != 0 <==> a < v
    ensures Wrap8(Wrap16(a - v)) == Wrap8(a - v)
    ensures Wrap8(a - v) == 0 <==> a == v
  {
    if a >= v {
      assert Wrap16(a - v) == a - v;
    } else {
      assert Wrap16(a - v) == a - v + 0x1_0000;
      assert Wrap8(a - v) == a - v + 0x100;
    }
  }

  /** `cmp`: the accumulator is compared with `value` and kept. Carry is the
      borrow of `a - value`, zero says they are equal, sign and parity
      describe the low byte of the difference, and aux-carry is not touched. */
  function Cmp(m: Machine, value: Byte): (r: Machine)
    ensures r.flags.carry <==> m.regs.a < value
    ensures r.flags.zero <==> m.regs.a == value
    ensures r.flags.sign <==> Bit(Wrap8(m.regs.a - value), 7)
    ensures r.flags.parity <==> EvenParity(Wrap8(m.regs.a - value))
    ensures r == m.(flags := r.flags.(auxCarry := m.flags.auxCarry))
  {
    var comp := Wrap16(m.regs.a - value);
    CompareDifference(m.regs.a, value);
    m.(flags := Zsp(m.flags, Wrap8(comp)).(carry := comp / 0x100 != 0))
  }

  /** `rst`: a call to the fixed address `addr` without operand bytes: the
      current `pc` is pushed, high byte above low byte, and `pc` becomes
      `addr`. */
  function Rst(m: Machine, addr: Word): (r: Machine)
    ensures r.pc == addr && r.sp == Wrap16(m.sp - 2)
    ensures r.mem[Wrap16(m.sp - 1)] == High(m.pc) && r.mem[Wrap16(m.sp - 2)] == Low(m.pc)
    ensures forall k :: 0 <= k < Size && k != Wrap16(m.sp - 1) && k != Wrap16(m.sp - 2) ==> r.mem[k] == m.mem[k]
    ensures r == m.(pc := addr, sp := r.sp, mem := r.mem)
  {
    var m1 := Push(m, m.pc);
    m1.(pc := addr)
  }

  /** `rst` and then `ret(1)` come back to where the RST was, with `sp`
      restored. */
  lemma RstThenRet(m: Machine, addr: Word)
    ensures Ret(Rst(m, addr), true) == m.(mem := Rst(m, addr).mem)
  {
    PushThenPop(m, m.pc);
  }

  /** The opcodes `cpu_tick` has a case for. */
  predicate Implemented(opcode: Byte) {
    opcode in {0x00, 0x01, 0x11, 0x21, 0x31, 0x13, 0x23, 0x05, 0x3d, 0x3e,
      0x06, 0x0e, 0x26, 0x36, 0x09, 0x19, 0x29, 0x1a, 0x0f, 0x32, 0x3a, 0x20,
      0x7a, 0x7c, 0x7e, 0x56, 0x5c, 0x5e, 0x66, 0x6f, 0x77, 0xa7, 0xe6, 0xc5,
      0xd5, 0xe5, 0xf5, 0xc1, 0xd1, 0xe1, 0xf1, 0xc2, 0xc3, 0xca, 0xc6, 0xc9,
      0xcd, 0xd3, 0xeb, 0xfb, 0xfe, 0xff}
  }

  /** The opcodes whose case changes `cpu.flags`: DCR, DAD, RRC, ANA, ANI,
      POP PSW, ADI and CPI. Every other case leaves all five flags alone. */
  predicate ChangesFlags(opcode: Byte) {
    opcode in {0x05, 0x3d, 0x09, 0x19, 0x29, 0x0f, 0xa7, 0xe6, 0xf1, 0xc6, 0xfe}
  }

  /** The opcodes whose case writes memory: MVI M, STA, MOV M,A, the four
      PUSHes, CALL and RST. Every other case leaves memory alone. */
  predicate WritesMemory(opcode: Byte) {
    opcode in {0x36, 0x32, 0x77, 0xc5, 0xd5, 0xe5, 0xf5, 0xcd, 0xff}
  }

  /** The body of the `cpu_tick` switch, once the opcode has been fetched.
      The cases are grouped by the four quarters of the 8080 opcode map. */
  function Execute(opcode: Byte, m: Machine): (Outcome, Machine)
  {
    if opcode < 0x40 then ExecuteLoads(opcode, m)
    else if opcode < 0x80 then ExecuteMoves(opcode, m)
    else if opcode < 0xc0 then ExecuteLogic(opcode, m)
    else ExecuteControl(opcode, m)
  }

  /** The `cpu_tick` cases for opcodes 0x00-0x3F: immediate loads,
      increments and decrements, 16-bit additions, rotation, direct and
      indirect loads and stores. */
  function ExecuteLoads(opcode: Byte, m: Machine): (r: (Outcome, Machine))
    requires opcode < 0x40
    ensures r.0.Halted? <==> !Implemented(opcode)
    ensures !Implemented(opcode) ==> r == (Halted(opcode), m)
    ensures !ChangesFlags(opcode) ==> r.1.flags == m.flags
    ensures !WritesMemory(opcode) ==> r.1.mem == m.mem
    ensures r.1.interruptVector == m.interruptVector
    ensures !r.0.Output?
    ensures r.1.interruptsEnabled == m.interruptsEnabled
  {
    match opcode
    // NOP
    case 0x00 => (Running, m)
    // LXI
    case 0x01 => var (w, m1) := NextWord(m); (Running, m1.(regs := m1.regs.(bc := w)))
    case 0x11 => var (w, m1) := NextWord(m); (Running, m1.(regs := m1.regs.(de := w)))
    case 0x21 => var (w, m1) := NextWord(m); (Running, m1.(regs := m1.regs.(hl := w)))
    case 0x31 => var (w, m1) := NextWord(m); (Running, m1.(sp := w))
    // INX
    case 0x13 => (Running, m.(regs := m.regs.(de := Wrap16(m.regs.de + 1))))
    case 0x23 => (Running, m.(regs := m.regs.(hl := Wrap16(m.regs.hl + 1))))
    // DCR
    case 0x05 => var (b, f) := Dcr(m.regs.B(), m.flags); (Running, m.(regs := m.regs.SetB(b), flags := f))
    case 0x3d => var (a, f) := Dcr(m.regs.a, m.flags); (Running, m.(regs := m.regs.(a := a), flags := f))
    // MVI
    case 0x3e => var (v, m1) := NextByte(m); (Running, m1.(regs := m1.regs.(a := v)))
    case 0x06 => var (v, m1) := NextByte(m); (Running, m1.(regs := m1.regs.SetB(v)))
    case 0x0e => var (v, m1) := NextByte(m); (Running, m1.(regs := m1.regs.SetC(v)))
    case 0x26 => var (v, m1) := NextByte(m); (Running, m1.(regs := m1.regs.SetH(v)))
    case 0x36 => var (v, m1) := NextByte(m); (Running, m1.(mem := m1.mem[m1.regs.hl := v]))
    // DAD
    case 0x09 => (Running, Dad(m, m.regs.bc))
    case 0x19 => (Running, Dad(m, m.regs.de))
    case 0x29 => (Running, Dad(m, m.regs.hl))
    // LDAX
    case 0x1a => (Running, m.(regs := m.regs.(a := m.mem[m.regs.de])))
    // RRC
    case 0x0f => (Running, Rrc(m))
    // STA
    case 0x32 => var (addr, m1) := NextWord(m); (Running, m1.(mem := m1.mem[addr := m1.regs.a]))
    // LDA
    case 0x3a => var (addr, m1) := NextWord(m); (Running, m1.(regs := m1.regs.(a := m1.mem[addr])))
    // Undocumented opcode, executed as a no-op
    case 0x20 => (Running, m)
    case _ => (Halted(opcode), m)
  }

  /** The `cpu_tick` cases for opcodes 0x40-0x7F: register and memory moves. */
  function ExecuteMoves(opcode: Byte, m: Machine): (r: (Outcome, Machine))
    requires 0x40 <= opcode < 0x80
    ensures r.0.Halted? <==> !Implemented(opcode)
    ensures !Implemented(opcode) ==> r == (Halted(opcode), m)
    ensures !ChangesFlags(opcode) ==> r.1.flags == m.flags
    ensures !WritesMemory(opcode) ==> r.1.mem == m.mem
    ensures r.1.interruptVector == m.interruptVector
    ensures !r.0.Output?
    ensures r.1.interruptsEnabled == m.interruptsEnabled
  {
    match opcode
    // MOV
    case 0x7a => (Running, m.(regs := m.regs.(a := m.regs.D())))
    case 0x7c => (Running, m.(regs := m.regs.(a := m.regs.H())))
    case 0x7e => (Running, m.(regs := m.regs.(a := m.mem[m.regs.hl])))
    case 0x56 => (Running, m.(regs := m.regs.SetD(m.mem[m.regs.hl])))
    case 0x5c => (Running, m.(regs := m.regs.SetE(m.regs.H())))
    case 0x5e => (Running, m.(regs := m.regs.SetE(m.mem[m.regs.hl])))
    case 0x66 => (Running, m.(regs := m.regs.SetH(m.mem[m.regs.hl])))
    case 0x6f => (Running, m.(regs := m.regs.SetL(m.regs.a)))
    case 0x77 => (Running, m.(mem := m.mem[m.regs.hl := m.regs.a]))
    case _ => (Halted(opcode), m)
  }

  /** The `cpu_tick` cases for opcodes 0x80-0xBF: accumulator logic on a register. */
  function ExecuteLogic(opcode: Byte, m: Machine): (r: (Outcome, Machine))
    requires 0x80 <= opcode < 0xc0
    ensures r.0.Halted? <==> !Implemented(opcode)
    ensures !Implemented(opcode) ==> r == (Halted(opcode), m)
    ensures !ChangesFlags(opcode) ==> r.1.flags == m.flags
    ensures !WritesMemory(opcode) ==> r.1.mem == m.mem
    ensures r.1.interruptVector == m.interruptVector
    ensures !r.0.Output?
    ensures r.1.interruptsEnabled == m.interruptsEnabled
  {
    match opcode
    // ANA
    case 0xa7 => (Running, Ana(m, m.regs.a))
    case _ => (Halted(opcode), m)
  }

  /** The `cpu_tick` cases for opcodes 0xC0-0xFF: stack, jumps, calls, returns, immediate
      arithmetic, I/O and interrupts. */
  function ExecuteControl(opcode: Byte, m: Machine): (r: (Outcome, Machine))
    requires 0xc0 <= opcode
    ensures r.0.Halted? <==> !Implemented(opcode)
    ensures !Implemented(opcode) ==> r == (Halted(opcode), m)
    ensures !ChangesFlags(opcode) ==> r.1.flags == m.flags
    ensures !WritesMemory(opcode) ==> r.1.mem == m.mem
    ensures r.1.interruptVector == m.interruptVector
    ensures r.0.Output? <==> opcode == 0xd3
    ensures r.1.interruptsEnabled == (m.interruptsEnabled || opcode == 0xfb)
  {
    match opcode
    case 0xe6 => var (v, m1) := NextByte(m); (Running, Ana(m1, v))
    // PUSH
    case 0xc5 => (Running, Push(m, m.regs.bc))
    case 0xd5 => (Running, Push(m, m.regs.de))
    case 0xe5 => (Running, Push(m, m.regs.hl))
    case 0xf5 => (Running, PushPsw(m))
    // POP
    case 0xc1 => var (w, m1) := Pop(m); (Running, m1.(regs := m1.regs.(bc := w)))
    case 0xd1 => var (w, m1) := Pop(m); (Running, m1.(regs := m1.regs.(de := w)))
    case 0xe1 => var (w, m1) := Pop(m); (Running, m1.(regs := m1.regs.(hl := w)))
    case 0xf1 => (Running, PopPsw(m))
    // JMP
    case 0xc2 => (Running, Jmp(m, !m.flags.zero))
    case 0xc3 => (Running, Jmp(m, true))
    case 0xca => (Running, Jmp(m, m.flags.zero))
    // ADD
    case 0xc6 =>
      var (v, m1) := NextByte(m);
      var (a, f) := Add(m1.regs.a, v, m1.flags);
      (Running, m1.(regs := m1.regs.(a := a), flags := f))
    // RET
    case 0xc9 => (Running, Ret(m, true))
    // CALL
    case 0xcd => (Running, Call(m, true))
    // OUT
    case 0xd3 => var (port, m1) := Out(m); (Output(port), m1)
    // XCHG
    case 0xeb => (Running, Xchg(m))
    // EI
    case 0xfb => (Running, m.(interruptsEnabled := true))
    // CPI
    case 0xfe => var (v, m1) := NextByte(m); (Running, Cmp(m1, v))
    // RST 7
    case 0xff => (Running, Rst(m, 0x38))
    case _ => (Halted(opcode), m)
  }

  /** `cpu_tick`: fetch the opcode at `pc`, then execute it. */
  function Step(m: Machine): (Outcome, Machine)
  {
    var (opcode, m1) := NextByte(m);
    Execute(opcode, m1)
  }
}
