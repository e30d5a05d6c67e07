# Intel 8080 interpreter core, modelled in Dafny

This project models the core of a small Intel 8080 emulator written in C:

- the instruction interpreter (`src/cpu.c`): operand fetch, the flag rules, the
  stack helpers, control transfer and the `cpu_tick` opcode switch;
- the register file and CPU record it runs on (`include/cpu.h`);
- the flat 64 KiB address space with its ROM and test-image loaders
  (`src/memory.c`);
- the bit-shift peripheral of the arcade board (`invaders/shift.c`).

The C code changes its static state step by step, so the model does too.
`Interpreter.Cpu` is a class whose fields are the fields of the static `cpu`,
and the address space is `Memory.Memory`, a class over an array of 0x10000
bytes. Every helper of `src/cpu.c` is a method, and each method is proved to
do what a pure function of the same name in module `Semantics` says. The
properties of the instruction set are proved once, about those functions, in
`Semantics` and `Properties`. `Interpreter.Cpu.Tick` is proved to perform
exactly one `Semantics.Step`.

Files, in dependency order:

- `bits.dfy`: `u8`/`u16`, and bit arithmetic over integers (`Bit`, `And`,
  `PopCount`, parity).
- `cpu_types.dfy`: `Registers` and `Flags`. It also holds the aliasing of a
  register pair with its two byte halves.
- `memory.dfy`: the address space, `memory_read`/`memory_write` and the
  loaders.
- `semantics.dfy`: the `Machine` state and one function per helper. It also
  holds the `cpu_tick` dispatch (`Execute`, `Step`).
- `interpreter.dfy`: the imperative interpreter over a `Cpu` object.
- `properties.dfy`: what single instructions do, and which opcodes halt.
- `shift.dfy`: the shift register.

The `cpu_tick` switch is one `switch` in C. In the model it is split by the
four quarters of the 8080 opcode map (0x00-0x3F, 0x40-0x7F, 0x80-0xBF,
0xC0-0xFF). `Execute` picks the quarter and the quarter function holds that
quarter's cases, in source order. The cases and the default are exactly the
source's.

Where the code departs from Intel's *8080 Assembly Language Programming
Manual*, the model follows the code:

- DCR computes zero, sign, parity and aux-carry from the value before the
  decrement. So DCR of 1 leaves the zero flag clear
  (`Properties.DecrementFlagsFromOldValue`).
- ANA and CPI leave aux-carry untouched.
- CPI takes carry from the high byte of a 16-bit difference. That is the
  borrow of `a - value`.
- Only 52 opcodes have a case. Every other opcode, INR A (0x3C) among them,
  halts the program.
- EI only sets `interrupts_enabled`.

Two assumptions:

- `next_word` combines two `next_byte()` calls in a single expression. C
  leaves the order of those two calls unspecified. The model takes the low
  byte first, which is the order the code evidently intends.
- The register pairs, `sp` and `pc` are unions of a `u16` with two `u8`
  fields (include/cpu.h:8-30, 47-61). The first field (`c`, `e`, `l`,
  `sp_low`, `pc_low`) is the low byte only on a little-endian host. The
  model assumes such a host, so `bc == b*256 + c`, as the code evidently
  intends.

## Model

| member | source | states |
|---|---|---|
| CpuTypes.Pair | include/cpu.h:7-14 | the word built from a high and a low byte has exactly those bytes as its high and low halves |
| CpuTypes.PairOfHalves | include/cpu.h:7-30 | every register pair equals `high * 256 + low` of its own halves (`bc = b*256 + c`, likewise `de` and `hl`) |
| CpuTypes.Registers.SetB | include/cpu.h:8-14 | writing `b` sets the high byte of `bc`, keeps `c`, and keeps `de`, `hl` and `a` |
| CpuTypes.Registers.SetC | include/cpu.h:8-14 | writing `c` sets the low byte of `bc`, keeps `b` and every other register |
| CpuTypes.Registers.SetD | include/cpu.h:16-22 | writing `d` sets the high byte of `de` only |
| CpuTypes.Registers.SetE | include/cpu.h:16-22 | writing `e` sets the low byte of `de` only |
| CpuTypes.Registers.SetH | include/cpu.h:24-30 | writing `h` sets the high byte of `hl` only |
| CpuTypes.Registers.SetL | include/cpu.h:24-30 | writing `l` sets the low byte of `hl` only |
| Semantics.SpPcHalves | include/cpu.h:47-61 | `sp == sp_hi*256 + sp_low` and `pc == pc_hi*256 + pc_low` |
| Semantics.NextByte | src/cpu.c:23-25 | yields the byte at `pc`; `pc` advances by one and wraps from 0xFFFF to 0; nothing else changes |
| Semantics.NextWord | src/cpu.c:27-29 | yields the word whose low byte is at `pc` and high byte at `pc+1` (mod 65536); `pc` advances by two mod 65536 |
| Interpreter.Parity | src/cpu.c:31-40 | the bit-counting loop returns true exactly when the byte has an even number of set bits |
| Bits.PopCount | src/cpu.c:32-37 | the count of set bits that the `parity` loop accumulates, peeling the lowest bit each time; no ensures of its own |
| Bits.EvenParity | src/cpu.c:39 | the count of set bits is even; no ensures of its own |
| Bits.BitsSetBelow | src/cpu.c:32-37 | how many of bits 0 to n-1 are set, counted through `Bit`; no ensures of its own |
| Bits.PopCountCountsBits | src/cpu.c:32-37 | for `x < 2^n`, the lowest-bit-first count equals the number of `i < n` with bit `i` of `x` set |
| Bits.ByteParity | src/cpu.c:31-40 | a byte has even parity iff an even number of its bits 0-7 are set |
| Bits.And | src/cpu.c:74 | C's `&` on non-negative values: the result is no larger than either operand |
| Bits.AndBits | src/cpu.c:74 | bit `i` of `x & y` is set iff bit `i` is set in both |
| Semantics.Zsp | src/cpu.c:42-46 | zero iff the value is 0, sign iff bit 7 is set, parity iff the set bits are even in number; aux-carry and carry kept |
| Semantics.Dcr | src/cpu.c:56-61 | the new register value plus one is the old one (mod 256); zero, sign and parity describe the OLD value; aux-carry iff the old low nibble is 0xF; carry kept |
| Semantics.Dad | src/cpu.c:63-66 | new `hl` plus carry·65536 equals old `hl` plus the operand; no other register or flag changes |
| Semantics.RotateRightBits | src/cpu.c:70 | shifting right and or-ing bit 0 into bit 7 moves every bit down one place and bit 0 to bit 7 |
| Semantics.Rrc | src/cpu.c:68-71 | carry is old bit 0 of `a`; bit 7 of the new `a` is old bit 0, bit i is old bit i+1; nothing else changes |
| Semantics.Ana | src/cpu.c:73-77 | each bit of the new `a` is set iff it is set in both `a` and the operand; carry cleared; zero, sign, parity from the result; aux-carry kept |
| Semantics.Push | src/cpu.c:79-82 | `sp` drops by two mod 65536; the high byte is at `sp-1` and the low byte at `sp-2`; no other cell or register changes |
| Semantics.Pop | src/cpu.c:84-89 | yields the word with low byte at `sp` and high byte at `sp+1`; `sp` rises by two mod 65536 |
| Semantics.PushThenPop | src/cpu.c:79-89 | `pop` right after `push(v)` returns `v` and restores `sp`; only memory differs |
| Semantics.PswByte | src/cpu.c:91-99 | the status byte carries sign, zero, aux-carry, parity and carry in bits 7, 6, 4, 2, 0; bit 1 is always set; bits 3 and 5 always clear |
| Semantics.UnpackPsw | src/cpu.c:108-114 | each flag is read from its bit of the status byte |
| Semantics.PswRoundTrip | src/cpu.c:91-115 | unpacking a packed status byte gives back all five flags |
| Semantics.PushPsw | src/cpu.c:91-102 | `sp` drops by two; `a` is stored at `sp-1` and the status byte at `sp-2`; no other cell or register changes |
| Semantics.PopPsw | src/cpu.c:104-115 | `a` comes from `sp+1`, the flags from the status byte at `sp`; `sp` rises by two; nothing else changes |
| Semantics.PushPswThenPopPsw | src/cpu.c:91-115 | `push_psw` then `pop_psw` restores `a`, all five flags and `sp` |
| Semantics.Jmp | src/cpu.c:117-121 | both operand bytes are consumed whatever the condition; when it holds, `pc` becomes the little-endian operand |
| Semantics.AddCarries | src/cpu.c:127-128 | `sum < value` detects exactly an 8-bit overflow, and the low-nibble comparison detects exactly a nibble overflow |
| Semantics.Add | src/cpu.c:123-129 | result plus carry·256 equals register plus operand; aux-carry iff the low nibbles sum above 15; zero, sign and parity from the result |
| Semantics.Ret | src/cpu.c:131-135 | when the condition holds, `pc` is the popped word and `sp` rises by two; otherwise nothing changes |
| Semantics.Call | src/cpu.c:137-143 | both operand bytes are consumed; when the condition holds, the address after them is pushed and `pc` becomes the operand |
| Semantics.CallThenRet | src/cpu.c:131-143 | `call(1)` then `ret(1)` resumes just after the CALL's operands with `sp` restored |
| Semantics.Out | src/cpu.c:145-147 | only the port byte is consumed |
| Semantics.Xchg | src/cpu.c:149-153 | `de` and `hl` trade values; nothing else changes |
| Semantics.XchgTwice | src/cpu.c:149-153 | exchanging twice restores the state |
| Semantics.CompareDifference | src/cpu.c:156-158 | the high byte of the 16-bit difference is non-zero iff `a < value`; its low byte is zero iff they are equal |
| Semantics.Cmp | src/cpu.c:155-159 | carry iff `a < value`, zero iff `a == value`, sign and parity from the low byte of the difference; `a` and aux-carry unchanged |
| Semantics.Rst | src/cpu.c:161-164 | the current `pc` is pushed (high byte above low) and `pc` becomes the vector; nothing else changes |
| Semantics.RstThenRet | src/cpu.c:131-164 | `rst` then `ret(1)` returns to where the RST was, with `sp` restored |
| Semantics.Implemented | src/cpu.c:168-270 | the 52 opcode values that have a case in the switch; no ensures of its own (`Properties.HaltsExactlyWhenUnimplemented` states its meaning) |
| Semantics.ChangesFlags | src/cpu.c:183-261 | the eleven opcodes whose case assigns `cpu.flags`; no ensures of its own (used by the dispatch contracts and `Properties.FlagsOnlyFromFlagOps`) |
| Semantics.WritesMemory | src/cpu.c:191-264 | the nine opcodes whose case calls `memory_write`; no ensures of its own (used by the dispatch contracts and `Properties.MemoryOnlyFromWrites`) |
| Semantics.Execute | src/cpu.c:168-270 | the switch after the fetch, routing each opcode to its quarter; no ensures of its own (`Properties.HaltsExactlyWhenUnimplemented`, `OutputOnlyFromOut`, `FlagsOnlyFromFlagOps`, `MemoryOnlyFromWrites` and `InterruptStateOnlyFromEi` state its behaviour) |
| Semantics.ExecuteLoads | src/cpu.c:169-208 | opcodes 0x00-0x3F (with 0x20 at line 267 and the default at 269): halts iff there is no case, and then changes nothing; never outputs; flags change only for DCR, DAD and RRC, memory only for MVI M and STA; the interrupt state is kept |
| Semantics.ExecuteMoves | src/cpu.c:210-219 | opcodes 0x40-0x7F: halts iff there is no case, and then changes nothing; never outputs; flags and interrupt state kept; memory changes only for MOV M,A |
| Semantics.ExecuteLogic | src/cpu.c:221-222 | opcodes 0x80-0xBF: halts iff the opcode is not ANA A, and then changes nothing; never outputs; memory and interrupt state kept |
| Semantics.ExecuteControl | src/cpu.c:223-264 | opcodes 0xC0-0xFF: halts iff there is no case, and then changes nothing; outputs iff the opcode is OUT; `interrupts_enabled` set only by EI; flags change only for ANI, POP PSW, ADI and CPI, memory only for the PUSHes, CALL and RST |
| Semantics.Step | src/cpu.c:166-270 | one `cpu_tick`: fetch the opcode, then `Execute`; no ensures of its own (the `Properties` lemmas on single instructions state what it does) |
| Semantics.Wrap8 | src/cpu.c:57 | conversion to `u8` (truncation mod 256); no ensures of its own |
| Semantics.Wrap16 | src/cpu.c:24 | conversion to `u16` (truncation mod 65536); no ensures of its own |
| Properties.HaltsExactlyWhenUnimplemented | src/cpu.c:168-270 | the dispatch halts iff the opcode has no case, and then only the opcode fetch has happened |
| Properties.OutputOnlyFromOut | src/cpu.c:252 | only opcode 0xD3 writes to a port |
| Properties.FlagsOnlyFromFlagOps | src/cpu.c:168-270 | every case other than DCR, DAD, RRC, ANA, ANI, POP PSW, ADI and CPI leaves all five flags as they were |
| Properties.MemoryOnlyFromWrites | src/cpu.c:168-270 | every case other than MVI M, STA, MOV M,A, the four PUSHes, CALL and RST leaves memory as it was |
| Properties.InterruptStateOnlyFromEi | src/cpu.c:257-258 | `interrupts_enabled` afterwards is its old value or'ed with "the opcode is EI"; `interrupt_vector` never changes |
| Properties.NoOperation | src/cpu.c:169-170 | NOP, and the undocumented 0x20 (line 267), only advance `pc` |
| Properties.IncrementAccumulatorHalts | src/cpu.c:269 | INR A (0x3C) has no case and halts |
| Properties.JumpNotTakenSkipsOperands | src/cpu.c:238-240 | JNZ with zero set and JZ with zero clear fall through past their three bytes |
| Properties.JumpTaken | src/cpu.c:239 | JMP sets `pc` to its little-endian operand |
| Properties.CallPushesReturnAddress | src/cpu.c:249 | CALL pushes the address after its three bytes and jumps to its operand |
| Properties.ReturnPopsAddress | src/cpu.c:246 | RET pops `pc` from `sp` and `sp+1` and raises `sp` by two |
| Properties.PushAndPopRegisterPairs | src/cpu.c:226-233 | PUSH B pushes `bc`; POP D loads `de` from the stack and raises `sp` by two |
| Properties.AddImmediateWraps | src/cpu.c:243 | ADI 1 with `a = 0xFF` gives `a = 0` with carry, aux-carry, zero and parity set and sign clear |
| Properties.DecrementFlagsFromOldValue | src/cpu.c:183 | DCR B on 1 leaves 0 in `b` but the zero flag clear |
| Properties.AndAccumulatorWithItself | src/cpu.c:222 | ANA A keeps `a`, clears carry and keeps aux-carry |
| Properties.CompareEqual | src/cpu.c:261 | CPI with `a`'s own value sets zero, clears carry and keeps every register |
| Properties.TestPatchReturns | src/memory.c:39-41 | after `load_test`, execution at address 5 outputs to port 1 and then executes RET |
| Interpreter.Cpu.constructor | src/cpu.c:5 | the static `cpu` starts with every field zero |
| Interpreter.Cpu.NextByte | src/cpu.c:23-25 | performs `Semantics.NextByte` in place |
| Interpreter.Cpu.NextWord | src/cpu.c:27-29 | performs `Semantics.NextWord` in place |
| Interpreter.Cpu.SetZsp | src/cpu.c:42-46 | sets the flags to `Semantics.Zsp` of the value and changes nothing else |
| Interpreter.Cpu.Dcr | src/cpu.c:56-61 | returns the decremented register and sets the flags as `Semantics.Dcr` does; nothing else changes |
| Interpreter.Cpu.Dad | src/cpu.c:63-66 | performs `Semantics.Dad` in place |
| Interpreter.Cpu.Rrc | src/cpu.c:68-71 | performs `Semantics.Rrc` in place |
| Interpreter.Cpu.Ana | src/cpu.c:73-77 | performs `Semantics.Ana` in place |
| Interpreter.Cpu.Push | src/cpu.c:79-82 | performs `Semantics.Push` on the object and the memory array |
| Interpreter.Cpu.Pop | src/cpu.c:84-89 | performs `Semantics.Pop` in place |
| Interpreter.Cpu.PushPsw | src/cpu.c:91-102 | adds the flag bits into the status word (the bits are disjoint, so the sum equals the chain of or-assignments) and performs `Semantics.PushPsw` |
| Interpreter.Cpu.PopPsw | src/cpu.c:104-115 | performs `Semantics.PopPsw` in place |
| Interpreter.Cpu.Jmp | src/cpu.c:117-121 | performs `Semantics.Jmp` in place |
| Interpreter.Cpu.Add | src/cpu.c:123-129 | returns the sum and sets the flags as `Semantics.Add` does; nothing else changes |
| Interpreter.Cpu.Ret | src/cpu.c:131-135 | performs `Semantics.Ret` in place |
| Interpreter.Cpu.Call | src/cpu.c:137-143 | performs `Semantics.Call` in place |
| Interpreter.Cpu.Out | src/cpu.c:145-147 | returns the port byte and performs `Semantics.Out` |
| Interpreter.Cpu.Xchg | src/cpu.c:149-153 | performs `Semantics.Xchg` in place |
| Interpreter.Cpu.Cmp | src/cpu.c:155-159 | performs `Semantics.Cmp` in place |
| Interpreter.Cpu.Rst | src/cpu.c:161-164 | performs `Semantics.Rst` in place |
| Interpreter.Cpu.ExecuteLoads | src/cpu.c:169-208 | the cases for opcodes 0x00-0x3F (with 0x20 at line 267 and the default at line 269) do what `Semantics.ExecuteLoads` says |
| Interpreter.Cpu.ExecuteMoves | src/cpu.c:210-219 | the cases for opcodes 0x40-0x7F (and the default) do what `Semantics.ExecuteMoves` says |
| Interpreter.Cpu.ExecuteLogic | src/cpu.c:221-222 | the cases for opcodes 0x80-0xBF (and the default) do what `Semantics.ExecuteLogic` says |
| Interpreter.Cpu.ExecuteControl | src/cpu.c:223-264 | the cases for opcodes 0xC0-0xFF (and the default) do what `Semantics.ExecuteControl` says |
| Interpreter.Cpu.Tick | src/cpu.c:166-272 | one tick returns the outcome and leaves the state that `Semantics.Step` gives; memory stays a valid 64 KiB array |
| Memory.Overlay | src/memory.c:23 | the `fread` copy: cells from `at` on hold the data, every other cell is kept |
| Memory.RomImage | src/memory.c:27-32 | address k below 0x2000 holds byte k mod 0x800 of part k / 0x800 (h, g, f, e), or is left as it was when that part is shorter; everything from 0x2000 up is unchanged |
| Memory.TestImage | src/memory.c:34-42 | the image is at 0x100 and ends by 0x8100; cells 5, 6, 7 hold 0xD3, 0x01, 0xC9; every other cell is unchanged |
| Memory.Memory.constructor | src/memory.c:6 | the static array has 0x10000 cells, all zero |
| Memory.Memory.Read | src/memory.c:44-46 | defined for every 16-bit address; returns the cell's contents |
| Memory.Memory.Write | src/memory.c:48-50 | the written cell holds the value afterwards and no other cell changes |
| Memory.Memory.LoadPart | src/memory.c:18-25 | the part's bytes are copied in from `addr` and nothing else changes |
| Memory.Memory.LoadRom | src/memory.c:27-32 | the array afterwards is `RomImage` of the array before |
| Memory.Memory.LoadTest | src/memory.c:34-42 | the array afterwards is `TestImage` of the array before |
| Shift.Feed | invaders/shift.c:6-8 | the new high byte is the written value and the new low byte is the old high byte |
| Shift.Window | invaders/shift.c:14-16 | for offsets 0 to 8 the mask-and-shift equals `(reg >> (8 - offset)) & 0xff` |
| Shift.WindowEnds | invaders/shift.c:6-16 | offset 0 reads back the byte written last, offset 8 the one written before it |
| Shift.WindowBits | invaders/shift.c:6-16 | after two writes, any offset reads the window of the last two bytes, whatever the register held before |
| Shift.WindowExample | invaders/shift.c:6-16 | from zero, writing 0x0F and reading at offset 4 gives 0xF0 |
| Shift.ShiftRegister.constructor | invaders/shift.c:3-4 | `reg` and `offset` start at zero |
| Shift.ShiftRegister.Write | invaders/shift.c:6-8 | changes only `reg`, to `Feed` of its old value |
| Shift.ShiftRegister.SetOffset | invaders/shift.c:10-12 | changes only `offset` |
| Shift.ShiftRegister.Read | invaders/shift.c:14-16 | reads the window at the current offset and changes no state |

## Left out

- `print_state`, the `printf` in `out`, and the message printed by
  `not_implemented` are output only. `screen_quit`, which ends the process, is
  modelled as the outcome `Halted(opcode)`. `out` is modelled as the outcome
  `Output(port)`, carrying only the port number.
- Opening and reading files (`open_file`, `fopen`, `fread`, the exit on a
  missing file) is not modelled. The loaders take the file contents as byte
  sequences of at most 0x800 (ROM part) or 0x8000 (test image) bytes, the
  most `fread` reads.
- Memory.Memory.LoadPart: requires `addr + 0x800 <= 0x10000`. The C code only
  calls it at 0x0000, 0x0800, 0x1000 and 0x1800, and any larger address would
  write past the array.
- Shift.Window: requires `offset <= 8`, because a larger offset makes the
  shift count `8 - offset` negative, which is undefined behaviour in C.
  `shift_offset` itself accepts any byte.
- The `in`/`out` callbacks and the `memory` pointer of `struct CPU` are not
  used by `src/cpu.c` and are not modelled. `cpu_init`, `cpu_reset`,
  `cpu_execute`, `read_byte` and `write_byte` (include/cpu.h:72-77) are
  declarations without a body and are not part of this model.
- Interrupt dispatch and the frame scheduler are not part of this model. EI
  only sets `interrupts_enabled`, and `interrupt_vector` is carried in the
  state but never changed.
- The SDL screen and input, the drivers' main loops and the disassembler are
  not part of this model.
- `set_carry` and `set_aux` are one-line field assignments, written inline in
  the methods.
- Memory.Memory: keeps a ghost copy of the array's contents, tied to the array
  by `Valid()`. The contracts are stated on that copy.
