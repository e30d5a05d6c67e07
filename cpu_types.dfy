/**
 * The register file and condition flags of include/cpu.h. In C each register
 * pair is a union of a `u16` and two `u8` halves laid out little-endian, so
 * the pair and its halves alias one storage word. Here a pair is one Word and
 * the halves are accessors over it, so the two views cannot disagree. That the
 * second member of each struct (`b`, `d`, `h`) is the HIGH byte holds only on
 * a little-endian host; the model assumes one, as the emulator does.
 */
module CpuTypes {
  import opened Bits

  /** The low half of a 16-bit word (`c`, `e`, `l`, `sp_low`, `pc_low`). */
  function Low(w: Word): Byte {
    w % 0x100
  }

  /** The high half of a 16-bit word (`b`, `d`, `h`, `sp_hi`, `pc_hi`). */
  function High(w: Word): Byte {
    w / 0x100
  }

  /** The word whose halves are `high` and `low`. */
  function Pair(high: Byte, low: Byte): (w: Word)
    ensures High(w) == high && Low(w) == low
  {
    high * 0x100 + low
  }

  /** Every word is the pair of its own halves: `w == hi * 256 + low`. This
      is the aliasing of `bc`/`b`/`c`, `de`/`d`/`e`, `hl`/`h`/`l`,
      `sp`/`sp_hi`/`sp_low` and `pc`/`pc_hi`/`pc_low`. */
  lemma PairOfHalves(w: Word)
    ensures Pair(High(w), Low(w)) == w
    ensures w == High(w) * 0x100 + Low(w)
  {
  }

  /** `struct Registers`: three register pairs and the accumulator. */
  datatype Registers = Registers(bc: Word, de: Word, hl: Word, a: Byte) {

    function B(): Byte { High(bc) }
    function C(): Byte { Low(bc) }
    function D(): Byte { High(de) }
    function E(): Byte { Low(de) }
    function H(): Byte { High(hl) }
    function L(): Byte { Low(hl) }

    /** Writing `b` changes only the high byte of `bc`. */
    function SetB(v: Byte): (r: Registers)
      ensures r.B() == v && r.C() == C()
      ensures r.de == de && r.hl == hl && r.a == a
    {
      this.(bc := Pair(v, C()))
    }

    /** Writing `c` changes only the low byte of `bc`. */
    function SetC(v: Byte): (r: Registers)
      ensures r.C() == v && r.B() == B()
      ensures r.de == de && r.hl == hl && r.a == a
    {
      this.(bc := Pair(B(), v))
    }

    /** Writing `d` changes only the high byte of `de`. */
    function SetD(v: Byte): (r: Registers)
      ensures r.D() == v && r.E() == E()
      ensures r.bc == bc && r.hl == hl && r.a == a
    {
      this.(de := Pair(v, E()))
    }

    /** Writing `e` changes only the low byte of `de`. */
    function SetE(v: Byte): (r: Registers)
      ensures r.E() == v && r.D() == D()
      ensures r.bc == bc && r.hl == hl && r.a == a
    {
      this.(de := Pair(D(), v))
    }

    /** Writing `h` changes only the high byte of `hl`. */
    function SetH(v: Byte): (r: Registers)
      ensures r.H() == v && r.L() == L()
      ensures r.bc == bc && r.de == de && r.a == a
    {
      this.(hl := Pair(v, L()))
    }

    /** Writing `l` changes only the low byte of `hl`. */
    function SetL(v: Byte): (r: Registers)
      ensures r.L() == v && r.H() == H()
      ensures r.bc == bc && r.de == de && r.a == a
    {
      this.(hl := Pair(H(), v))
    }
  }

  /** `struct Flags`: five independent one-bit fields. */
  datatype Flags = Flags(sign: bool, zero: bool, auxCarry: bool, parity: bool, carry: bool)
}
