/**
 * The bit-shift peripheral of the arcade board (invaders/shift.c): a 16-bit
 * register into which the game writes bytes, and an offset that selects which
 * eight of its bits the game reads back. Both are C statics of fixed width,
 * so they are modelled as bit-vectors.
 */
module Shift {

  /** `shift_write`: the register moves its high byte down to the low byte
      and takes `value` as its new high byte. */
  function Feed(reg: bv16, value: bv8): (r: bv16)
    ensures r >> 8 == value as bv16
    ensures r & 0xff == reg >> 8
  {
    (reg >> 8) | ((value as bv16) << 8)
  }

  /** `shift_read`: the eight bits of the register that start `8 - offset`
      bits from the bottom. The mask-and-shift of the code needs a shift
      count of `8 - offset` that is not negative, so `offset` is at most 8. */
  function Window(reg: bv16, offset: bv8): (r: bv8)
    requires offset <= 8
    ensures r as bv16 == (reg >> (8 - offset)) & 0xff
  {
    ((reg & ((0xff00 as bv16) >> offset)) >> (8 - offset)) as bv8
  }

  /** With offset 0 the game reads back the byte it wrote last, and with
      offset 8 the byte it wrote before that. */
  lemma WindowEnds(reg: bv16, previous: bv8, latest: bv8)
    ensures Window(Feed(Feed(reg, previous), latest), 0) == latest
    ensures Window(Feed(Feed(reg, previous), latest), 8) == previous
  {
  }

  /** After two writes the register holds the last two bytes written,
      whatever it held before, and any offset from 0 to 8 reads the eight bits
      of that pair that start `8 - offset` bits up. */
  lemma WindowBits(previous: bv8, latest: bv8, offset: bv8)
    requires offset <= 8
    ensures forall reg: bv16 :: var r := Window(Feed(Feed(reg, previous), latest), offset);
      r as bv16 == ((((latest as bv16) << 8) | (previous as bv16)) >> (8 - offset)) & 0xff
  {
  }

  /** From a cleared register, writing 0x0F and reading at offset 4 gives
      0xF0: the four set bits come out shifted up by four. */
  lemma WindowExample()
    ensures Window(Feed(0, 0x0F), 4) == 0xF0
  {
  }

  /** The statics `reg` and `offset`. */
  class ShiftRegister {
    var reg: bv16
    var offset: bv8

    /** Statics start out zero. */
    constructor ()
      ensures reg == 0 && offset == 0
    {
      reg := 0;
      offset := 0;
    }

    /** `shift_write`: changes only `reg`. */
    method Write(value: bv8)
      modifies this`reg
      ensures reg == Feed(old(reg), value)
    {
      reg := (reg >> 8) | ((value as bv16) << 8);
    }

    /** `shift_offset`: changes only `offset`. */
    method SetOffset(value: bv8)
      modifies this`offset
      ensures offset == value
    {
      offset := value;
    }

    /** `shift_read`: a value computed from the state, which it leaves as it
        is. */
    function Read(): (r: bv8)
      reads this
      requires offset <= 8
      ensures r as bv16 == (reg >> (8 - offset)) & 0xff
    {
      Window(reg, offset)
    }
  }
}
