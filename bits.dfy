/**
 * The fixed-width integer types of include/types.h and the bit arithmetic that
 * the interpreter performs on them, stated over unbounded integers.
 */
module Bits {

  /** `u8`: an unsigned 8-bit value. */
  type Byte = x: int | 0 <= x < 0x100

  /** `u16`: an unsigned 16-bit value. */
  type Word = x: int | 0 <= x < 0x1_0000

  /** Two to the power `n`. */
  function Pow2(n: nat): (p: nat)
    ensures p >= 1
  {
    if n == 0 then 1 else 2 * Pow2(n - 1)
  }

  /** Bit `i` of `x` (bit 0 is the least significant). */
  predicate Bit(x: nat, i: nat) {
    (x / Pow2(i)) % 2 == 1
  }

  /** Number of set bits of `x`. */
  function PopCount(x: nat): nat {
    if x == 0 then 0 else x % 2 + PopCount(x / 2)
  }

  /** The 8080 parity condition: an even number of set bits. */
  predicate EvenParity(x: nat) {
    PopCount(x) % 2 == 0
  }

  /** How many of bits 0 to `n - 1` of `x` are set, counted through `Bit`. */
  function BitsSetBelow(x: nat, n: nat): nat {
    if n == 0 then 0 else BitsSetBelow(x, n - 1) + (if Bit(x, n - 1) then 1 else 0)
  }

  /** Counting the bits of `x` below `n + 1` is counting bit 0 and then the
      bits of `x >> 1` below `n`. */
  lemma {:induction false} BitsSetBelowHalf(x: nat, n: nat)
    ensures BitsSetBelow(x, n + 1) == (if Bit(x, 0) then 1 else 0) + BitsSetBelow(x / 2, n)
  {
    if n > 0 {
      BitsSetBelowHalf(x, n - 1);
      BitOfHalf(x, n - 1);
    }
  }

  /** `PopCount`, which strips the lowest bit at a time as the `parity` loop
      does, counts exactly the bits `Bit` reports set. */
  lemma {:induction false} PopCountCountsBits(x: nat, n: nat)
    requires x < Pow2(n)
    ensures PopCount(x) == BitsSetBelow(x, n)
  {
    if n == 0 {
      assert x == 0;
    } else {
      assert x / 2 < Pow2(n - 1);
      PopCountCountsBits(x / 2, n - 1);
      BitsSetBelowHalf(x, n - 1);
      assert Bit(x, 0) <==> x % 2 == 1;
    }
  }

  /** A byte has even parity exactly when an even number of its eight bits
      are set. */
  lemma ByteParity(x: Byte)
    ensures EvenParity(x) <==> BitsSetBelow(x, 8) % 2 == 0
  {
    assert Pow2(8) == 0x100;
    PopCountCountsBits(x, 8);
  }

  /** C's `&` on non-negative integers, one bit at a time from the bottom. */
  function And(x: nat, y: nat): (r: nat)
    ensures r <= x && r <= y
    decreases x
  {
    if x == 0 || y == 0 then 0
    else 2 * And(x / 2, y / 2) + (if x % 2 == 1 && y % 2 == 1 then 1 else 0)
  }

  lemma MulAtLeast(d: int, k: int)
    requires d > 0 && k >= 1
    ensures d * k >= d
  {}

  /** Integer division has exactly one quotient. */
  lemma DivUnique(x: int, d: int, q: int, r: int)
    requires d > 0 && 0 <= r < d && x == d * q + r
    ensures x / d == q && x % d == r
  {
    var q', r' := x / d, x % d;
    assert x == d * q' + r';
    if q' < q {
      MulAtLeast(d, q - q');
    } else if q' > q {
      MulAtLeast(d, q' - q);
    }
  }

  lemma DivTwice(x: nat, p: nat)
    requires p > 0
    ensures x / (2 * p) == (x / 2) / p
  {
    var q := (x / 2) / p;
    var r := (x / 2) % p;
    assert x == (2 * p) * q + (2 * r + x % 2);
    DivUnique(x, 2 * p, q, 2 * r + x % 2);
  }

  /** Bit `i + 1` of `x` is bit `i` of `x >> 1`. */
  lemma BitOfHalf(x: nat, i: nat)
    ensures Bit(x, i + 1) == Bit(x / 2, i)
  {
    DivTwice(x, Pow2(i));
  }

  lemma {:induction false} Pow2Add(a: nat, b: nat)
    ensures Pow2(a + b) == Pow2(a) * Pow2(b)
    decreases a
  {
    if a != 0 {
      Pow2Add(a - 1, b);
      calc {
        Pow2(a + b);
        2 * Pow2(a - 1 + b);
        2 * (Pow2(a - 1) * Pow2(b));
        (2 * Pow2(a - 1)) * Pow2(b);
      }
    }
  }

  /** Adding a multiple of `2 * Pow2(i)` does not change bit `i`. */
  lemma BitAddEvenMultiple(y: nat, k: nat, i: nat)
    ensures Bit(y + 2 * Pow2(i) * k, i) == Bit(y, i)
  {
    var p := Pow2(i);
    var q, r := y / p, y % p;
    assert 2 * p * k == p * (2 * k);
    assert p * q + p * (2 * k) == p * (q + 2 * k);
    DivUnique(y + 2 * p * k, p, q + 2 * k, r);
    DivUnique(q + 2 * k, 2, q / 2 + k, q % 2);
  }

  /** Zero has no set bit. */
  lemma {:induction false} BitOfZero(i: nat)
    ensures !Bit(0, i)
  {
  }

  /** `And` is the bitwise conjunction: each bit of the result is set exactly
      when that bit is set in both operands. */
  lemma {:induction false} AndBits(x: nat, y: nat, i: nat)
    ensures Bit(And(x, y), i) <==> Bit(x, i) && Bit(y, i)
    decreases i
  {
    if x == 0 || y == 0 {
      BitOfZero(i);
    } else if i == 0 {
    } else {
      var r := And(x, y);
      assert r / 2 == And(x / 2, y / 2);
      AndBits(x / 2, y / 2, i - 1);
      BitOfHalf(r, i - 1);
      BitOfHalf(x, i - 1);
      BitOfHalf(y, i - 1);
    }
  }

  /** Masking a value with itself gives it back (`x & x == x`). */
  lemma {:induction false} AndSelf(x: nat)
    ensures And(x, x) == x
    decreases x
  {
    if x != 0 {
      AndSelf(x / 2);
    }
  }

  /** When `x` is `d * (2 * k + b) + r` with `d == Pow2(i)` and `r < d`, bit
      `i` of `x` is `b`. */
  lemma BitOfSplit(x: nat, i: nat, d: nat, k: nat, b: nat, r: nat)
    requires d == Pow2(i) && b <= 1 && r < d && x == d * (2 * k + b) + r
    ensures Bit(x, i) <==> b == 1
  {
    DivUnique(x, d, 2 * k + b, r);
    DivUnique(2 * k + b, 2, k, b);
  }

  /** Where the five one-bit fields land in the status byte. */
  lemma PackedBits(s: nat, z: nat, h: nat, p: nat, c: nat)
    requires s <= 1 && z <= 1 && h <= 1 && p <= 1 && c <= 1
    ensures var x := s * 0x80 + z * 0x40 + h * 0x10 + p * 0x04 + 0x02 + c;
      && (Bit(x, 7) <==> s == 1) && (Bit(x, 6) <==> z == 1) && (Bit(x, 4) <==> h == 1)
      && (Bit(x, 2) <==> p == 1) && (Bit(x, 0) <==> c == 1)
      && Bit(x, 1) && !Bit(x, 3) && !Bit(x, 5)
  {
    var x := s * 0x80 + z * 0x40 + h * 0x10 + p * 0x04 + 0x02 + c;
    BitOfSplit(x, 7, 0x80, 0, s, z * 0x40 + h * 0x10 + p * 0x04 + 0x02 + c);
    BitOfSplit(x, 6, 0x40, s, z, h * 0x10 + p * 0x04 + 0x02 + c);
    BitOfSplit(x, 5, 0x20, 2 * s + z, 0, h * 0x10 + p * 0x04 + 0x02 + c);
    BitOfSplit(x, 4, 0x10, 4 * s + 2 * z, h, p * 0x04 + 0x02 + c);
    BitOfSplit(x, 3, 8, 8 * s + 4 * z + h, 0, p * 0x04 + 0x02 + c);
    BitOfSplit(x, 2, 4, 16 * s + 8 * z + 2 * h, p, 0x02 + c);
    BitOfSplit(x, 1, 2, 32 * s + 16 * z + 4 * h + p, 1, c);
    BitOfSplit(x, 0, 1, 64 * s + 32 * z + 8 * h + 2 * p + 1, c, 0);
  }
}
