/**
 * The flat 64 KiB address space of src/memory.c: a static array of 0x10000
 * bytes, read and written one cell at a time, and filled from ROM or test
 * images before the interpreter starts. The file contents are given as byte
 * sequences; opening and reading the files is not part of this model.
 */
module Memory {
  import opened Bits

  /** Number of cells: every 16-bit address names one. */
  const Size := 0x1_0000

  /** Size of one ROM part file (`fread(..., 0x800, ...)`). */
  const PartSize := 0x800

  /** Largest test image (`fread(..., 0x8000, ...)`) and where it is loaded. */
  const TestImageSize := 0x8000
  const TestOrigin := 0x100

  /** The contents of the whole address space. */
  type Ram = m: seq<Byte> | |m| == Size witness seq(Size, _ => 0)

  /** `data` copied over `m` from address `at` on; every other cell kept. */
  function Overlay(m: Ram, at: nat, data: seq<Byte>): (r: Ram)
    requires at + |data| <= Size
    ensures forall k :: at <= k < at + |data| ==> r[k] == data[k - at]
    ensures forall k :: 0 <= k < Size && !(at <= k < at + |data|) ==> r[k] == m[k]
  {
    m[..at] + data + m[at + |data|..]
  }

  /** The address space after `load_rom`: the parts h, g, f and e, each at
      most 0x800 bytes long, placed at 0x0000, 0x0800, 0x1000 and 0x1800.
      The four 0x800-byte windows are disjoint and together cover
      0x0000-0x1FFF: address `k` below 0x2000 belongs to part `k / 0x800`
      at offset `k % 0x800`, and is left as it was when that part is shorter. */
  function RomImage(m: Ram, h: seq<Byte>, g: seq<Byte>, f: seq<Byte>, e: seq<Byte>): (r: Ram)
    requires |h| <= PartSize && |g| <= PartSize && |f| <= PartSize && |e| <= PartSize
    ensures forall k :: 0 <= k < 4 * PartSize ==>
      var part := [h, g, f, e][k / PartSize];
      r[k] == if k % PartSize < |part| then part[k % PartSize] else m[k]
    ensures forall k :: 4 * PartSize <= k < Size ==> r[k] == m[k]
  {
    Overlay(Overlay(Overlay(Overlay(m, 0x0000, h), 0x0800, g), 0x1000, f), 0x1800, e)
  }

  /** The address space after `load_test`: the image at 0x100 (so it ends at
      or before 0x8100), then the three patched cells 5, 6 and 7 holding
      `OUT 1; RET`, through which the test program's system calls return. */
  function TestImage(m: Ram, image: seq<Byte>): (r: Ram)
    requires |image| <= TestImageSize
    ensures TestOrigin + |image| <= 0x8100
    ensures r[5] == 0xd3 && r[6] == 0x01 && r[7] == 0xc9
    ensures forall i :: 0 <= i < |image| ==> r[TestOrigin + i] == image[i]
    ensures forall k :: 0 <= k < Size && k !in {5, 6, 7} && !(TestOrigin <= k < TestOrigin + |image|) ==> r[k] == m[k]
  {
    Overlay(m, TestOrigin, image)[5 := 0xd3][6 := 0x01][7 := 0xc9]
  }

  /** The static `memory` array, with its contents as a ghost value. */
  class Memory {
    const cells: array<Byte>
    ghost var contents: Ram

    ghost predicate Valid()
      reads this, cells
    {
      cells.Length == Size && cells[..] == contents
    }

    /** A static array starts out all zero. */
    constructor ()
      ensures Valid() && fresh(cells)
      ensures contents == seq(Size, _ => 0)
    {
      cells := new Byte[Size](_ => 0);
      contents := seq(Size, _ => 0);
    }

    /** `memory_read`: defined for every 16-bit address. */
    method Read(addr: Word) returns (value: Byte)
      requires Valid()
      ensures value == contents[addr]
    {
      value := cells[addr];
    }

    /** `memory_write`: the cell at `addr` reads back as `value` and no other
        cell changes. */
    method Write(addr: Word, value: Byte)
      requires Valid()
      modifies this, cells
      ensures Valid()
      ensures contents == old(contents)[addr := value]
    {
      cells[addr] := value;
      contents := contents[addr := value];
    }

    /** `load_part`: the bytes read from one part file, copied in at `addr`. */
    method LoadPart(addr: Word, part: seq<Byte>)
      requires Valid()
      requires |part| <= PartSize && addr + PartSize <= Size
      modifies this, cells
      ensures Valid()
      ensures contents == Overlay(old(contents), addr, part)
    {
      forall k | 0 <= k < |part| {
        cells[addr + k] := part[k];
      }
      contents := Overlay(contents, addr, part);
    }

    /** `load_rom`: the four parts of the arcade ROM, in the order h, g, f, e. */
    method LoadRom(h: seq<Byte>, g: seq<Byte>, f: seq<Byte>, e: seq<Byte>)
      requires Valid()
      requires |h| <= PartSize && |g| <= PartSize && |f| <= PartSize && |e| <= PartSize
      modifies this, cells
      ensures Valid()
      ensures contents == RomImage(old(contents), h, g, f, e)
    {
      LoadPart(0x0000, h);
      LoadPart(0x0800, g);
      LoadPart(0x1000, f);
      LoadPart(0x1800, e);
    }

    /** `load_test`: a CP/M test program at 0x100, then the patch at 5-7. */
    method LoadTest(image: seq<Byte>)
      requires Valid()
      requires |image| <= TestImageSize
      modifies this, cells
      ensures Valid()
      ensures contents == TestImage(old(contents), image)
    {
      forall k | 0 <= k < |image| {
        cells[TestOrigin + k] := image[k];
      }
      contents := Overlay(contents, TestOrigin, image);
      cells[5] := 0xd3;
      cells[6] := 0x01;
      cells[7] := 0xc9;
      contents := contents[5 := 0xd3][6 := 0x01][7 := 0xc9];
    }
  }
}
