/** The EEPROM dump of vt6307ohciver.c (`display`).

    The GUID PROM register sits 4 bytes into the chip's memory region.
    After each "next byte" command the register shows the fetched EEPROM
    byte in bits 23..16. The dump reads all 0x30 bytes and reports the OHCI
    mode from byte 0x22. The mapping and the register handshake are
    hardware, so here the register values seen after each fetch are an
    input.
 */
module Dump {
  import opened Bits

  /** EEPROM_SIZE: how many bytes the dump reads. */
  const EepromSize: nat := 0x30

  /** The EEPROM byte that selects the OHCI version. */
  const ModeByte: nat := 0x22

  /** `v22` before the loop reaches byte 0x22. */
  const NoModeByte: nat := 0xFF

  datatype Mode = Ohci10 | Ohci11 | Unknown

  /** The byte a register value carries, `(r >> 16) & 0xFF`: bits 23..16.
      On an unsigned value the shift is a division by 2^16 and the mask a
      remainder modulo 2^8. */
  function DumpByte(r: u32): u8 {
    (r / 0x1_0000) % 0x100
  }

  /** The mode the dump reports for byte 0x22. */
  function Classify(v22: nat): Mode {
    if v22 == 0 then Ohci10 else if v22 == 8 then Ohci11 else Unknown
  }

  lemma ClassifyCases(v22: nat)
    ensures Classify(v22) == Ohci10 <==> v22 == 0
    ensures Classify(v22) == Ohci11 <==> v22 == 8
    ensures Classify(v22) == Unknown <==> v22 != 0 && v22 != 8
    ensures Classify(NoModeByte) == Unknown
  {
  }

  /** A register value is its top byte, the dumped byte and 16 low bits;
      whatever the top byte and the low bits are, the dump reads back the
      byte in the middle. */
  lemma DumpByteOfRegister(top: u8, b: u8, low: u16)
    ensures top * 0x100_0000 + b * 0x1_0000 + low < 0x1_0000_0000
    ensures DumpByte(top * 0x100_0000 + b * 0x1_0000 + low) == b
  {
    var r := top * 0x100_0000 + b * 0x1_0000 + low;
    DivModUnique(r, 0x1_0000, top * 0x100 + b, low);
    DivModUnique(top * 0x100 + b, 0x100, top, b);
  }

  lemma RegisterOfDumpByte(r: u32)
    ensures r == (r / 0x100_0000) * 0x100_0000 + DumpByte(r) * 0x1_0000 + r % 0x1_0000
  {
    var q := r / 0x1_0000;
    assert r == q * 0x1_0000 + r % 0x1_0000;
    assert q == (q / 0x100) * 0x100 + q % 0x100;
    DivModUnique(r, 0x100_0000, q / 0x100, (q % 0x100) * 0x1_0000 + r % 0x1_0000);
  }

  // ---------------------------------------------------------------------
  // The page window mapped over the register

  /** The `mmap` request: a page-aligned base, the register's offset into
      that page, and the length mapped (through the 4-byte register). */
  datatype Window = Window(base: nat, offset: nat, length: nat)

  /** Offset of the GUID PROM register in the memory region. */
  const GuidProm: nat := 4

  /** `mem_addr += 4; offset = mem_addr & (page_size - 1);
      mem_addr -= offset; mem_length = 4 + offset`, for a page size of
      2^pageShift (nonnegative as an `int`), on a 64-bit `pciaddr_t`. The
      mask with 2^k - 1 keeps the remainder modulo 2^k. */
  function MapWindow(memAddr: u64, pageShift: nat): (w: Window)
    requires pageShift < 31
  {
    var reg := (memAddr + GuidProm) % 0x1_0000_0000_0000_0000;
    var offset := reg % Pow2(pageShift);
    RoundDown(reg, Pow2(pageShift));
    Window(reg - offset, offset, GuidProm + offset)
  }

  /** The mapped window starts on a page boundary, covers the register, and
      the register lies inside its first page. */
  lemma MapWindowAligned(memAddr: u64, pageShift: nat)
    requires pageShift < 31
    ensures var w := MapWindow(memAddr, pageShift);
      w.base % Pow2(pageShift) == 0 &&
      w.base + w.offset == (memAddr + GuidProm) % 0x1_0000_0000_0000_0000 &&
      w.offset < Pow2(pageShift) &&
      w.length == GuidProm + w.offset &&
      w.base + w.length == (memAddr + GuidProm) % 0x1_0000_0000_0000_0000 + 4
  {
    RoundDown((memAddr + GuidProm) % 0x1_0000_0000_0000_0000, Pow2(pageShift));
  }

  // ---------------------------------------------------------------------
  // The dump loop

  /** The counter loop of `display`: the byte of each fetch, and the mode
      from byte 0x22 (`v22`, 0xFF until that byte is reached). regs[k] is
      the register value after the k-th "next byte" command. */
  method Display(memAddr: u64, pageShift: nat, regs: seq<u32>) returns (w: Window, bytes: seq<u8>, mode: Mode)
    requires pageShift < 31
    requires |regs| == EepromSize
    ensures w == MapWindow(memAddr, pageShift)
    ensures |bytes| == EepromSize
    ensures forall k :: 0 <= k < EepromSize ==> bytes[k] == DumpByte(regs[k])
    ensures mode == Classify(DumpByte(regs[ModeByte]))
  {
    w := MapWindow(memAddr, pageShift);
    var v22 := NoModeByte;
    bytes := [];
    var cnt := 0;
    while cnt < EepromSize
      invariant 0 <= cnt <= EepromSize
      invariant |bytes| == cnt
      invariant forall k :: 0 <= k < cnt ==> bytes[k] == DumpByte(regs[k])
      invariant v22 == if cnt > ModeByte then DumpByte(regs[ModeByte]) else NoModeByte
    {
      var i := DumpByte(regs[cnt]);
      bytes := bytes + [i];
      if cnt == ModeByte {
        v22 := i;
      }
      cnt := cnt + 1;
    }
    mode := Classify(v22);
  }
}
