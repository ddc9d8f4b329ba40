# vt6307ohciver: a Dafny model of the EEPROM bit-bang engines

`vt6307ohciver` reads the configuration EEPROM of a VIA VT6307 IEEE-1394
OHCI controller and switches the chip between OHCI 1.0 and OHCI 1.1 mode.
It does this by writing the mode into the EEPROM: one byte on a 24C01,
one 16-bit word on a 93C46. The controller can be
strapped to a two-wire EEPROM (24C01, I2C-style) or to a four-wire one
(93C46, Microwire-style). Either way, the tool drives the EEPROM's pins by
hand through one 32-bit GPIO register: chip-select, clock and data-out,
plus an output-enable bit.

This project models those engines as generators of a **trace**. A trace
is the sequence of events the program performs:
- every `output(cs, clock, data)` call, which is one GPIO register write;
- every other port write;
- every `usleep`.

The trace is kept in a simulated driver (`Lines.Driver`, a class with a
`trace: seq<Event>` field). Each C routine becomes a method that appends
to it. Each method is proved to append exactly the events of a pure
specification function (`TwoWire.WriteTrace`, `FourWire.WriteTrace`, ...).
The protocol properties are then proved about those functions:
- what a receiver clocks in at each rising clock edge (`Lines.Sampled`);
- where chip-select is low;
- where data moves while the clock is high;
- which pauses follow each deselect;
- how the clocked-in bits decode back into address and value.

The model is split into modules that follow the program:
- `Bits` holds the unsigned C arithmetic: shifts, masks, and MSB-first expansion.
- `Lines` holds `output`, the register word, the trace, and the wire-level views of a trace.
- `TwoWire` holds `start_i2c`, `stop_i2c`, `send_bit_i2c`, `write_byte_i2c` and `write_i2c`.
- `FourWire` holds `send_bits_4w` and `write_4w`.
- `Dump` holds `display`: the byte extraction, the `v22` loop, the mode classification and the page arithmetic.
- `Cli` holds `main`: argument validation, the family choice, the written value and target, and the pin-access writes.

## Notes on the code

- The two-wire init drives (1,0,1) and then (1,1,1) (vt6307ohciver.c:95-96). The bus is therefore idle, with clock and data high, when START begins.
- START drives (1,1,0) and then (1,0,0) (lines 61-62). The comment "stopped (SCL = 1, SDA = 1)" beside the first call does not match it. That call drives SDA = 0 with SCL = 1, which is the START edge. The state the comment names is the one the init leaves (line 96).
- The two-wire STOP drives (1,0,0), (1,1,0) and then (1,1,1) (lines 67-69). Data rises while clock is high.
- The four-wire EWEN command sends the address field 0x30, i.e. 11xxxx (line 133). EWDS sends 0x00 (line 145). The two share opcode 00 and differ only in the top two address bits.
- The four-wire engine deselects the chip with (0,0,0) once at init and once at the end of each command (lines 129, 135, 141, 147).

## Model

| member | source | states |
|---|---|---|
| Lines.LineWord | vt6307ohciver.c:43-44 | The register word always has output enable 0x10 set and no bit outside 0x1E. Bits 8, 4 and 2 are set exactly when cs, clock and data are. |
| Lines.DecodeLineWord | vt6307ohciver.c:43-44 | Decoding the word `output` composes gives back (cs, clock, data). |
| Lines.LineWordOfDecode | vt6307ohciver.c:43-44 | Any word that decodes to a line state is exactly the word `output` composes for it, so decoding inverts `output` on all words. |
| Lines.LineWordInjective | vt6307ohciver.c:43-44 | Distinct line states give distinct register words. |
| Lines.OutIsGpioWrite | vt6307ohciver.c:50 | Each `output` event is one port write at offset 0x20, whose word decodes back to the event's line state. This is a corollary of `PortAccess` and `Lines.DecodeLineWord`. |
| Lines.Driver.Output | vt6307ohciver.c:41-51 | `output` appends exactly one line-state event to the trace. |
| Lines.Driver.PortWrite | vt6307ohciver.c:306 | `outl_p(word, io_ports + offset)` appends exactly one Port(offset, word) event and nothing else. |
| Lines.Driver.Usleep | vt6307ohciver.c:61 | `usleep(n)` appends exactly Sleep(n) and nothing else. |
| TwoWire.Start | vt6307ohciver.c:59-63 | `start_i2c` appends (1,1,0), 1000 us, (1,0,0), 1000 us. |
| TwoWire.Stop | vt6307ohciver.c:65-71 | `stop_i2c` appends (1,0,0), (1,1,0), (1,1,1), each followed by 100 us. |
| TwoWire.SendBit | vt6307ohciver.c:73-78 | `send_bit_i2c` appends one clock pulse (1,0,v), (1,1,v), (1,0,v), each held 100 us. |
| TwoWire.WriteByte | vt6307ohciver.c:81-89 | The shifting loop sends bits 7..0 of the byte, MSB first, then one low ACK pulse. The proof uses an invariant relating the shifted `uint8_t` register to the bits still to send. |
| TwoWire.Write | vt6307ohciver.c:91-104 | `write_i2c` appends the init, START, device select 0xA0, address and value, a 2000 us wait, STOP and another 2000 us wait. |
| TwoWire.ByteSlots | vt6307ohciver.c:73-89 | One byte drives exactly 27 line states: nine slots (1,0,b), (1,1,b), (1,0,b) carrying bits 7..0 and then 0. |
| TwoWire.ByteSampled | vt6307ohciver.c:73-89 | A receiver sampling at the rising edges clocks in bits 7..0 and then 0. The first eight samples read back as the byte. |
| TwoWire.ByteBitsDecode | vt6307ohciver.c:81-89 | The nine bits of a byte read back as the byte followed by a low ACK. |
| TwoWire.WriteFraming | vt6307ohciver.c:59-104 | A write drives 88 line states (2 init, 2 START, 3 x 27 byte, 3 STOP), and chip-select is high in every one. |
| TwoWire.WriteSampled | vt6307ohciver.c:59-104 | A receiver clocks in exactly the init's 1, the device select, address and value each with its ACK bit, and STOP's 0. |
| TwoWire.WriteDecodes | vt6307ohciver.c:91-104 | The 29 clocked-in bits decode to device select 0xA0, the address and the value, each followed by a low ACK. |
| TwoWire.DataMovesWithClockLow | vt6307ohciver.c:59-104 | Data changes while the clock is high exactly twice, as an if-and-only-if over all 88 states: falling at START (state 2) and rising at STOP (state 87). |
| FourWire.SendBits | vt6307ohciver.c:112-123 | For widths 0 to 32, `send_bits_4w` left-justifies the field (not shifting at width 32) and appends one pulse per bit, bits n-1..0 held 10 us. The proof works on the shifted `uint32_t` register. |
| FourWire.ClockOut | vt6307ohciver.c:118-120 | One iteration of the loop appends one pulse of the bit on top of the register. |
| FourWire.Command | vt6307ohciver.c:131-135 | One command block appends select (1,0,0), its three fields, deselect (0,0,0) and the pause. |
| FourWire.Write | vt6307ohciver.c:125-148 | `write_4w` appends the init (0,0,0), then EWEN (4, 0x30, 0), WRITE (5, address, value) and EWDS (4, 0x00, 0) with pauses 10, 1000 and 10 us. |
| FourWire.FieldStates | vt6307ohciver.c:112-123 | An n-bit field drives 3n line states, chip-select high in all of them. |
| FourWire.FieldSampled | vt6307ohciver.c:112-123 | A receiver clocks in bits n-1..0 of the value, MSB first, and reads back the value modulo 2^n. |
| FourWire.FieldDiscardsHighBits | vt6307ohciver.c:114-115 | Two values that agree on their n low bits send the same trace, so bits at position n and above are discarded. |
| FourWire.EmptyField | vt6307ohciver.c:117 | A zero-width field sends nothing. |
| FourWire.CommandFramed | vt6307ohciver.c:131-135 | A command drives 77 line states. It opens with (1,0,0) and closes with (0,0,0), and chip-select is low in the last state only. |
| FourWire.CommandSampled | vt6307ohciver.c:131-135 | A receiver clocks in exactly the command's 25 bits: the 3-bit opcode, 6-bit address and 16-bit data fields. |
| FourWire.CommandDecodes | vt6307ohciver.c:131-147 | The 25 bits decode to opcode mod 8, address mod 64 and data mod 2^16. |
| FourWire.CommandWords | vt6307ohciver.c:131-147 | EWEN is 1 00 110000 followed by 16 zeros. EWDS is 1 00 000000 followed by 16 zeros. WRITE starts 1 01. EWEN and EWDS differ exactly in address bits 5 and 4. |
| FourWire.WriteFraming | vt6307ohciver.c:125-148 | A write drives 232 line states. Chip-select is low exactly at states 0, 77, 154 and 231, each of which is (0,0,0), and never inside a field. |
| FourWire.WriteSampled | vt6307ohciver.c:125-148 | A receiver clocks in the EWEN, WRITE and EWDS words back to back. |
| FourWire.WriteDecodes | vt6307ohciver.c:138-140 | The WRITE word among the 75 clocked-in bits decodes to opcode 5, the address mod 64 and the 16-bit value. |
| FourWire.WritePauses | vt6307ohciver.c:125-148 | The deselects are followed by 10, 10, 1000 and 10 us, so the pause after WRITE is strictly the longest. |
| Bits.ShiftInBits | vt6307ohciver.c:114-115 | `value <<= 32 - bits`, truncated to 32 bits, holds bits n-1..0 of the value on top and zeros below. |
| Bits.ShiftStep | vt6307ohciver.c:84-87 | Testing the top bit and shifting left by one consumes the next bit, MSB first. |
| Bits.FromMsbFirstOfMsbFirst | vt6307ohciver.c:81-89 | Reading the MSB-first bits of v back as a number gives v mod 2^n. |
| Bits.MsbFirstOfFromMsbFirst | vt6307ohciver.c:112-123 | Every bit string is the MSB-first expansion of the number it denotes. |
| Dump.DumpByteOfRegister | vt6307ohciver.c:214 | `(r >> 16) & 0xFF` gives back bits 23..16 of any register value, whatever its top byte and its low 16 bits hold. |
| Dump.RegisterOfDumpByte | vt6307ohciver.c:214 | Every register value splits into its top byte, the dumped byte and 16 low bits. |
| Dump.ClassifyCases | vt6307ohciver.c:222-223 | The mode is OHCI 1.0 iff byte 0x22 is 0 and OHCI 1.1 iff it is 8, otherwise unknown. The unset `v22` (0xFF) is unknown. |
| Dump.MapWindowAligned | vt6307ohciver.c:172-180 | The mapped base is page aligned. Base plus offset is the register address (base + 4, taken modulo 2^64), the offset is below the page size, and the length is 4 plus the offset. |
| Dump.Display | vt6307ohciver.c:167-224 | The dump loop yields all 0x30 bytes, each the bits 23..16 of its fetch's register value, and the mode classified from byte 0x22. |
| Cli.ParseArgs | vt6307ohciver.c:242-252 | If-and-only-if characterisation: two arguments ask for the dump; three are accepted iff the last is "1.0" or "1.1", and 1.1 is chosen iff it is "1.1"; anything else is a usage error. |
| Cli.FamilyIsBit7 | vt6307ohciver.c:298 | The two-wire engine is chosen iff bit 0x80 of the GPIO register is clear, and no other bit matters. |
| Cli.ModeRoundTrip | vt6307ohciver.c:304-310 | The value written is 8 iff 1.1 was asked for, and the dump classifies it as the requested mode. The target clause is a check on the constants: 0x22, and word 0x11, which covers bytes 0x22-0x23. |
| Cli.ReleaseDrivesNothing | vt6307ohciver.c:312 | The release word 0x20 has output enable clear and is no word `output` writes. |
| Cli.Engine | vt6307ohciver.c:307-310 | Family I2C runs `write_i2c(0x22, v)`; the other family runs `write_4w(0x11, v)`. |
| Cli.WriteMode | vt6307ohciver.c:304-313 | Setting the mode writes the control word with bit 0x80 set at offset 0, then the engine's trace, then 0x20 at offset 0x20. |
| Cli.Run | vt6307ohciver.c:233-323 | A usage error exits 1 with no port write. A dump exits 0 with no port write and shows the decoded bytes and mode. Setting the mode exits 0 after exactly the mode-setting trace of the strapped family. |
| Cli.I2cModeWrite | vt6307ohciver.c:304-308 | On a 24C01, the address byte clocked in is 0x22 and the data byte is classified as the requested mode. |
| Cli.MicrowireModeWrite | vt6307ohciver.c:304-310 | On a 93C46, the WRITE word clocked in carries opcode 5, address 0x11 and a 16-bit data word whose value the dump classifies as the requested mode. |

## Left out

- PCI discovery, `iopl`, the region-size check and the `PCI_COMMAND` enable and restore (lines 254-296, 317-320): these are calls into libpci and the kernel. `Cli.Run` is `main` with the steps at lines 254-296 taken to succeed. After the argument check it goes straight to the family read, so the `exit(1)` paths at lines 255, 262, 277 and 284 are not modelled. The I/O base is implicit: port offsets are recorded relative to it.
- Reads of hardware registers become inputs of `Cli.Run`:
  - `inl(io_ports)` is `pinControl`;
  - `inl(io_ports + 0x20)` is `gpio`;
  - the memory base is `memAddr`;
  - the GUID PROM register values seen after each "next byte" fetch are `regs`.
- `getpagesize()` becomes `2^pageShift` with `pageShift < 31`. Page sizes are powers of two that fit a positive `int`.
- `open("/dev/mem")`, `mmap`, `readl`/`writel`, the counter reset and both busy-wait loops (lines 185-213) are hardware. Their termination depends on the chip. Their failure exits are not modelled.
- Dump.MapWindow: takes `pciaddr_t` to be 64 bits wide, so `mem_addr += 4` wraps modulo 2^64. That holds when libpci is built with 64-bit addresses; a libpci built with 32-bit `pciaddr_t` would wrap modulo 2^32, which the model does not cover.
- `usleep` is recorded as a delay value in the trace. No real time passes.
- `printf`/`fprintf` text, the hex-dump layout and the `DEBUG` trace (lines 46-49) are not modelled. This includes `write_i2c`'s and `write_4w`'s progress message and the "Device %s not found" message. That message prints `argv[2]` even when only two arguments were given.
- `I2C_DEVSEL_RD` (line 35) is defined but never used by the program.
- FourWire.SendBits: requires a width of at most 32, because the program only calls it with 3, 6 and 16 (lines 132-146). In C a width above 32 is well defined: the guard at line 114 skips the shift, and the loop sends the 32 register bits and then width - 32 zero bits. The model does not cover that case. In C, width 0 shifts a `uint32_t` by 32, which is undefined. The model admits width 0 and gives it the empty trace. That agrees with C only because the shifted value is never used when the loop runs zero times.
- FourWire.SendBits: models `value & 0x80000000` passed as an `int` (line 118) as the boolean "the masked bit is nonzero". That is what `output` tests.
- C's `&` masks and `<<`/`>>` shifts on unsigned values are modelled as remainders, divisions and multiplications by powers of two on bounded naturals. Left shifts are truncated explicitly to the variable's width (8 or 32 bits).
- `FourWire.Command`, `FourWire.ClockOut`, `Cli.Engine` and `Cli.WriteMode` have no C function of their own. They name, respectively: a command block of `write_4w`, the body of the `send_bits_4w` loop, the `if (i2c)` dispatch at lines 307-310, and the whole mode-setting branch at lines 305-312.
- Cli.MicrowireModeWrite: assumes the byte the dump shows at 0x22 is the low byte of 93C46 word 0x11. Neither the program nor the model settles the chip's byte order. `write_4w(0x11, 8)` writes the 16-bit word 0x0008, so it also overwrites the other byte of that word with 0.
- Each EEPROM's response (the ACK the two-wire master never reads, and the 93C46's ready signal) is not modelled. The program does not observe either.
