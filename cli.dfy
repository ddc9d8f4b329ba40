/** `main` of vt6307ohciver.c: the command line, the choice of EEPROM
    family, and what is written where.

    `vt6307ohciver <pci_device>` dumps the EEPROM; `vt6307ohciver
    <pci_device> 1.0` or `... 1.1` sets the OHCI mode by writing 0 or 8 to
    the mode byte (address 0x22 on a 24C01, word 0x11 on a 93C46), with
    direct pin access enabled around the write.
 */
module Cli {
  import opened Bits
  import opened Lines
  import TwoWire
  import FourWire
  import Dump

  /** What the command line asks for: the dump, or setting the mode (v11
      is "the mode is 1.1"). */
  datatype Request = ShowDump | SetMode(v11: bool)

  const UsageExit: nat := 1
  const SuccessExit: nat := 0

  /** The argument check; args is argv, program name included. Two
      arguments ask for the dump; three are accepted only when the last is
      "1.0" or "1.1"; anything else is a usage error. */
  function ParseArgs(args: seq<string>): (r: Option<Request>)
    ensures r.None? <==> !(|args| == 2 || (|args| == 3 && (args[2] == "1.0" || args[2] == "1.1")))
    ensures r == Some(ShowDump) <==> |args| == 2
    ensures r == Some(SetMode(true)) <==> |args| == 3 && args[2] == "1.1"
    ensures r == Some(SetMode(false)) <==> |args| == 3 && args[2] == "1.0"
  {
    if |args| != 2 && (|args| != 3 || (!(args[2] == "1.1") && args[2] != "1.0")) then None
    else if |args| == 2 then Some(ShowDump)
    else Some(SetMode(args[2] == "1.1"))
  }

  /** Which EEPROM the chip is strapped for. */
  datatype Family = I2c | Microwire

  /** `i2c = (inl(io_ports + 0x20) & 0x80) ? 0 : 1` */
  function FamilyOf(gpio: bv32): Family {
    if gpio & 0x80 != 0 then Microwire else I2c
  }

  /** Only bit 7 of the GPIO register decides the family. */
  lemma FamilyIsBit7(gpio: bv32, other: bv32)
    requires gpio & 0x80 == other & 0x80
    ensures FamilyOf(gpio) == FamilyOf(other)
    ensures FamilyOf(gpio) == I2c <==> gpio & 0x80 == 0
  {
  }

  /** The byte written to the mode location: `v1_1 ? 8 : 0`. */
  function WrittenValue(v11: bool): u8 {
    if v11 then 8 else 0
  }

  /** Where the mode byte lives for each family. */
  const I2cTarget: u8 := 0x22
  const MicrowireTarget: u8 := 0x11

  /** The value written is the one the dump classifies as the requested
      mode, and each target addresses the dump's mode byte: byte 0x22
      directly, or the 16-bit word holding it. */
  lemma ModeRoundTrip(v11: bool)
    ensures Dump.Classify(WrittenValue(v11)) == if v11 then Dump.Ohci11 else Dump.Ohci10
    ensures WrittenValue(v11) == 8 <==> v11
    ensures I2cTarget as nat == Dump.ModeByte && MicrowireTarget * 2 == Dump.ModeByte
  {
  }

  /** The engine's events for setting the mode. */
  function EngineTrace(family: Family, v11: bool): seq<Event> {
    match family
    case I2c => TwoWire.WriteTrace(I2cTarget, WrittenValue(v11))
    case Microwire => FourWire.WriteTrace(MicrowireTarget, WrittenValue(v11))
  }

  /** The GPIO word that ends direct pin access (`outl_p(0x20,
      io_ports + 0x20)`): output enable 0x10 is clear, so it drives no line
      state. */
  const PinsReleased: bv32 := 0x20

  lemma ReleaseDrivesNothing(s: LineState)
    ensures PinsReleased & 0x10 == 0
    ensures Decode(PinsReleased).None? && LineWord(s) != PinsReleased
  {
  }

  /** `if (i2c) write_i2c(0x22, v) else write_4w(0x11, v)` */
  method Engine(d: Driver, family: Family, v11: bool)
    modifies d
    ensures d.trace == old(d.trace) + EngineTrace(family, v11)
  {
    if family == I2c {
      TwoWire.Write(d, I2cTarget, WrittenValue(v11));
    } else {
      FourWire.Write(d, MicrowireTarget, WrittenValue(v11));
    }
  }

  /** Everything the mode setting writes: enable direct pin access
      (`outl_p(inl(io_ports) | 0x80, io_ports)`), the engine's write, and
      release the pins. */
  function SetModeTrace(pinControl: bv32, family: Family, v11: bool): seq<Event> {
    [Port(PinControl, (pinControl | 0x80) as nat)] + EngineTrace(family, v11)
    + [Port(Gpio, PinsReleased as nat)]
  }

  /** The mode-setting branch of `main`. */
  method WriteMode(d: Driver, pinControl: bv32, family: Family, v11: bool)
    modifies d
    ensures d.trace == old(d.trace) + SetModeTrace(pinControl, family, v11)
  {
    ghost var t0 := d.trace;
    d.PortWrite(pinControl | 0x80, PinControl);   // enable direct access to pins
    ghost var t1 := d.trace;
    Engine(d, family, v11);
    ghost var t2 := d.trace;
    assert t2 == t1 + EngineTrace(family, v11);
    d.PortWrite(PinsReleased, Gpio);              // disable direct access to pins
    assert d.trace == t2 + [Port(Gpio, PinsReleased as nat)];
    ghost var enable := [Port(PinControl, (pinControl | 0x80) as nat)];
    assert t1 == t0 + enable;
    Assoc(t0, enable, EngineTrace(family, v11));
    Assoc(t0, enable + EngineTrace(family, v11), [Port(Gpio, PinsReleased as nat)]);
  }

  /** `main`, with the privilege and PCI steps between the argument check
      and the family read taken to succeed, so their `exit(1)` paths are
      not modelled. The hardware reads are inputs: pinControl is `inl(io_ports)`, gpio is
      `inl(io_ports + 0x20)`, memAddr the memory base, 2^pageShift the
      page size and regs what the GUID PROM register shows after each
      dump fetch. It returns the exit code and, for a dump, the bytes and
      the reported mode. */
  method Run(d: Driver, args: seq<string>, pinControl: bv32, gpio: bv32,
             memAddr: u64, pageShift: nat, regs: seq<u32>)
    returns (exit: nat, shown: Option<(seq<u8>, Dump.Mode)>)
    requires pageShift < 31 && |regs| == Dump.EepromSize
    modifies d
    ensures ParseArgs(args).None? ==> exit == UsageExit && shown.None? && d.trace == old(d.trace)
    ensures ParseArgs(args) == Some(ShowDump) ==>
      exit == SuccessExit && d.trace == old(d.trace) && shown.Some? &&
      |shown.value.0| == Dump.EepromSize &&
      (forall k :: 0 <= k < Dump.EepromSize ==> shown.value.0[k] == Dump.DumpByte(regs[k])) &&
      shown.value.1 == Dump.Classify(Dump.DumpByte(regs[Dump.ModeByte]))
    ensures ParseArgs(args).Some? && ParseArgs(args).value.SetMode? ==>
      exit == SuccessExit && shown.None? &&
      d.trace == old(d.trace) + SetModeTrace(pinControl, FamilyOf(gpio), ParseArgs(args).value.v11)
  {
    var request := ParseArgs(args);
    if request.None? {
      return UsageExit, None;
    }
    var family := FamilyOf(gpio);
    match request.value
    case SetMode(v11) =>
      WriteMode(d, pinControl, family, v11);
      exit, shown := SuccessExit, None;
    case ShowDump =>
      var w, bytes, mode := Dump.Display(memAddr, pageShift, regs);
      exit, shown := SuccessExit, Some((bytes, mode));
  }

  // ---------------------------------------------------------------------
  // What the receiving EEPROM is told

  /** Setting the mode on a 24C01: the address byte clocked in is 0x22 and
      the data byte is one the dump classifies as the requested mode. */
  lemma I2cModeWrite(v11: bool)
    ensures var bits := Sampled(States(TwoWire.WriteTrace(I2cTarget, WrittenValue(v11))));
      |bits| == 29 &&
      FromMsbFirst(bits[10..18]) == Dump.ModeByte &&
      Dump.Classify(FromMsbFirst(bits[19..27])) == if v11 then Dump.Ohci11 else Dump.Ohci10
  {
    TwoWire.WriteDecodes(I2cTarget, WrittenValue(v11));
  }

  /** Setting the mode on a 93C46: the WRITE command (the middle one of the
      three) carries address 0x11 and a data word the dump classifies as
      the requested mode. */
  lemma MicrowireModeWrite(v11: bool)
    ensures var bits := Sampled(States(FourWire.WriteTrace(MicrowireTarget, WrittenValue(v11))));
      |bits| == 75 &&
      FromMsbFirst(bits[25..28]) == FourWire.OpWrite &&
      FromMsbFirst(bits[28..34]) == MicrowireTarget as nat &&
      Dump.Classify(FromMsbFirst(bits[34..50])) == if v11 then Dump.Ohci11 else Dump.Ohci10
  {
    assert MicrowireTarget % 64 == MicrowireTarget;
    FourWire.WriteDecodes(MicrowireTarget, WrittenValue(v11));
  }
}
