/** The four-wire (Microwire, 93C46-style) bit-bang engine of
    vt6307ohciver.c.

    Each field is left-justified in a 32-bit register and clocked out most
    significant bit first, one (1,0,b), (1,1,b), (1,0,b) slot per bit. A
    command is opened by (1,0,0), carries a 3-bit start-and-opcode field, a
    6-bit address and 16 data bits, and is closed by deselecting the chip
    with (0,0,0). The write is the command sequence EWEN, WRITE, EWDS.
 */
module FourWire {
  import opened Bits
  import opened Lines

  /** The width of the shift register `send_bits_4w` works in. */
  const RegWidth: nat := 32

  /** Field widths of a command: start bit and opcode, address, data. */
  const OpcodeWidth: nat := 3
  const AddressWidth: nat := 6
  const DataWidth: nat := 16

  /** Start bit 1 and opcode 00 (EWEN and EWDS) or 01 (WRITE). */
  const OpEnable: nat := 0x4
  const OpWrite: nat := 0x5

  /** The address fields telling EWEN (11xxxx) from EWDS (00xxxx). */
  const EwenAddress: nat := 0x30
  const EwdsAddress: nat := 0x00

  /** Hold time of one state inside a bit slot, in microseconds. */
  const Hold: nat := 10

  /** The pause after deselecting: the programming time after WRITE, and
      the short pause everywhere else. */
  const WritePause: nat := 1000
  const ShortPause: nat := 10

  /** The events of `send_bits_4w(n, v)`: bits n-1..0 of v, MSB first. */
  function FieldTrace(n: nat, v: nat): seq<Event> {
    Train(MsbFirst(v, n), Hold)
  }

  /** The bits one command clocks out. */
  function CommandBits(op: nat, address: nat, data: nat): seq<bool> {
    MsbFirst(op, OpcodeWidth) + MsbFirst(address, AddressWidth) + MsbFirst(data, DataWidth)
  }

  /** Select, three fields, deselect and pause. */
  function CommandTrace(op: nat, address: nat, data: nat, pause: nat): seq<Event> {
    [Drive(true, false, false), Sleep(Hold)]
    + FieldTrace(OpcodeWidth, op) + FieldTrace(AddressWidth, address) + FieldTrace(DataWidth, data)
    + [Drive(false, false, false), Sleep(pause)]
  }

  function InitTrace(): seq<Event> {
    [Drive(false, false, false), Sleep(Hold)]
  }

  /** `write_4w(address, value)`: init, EWEN, WRITE, EWDS. */
  function WriteTrace(address: u8, value: u16): seq<Event> {
    InitTrace()
    + CommandTrace(OpEnable, EwenAddress, 0, ShortPause)
    + CommandTrace(OpWrite, address, value, WritePause)
    + CommandTrace(OpEnable, EwdsAddress, 0, ShortPause)
  }

  // ---------------------------------------------------------------------
  // The engine, on the simulated driver

  /** `send_bits_4w(bits, value)`: left-justifies the field in the 32-bit
      register (unless it already fills it), then clocks out the top bit
      and shifts left, `bits` times. */
  method SendBits(d: Driver, bits: nat, value: u32)
    requires bits <= RegWidth
    modifies d
    ensures d.trace == old(d.trace) + FieldTrace(bits, value)
  {
    assert Pow2(RegWidth) == 0x1_0000_0000 by { Pow2Values(); }
    var v: u32 := value;
    if bits < RegWidth {
      v := (value * Pow2(RegWidth - bits)) % Pow2(RegWidth);   // value <<= 32 - bits
    }
    Justified(value, bits, v);
    var n := bits;
    while n > 0
      invariant 0 <= n <= bits
      invariant MsbFirst(v, RegWidth)[..n] == MsbFirst(value, n)
      invariant old(d.trace) + FieldTrace(bits, value) == d.trace + FieldTrace(n, value)
    {
      ShiftStep(v, value, n, RegWidth);
      n := n - 1;
      var top := Bit(v, RegWidth - 1);   // value & 0x80000000
      ghost var t := d.trace;
      ClockOut(d, top);
      FieldStep(old(d.trace) + FieldTrace(bits, value), t, d.trace, n, value);
      v := (v * 2) % 0x1_0000_0000;      // value <<= 1
    }
    assert FieldTrace(n, value) == [];
    assert d.trace + [] == d.trace;
  }

  /** One command block of `write_4w`: select, the three fields, deselect
      and the pause that follows. */
  method Command(d: Driver, op: u32, address: u32, data: u32, pause: nat)
    modifies d
    ensures d.trace == old(d.trace) + CommandTrace(op, address, data, pause)
  {
    ghost var t0 := d.trace;
    d.Output(true, false, false); d.Usleep(Hold);
    assert d.trace == t0 + [Drive(true, false, false), Sleep(Hold)];
    ghost var t1 := d.trace;
    SendBits(d, OpcodeWidth, op);
    ghost var t2 := d.trace;
    SendBits(d, AddressWidth, address);
    ghost var t3 := d.trace;
    SendBits(d, DataWidth, data);
    ghost var t4 := d.trace;
    d.Output(false, false, false); d.Usleep(pause);
    assert d.trace == t4 + [Drive(false, false, false), Sleep(pause)];
    CommandTraceSteps(t0, t1, t2, t3, t4, d.trace, op, address, data, pause);
  }

  lemma CommandTraceSteps(t0: seq<Event>, t1: seq<Event>, t2: seq<Event>, t3: seq<Event>, t4: seq<Event>,
                          t5: seq<Event>, op: nat, address: nat, data: nat, pause: nat)
    requires t1 == t0 + [Drive(true, false, false), Sleep(Hold)]
    requires t2 == t1 + FieldTrace(OpcodeWidth, op)
    requires t3 == t2 + FieldTrace(AddressWidth, address)
    requires t4 == t3 + FieldTrace(DataWidth, data)
    requires t5 == t4 + [Drive(false, false, false), Sleep(pause)]
    ensures t5 == t0 + CommandTrace(op, address, data, pause)
  {
    var c := [Drive(true, false, false), Sleep(Hold)];
    Assoc(t0, c, FieldTrace(OpcodeWidth, op));
    c := c + FieldTrace(OpcodeWidth, op);
    Assoc(t0, c, FieldTrace(AddressWidth, address));
    c := c + FieldTrace(AddressWidth, address);
    Assoc(t0, c, FieldTrace(DataWidth, data));
    c := c + FieldTrace(DataWidth, data);
    Assoc(t0, c, [Drive(false, false, false), Sleep(pause)]);
  }

  /** The three `output` calls of one iteration of the `send_bits_4w`
      loop: clock low, high, low with data held at b. */
  method ClockOut(d: Driver, b: bool)
    modifies d
    ensures d.trace == old(d.trace) + Pulse(b, Hold)
  {
    d.Output(true, false, b); d.Usleep(Hold);
    d.Output(true, true, b); d.Usleep(Hold);
    d.Output(true, false, b); d.Usleep(Hold);
  }

  /** After the initial shift the register holds the field's n bits in its
      top positions, whether or not it was shifted. */
  lemma Justified(value: u32, n: nat, v: nat)
    requires n <= RegWidth
    requires v == if n < RegWidth then (value * Pow2(RegWidth - n)) % Pow2(RegWidth) else value
    ensures MsbFirst(v, RegWidth)[..n] == MsbFirst(value, n)
  {
    if n < RegWidth {
      ShiftInBits(value, n, RegWidth);
      assert (MsbFirst(value, n) + Zeros(RegWidth - n))[..n] == MsbFirst(value, n);
    }
  }

  /** Sending the top remaining bit of a field moves one pulse from what
      is still to come onto the trace. */
  lemma FieldStep(goal: seq<Event>, t: seq<Event>, t': seq<Event>, n: nat, value: nat)
    requires goal == t + FieldTrace(n + 1, value)
    requires t' == t + Pulse(Bit(value, n), Hold)
    ensures goal == t' + FieldTrace(n, value)
  {
    MsbFirstCons(value, n + 1);
    TrainCons(Bit(value, n), MsbFirst(value, n), Hold);
    Assoc(t, Pulse(Bit(value, n), Hold), FieldTrace(n, value));
  }

  /** `write_4w`, without its progress message. */
  method Write(d: Driver, address: u8, value: u16)
    modifies d
    ensures d.trace == old(d.trace) + WriteTrace(address, value)
  {
    ghost var t0 := d.trace;
    d.Output(false, false, false); d.Usleep(Hold);   // init
    assert d.trace == t0 + InitTrace();
    ghost var t1 := d.trace;
    Command(d, OpEnable, EwenAddress, 0, ShortPause);   // EWEN
    assert d.trace == t1 + CommandTrace(OpEnable, EwenAddress, 0, ShortPause);
    ghost var t2 := d.trace;
    Command(d, OpWrite, address, value, WritePause);    // WRITE
    assert d.trace == t2 + CommandTrace(OpWrite, address, value, WritePause);
    ghost var t3 := d.trace;
    Command(d, OpEnable, EwdsAddress, 0, ShortPause);   // EWDS
    assert d.trace == t3 + CommandTrace(OpEnable, EwdsAddress, 0, ShortPause);
    WriteTraceSteps(t0, t1, t2, t3, d.trace, address, value);
  }

  lemma WriteTraceSteps(t0: seq<Event>, t1: seq<Event>, t2: seq<Event>, t3: seq<Event>, t4: seq<Event>, address: u8, value: u16)
    requires t1 == t0 + InitTrace()
    requires t2 == t1 + CommandTrace(OpEnable, EwenAddress, 0, ShortPause)
    requires t3 == t2 + CommandTrace(OpWrite, address, value, WritePause)
    requires t4 == t3 + CommandTrace(OpEnable, EwdsAddress, 0, ShortPause)
    ensures t4 == t0 + WriteTrace(address, value)
  {
    var p := InitTrace();
    var e1 := CommandTrace(OpEnable, EwenAddress, 0, ShortPause);
    var e2 := CommandTrace(OpWrite, address, value, WritePause);
    var e3 := CommandTrace(OpEnable, EwdsAddress, 0, ShortPause);
    Assoc(t0, p, e1);
    Assoc(t0, p + e1, e2);
    Assoc(t0, p + e1 + e2, e3);
  }

  // ---------------------------------------------------------------------
  // One field

  /** `send_bits_4w(n, v)` drives 3n states, all with chip-select high. */
  lemma FieldStates(n: nat, v: nat)
    ensures States(FieldTrace(n, v)) == TrainStates(MsbFirst(v, n))
    ensures |States(FieldTrace(n, v))| == 3 * n
    ensures AllSelected(States(FieldTrace(n, v)))
  {
    StatesOfTrain(MsbFirst(v, n), Hold);
    TrainStatesSlots(MsbFirst(v, n));
    TrainSelected(MsbFirst(v, n));
  }

  /** The receiver clocks in bits n-1..0 of v, most significant first, and
      reads back v modulo 2^n. */
  lemma FieldSampled(n: nat, v: nat)
    ensures |Sampled(States(FieldTrace(n, v)))| == n
    ensures forall k :: 0 <= k < n ==> Sampled(States(FieldTrace(n, v)))[k] == Bit(v, n - 1 - k)
    ensures FromMsbFirst(Sampled(States(FieldTrace(n, v)))) == v % Pow2(n)
  {
    StatesOfTrain(MsbFirst(v, n), Hold);
    SampledTrain(MsbFirst(v, n));
    FromMsbFirstOfMsbFirst(v, n);
  }

  /** A zero-width field sends nothing. */
  lemma EmptyField(v: nat)
    ensures FieldTrace(0, v) == []
  {
  }

  /** Bits of v at positions n and above never reach the wire. */
  lemma FieldDiscardsHighBits(n: nat, v: nat, w: nat)
    requires v % Pow2(n) == w % Pow2(n)
    ensures FieldTrace(n, v) == FieldTrace(n, w)
  {
    MsbFirstMod(v, w, n);
  }

  // ---------------------------------------------------------------------
  // One command

  lemma CommandAsTrain(op: nat, address: nat, data: nat, pause: nat)
    ensures CommandTrace(op, address, data, pause) ==
      [Drive(true, false, false), Sleep(Hold)] + Train(CommandBits(op, address, data), Hold)
      + [Drive(false, false, false), Sleep(pause)]
  {
    var a, b, c := MsbFirst(op, OpcodeWidth), MsbFirst(address, AddressWidth), MsbFirst(data, DataWidth);
    TrainAppend(a, b, Hold);
    TrainAppend(a + b, c, Hold);
  }

  /** A command's 77 line states: select (1,0,0), 25 bit slots, deselect
      (0,0,0). */
  lemma CommandStates(op: nat, address: nat, data: nat, pause: nat)
    ensures States(CommandTrace(op, address, data, pause)) ==
      [LineState(true, false, false)] + TrainStates(CommandBits(op, address, data)) + [LineState(false, false, false)]
  {
    var open, close := [Drive(true, false, false), Sleep(Hold)], [Drive(false, false, false), Sleep(pause)];
    var t := Train(CommandBits(op, address, data), Hold);
    CommandAsTrain(op, address, data, pause);
    StatesAppend(open, t);
    StatesAppend(open + t, close);
    StatesOfTrain(CommandBits(op, address, data), Hold);
    assert States(open[1..]) == [];
    assert States(close[1..]) == [];
  }

  /** The states of one command, as the write sequence uses them: 77 long,
      chip-select low only in the last, which is (0,0,0). */
  predicate Framed(x: seq<LineState>) {
    |x| == 77 && x[0] == LineState(true, false, false) && x[76] == LineState(false, false, false) &&
    forall i :: 0 <= i < 77 ==> (x[i].cs <==> i != 76)
  }

  lemma CommandFramed(op: nat, address: nat, data: nat, pause: nat)
    ensures Framed(States(CommandTrace(op, address, data, pause)))
  {
    CommandStates(op, address, data, pause);
    var bits := CommandBits(op, address, data);
    TrainStatesSlots(bits);
    TrainSelected(bits);
    var x := States(CommandTrace(op, address, data, pause));
    var m := TrainStates(bits);
    assert |bits| == 25;
    forall i | 0 <= i < 77 ensures x[i].cs <==> i != 76 {
      if 0 < i < 76 {
        assert x[i] == m[i - 1];
      }
    }
  }

  /** The receiver clocks in exactly the command's 25 bits: the opcode, the
      low 6 bits of the address and the low 16 bits of the data. */
  lemma CommandSampled(op: nat, address: nat, data: nat, pause: nat)
    ensures Sampled(States(CommandTrace(op, address, data, pause))) == CommandBits(op, address, data)
  {
    CommandStates(op, address, data, pause);
    var bits := CommandBits(op, address, data);
    var m := TrainStates(bits);
    TrainEnds(bits);
    SampledTrain(bits);
    assert Sampled([LineState(true, false, false)]) == [];
    assert Sampled([LineState(false, false, false)]) == [];
    SampledJoin([LineState(true, false, false)], m);
    SampledJoin([LineState(true, false, false)] + m, [LineState(false, false, false)]);
  }

  lemma CommandDecodes(op: nat, address: nat, data: nat)
    ensures var bits := CommandBits(op, address, data);
      |bits| == 25 &&
      FromMsbFirst(bits[..3]) == op % 8 &&
      FromMsbFirst(bits[3..9]) == address % 64 &&
      FromMsbFirst(bits[9..]) == data % 0x1_0000
  {
    var bits := CommandBits(op, address, data);
    assert bits[..3] == MsbFirst(op, OpcodeWidth);
    assert bits[3..9] == MsbFirst(address, AddressWidth);
    assert bits[9..] == MsbFirst(data, DataWidth);
    FromMsbFirstOfMsbFirst(op, OpcodeWidth);
    FromMsbFirstOfMsbFirst(address, AddressWidth);
    FromMsbFirstOfMsbFirst(data, DataWidth);
    Pow2Values();
    assert Pow2(AddressWidth) == 64;
  }

  /** The three command words: start bit 1 and opcode 00 with address field
      11xxxx (EWEN) or 00xxxx (EWDS); start bit 1 and opcode 01 (WRITE). */
  lemma CommandWords(address: u8, value: u16)
    ensures CommandBits(OpEnable, EwenAddress, 0) == [true, false, false] + [true, true, false, false, false, false] + Zeros(16)
    ensures CommandBits(OpEnable, EwdsAddress, 0) == [true, false, false] + Zeros(6) + Zeros(16)
    ensures CommandBits(OpWrite, address, value)[..3] == [true, false, true]
    ensures forall i :: 0 <= i < 25 ==>
      (CommandBits(OpEnable, EwenAddress, 0)[i] != CommandBits(OpEnable, EwdsAddress, 0)[i] <==> i == 3 || i == 4)
  {
    ZeroBits(DataWidth);
    ZeroBits(AddressWidth);
    FieldWords();
    var ewen, ewds := CommandBits(OpEnable, EwenAddress, 0), CommandBits(OpEnable, EwdsAddress, 0);
    forall i | 0 <= i < 25 ensures ewen[i] != ewds[i] <==> i == 3 || i == 4 {
      if 3 <= i < 9 {
        assert ewen[i] == MsbFirst(EwenAddress, AddressWidth)[i - 3];
        assert ewds[i] == Zeros(6)[i - 3];
      }
    }
  }

  /** The constant fields, bit by bit. */
  lemma FieldWords()
    ensures MsbFirst(OpEnable, OpcodeWidth) == [true, false, false]
    ensures MsbFirst(OpWrite, OpcodeWidth) == [true, false, true]
    ensures MsbFirst(EwenAddress, AddressWidth) == [true, true, false, false, false, false]
  {
    assert Pow2(0) == 1 && Pow2(1) == 2 && Pow2(2) == 4;
    assert Pow2(3) == 8 && Pow2(4) == 16 && Pow2(5) == 32;
  }

  lemma ZeroBits(n: nat)
    ensures MsbFirst(0, n) == Zeros(n)
  {
    forall k | 0 <= k < n ensures !MsbFirst(0, n)[k] {
      assert MsbFirst(0, n)[k] == Bit(0, n - 1 - k);
      assert 0 / Pow2(n - 1 - k) == 0;
    }
  }

  // ---------------------------------------------------------------------
  // The write sequence

  lemma WriteStates(address: u8, value: u16)
    ensures States(WriteTrace(address, value)) ==
      [LineState(false, false, false)]
      + States(CommandTrace(OpEnable, EwenAddress, 0, ShortPause))
      + States(CommandTrace(OpWrite, address, value, WritePause))
      + States(CommandTrace(OpEnable, EwdsAddress, 0, ShortPause))
  {
    Sequence4States(InitTrace(), CommandTrace(OpEnable, EwenAddress, 0, ShortPause),
      CommandTrace(OpWrite, address, value, WritePause), CommandTrace(OpEnable, EwdsAddress, 0, ShortPause));
  }

  lemma Sequence4States(p: seq<Event>, e1: seq<Event>, e2: seq<Event>, e3: seq<Event>)
    requires p == InitTrace()
    ensures States(p + e1 + e2 + e3) == [LineState(false, false, false)] + States(e1) + States(e2) + States(e3)
  {
    StatesAppend(p, e1);
    StatesAppend(p + e1, e2);
    StatesAppend(p + e1 + e2, e3);
    assert States(p[1..]) == [];
  }

  /** 232 line states; chip-select is low exactly at states 0, 77, 154 and
      231 (the init and the three deselects), each of which is (0,0,0). */
  lemma WriteFraming(address: u8, value: u16)
    ensures var s := States(WriteTrace(address, value));
      |s| == 232 &&
      (forall i :: 0 <= i < 232 ==> (!s[i].cs <==> i % 77 == 0)) &&
      (forall i :: 0 <= i < 232 && i % 77 == 0 ==> s[i] == LineState(false, false, false))
  {
    WriteStates(address, value);
    CommandFramed(OpEnable, EwenAddress, 0, ShortPause);
    CommandFramed(OpWrite, address, value, WritePause);
    CommandFramed(OpEnable, EwdsAddress, 0, ShortPause);
    FramedSequence(States(CommandTrace(OpEnable, EwenAddress, 0, ShortPause)),
                   States(CommandTrace(OpWrite, address, value, WritePause)),
                   States(CommandTrace(OpEnable, EwdsAddress, 0, ShortPause)));
  }

  lemma FramedSequence(x: seq<LineState>, y: seq<LineState>, z: seq<LineState>)
    requires Framed(x) && Framed(y) && Framed(z)
    ensures var s := [LineState(false, false, false)] + x + y + z;
      |s| == 232 &&
      (forall i :: 0 <= i < 232 ==> (!s[i].cs <==> i % 77 == 0)) &&
      (forall i :: 0 <= i < 232 && i % 77 == 0 ==> s[i] == LineState(false, false, false))
  {
    var s := [LineState(false, false, false)] + x + y + z;
    forall i | 0 <= i < 232
      ensures !s[i].cs <==> i % 77 == 0
      ensures i % 77 == 0 ==> s[i] == LineState(false, false, false)
    {
      if 1 <= i < 78 {
        assert s[i] == x[i - 1];
      } else if 78 <= i < 155 {
        assert s[i] == y[i - 78];
      } else if 155 <= i {
        assert s[i] == z[i - 155];
      }
    }
  }

  /** The receiver clocks in the three command words back to back. */
  lemma WriteSampled(address: u8, value: u16)
    ensures Sampled(States(WriteTrace(address, value))) ==
      CommandBits(OpEnable, EwenAddress, 0) + CommandBits(OpWrite, address, value)
      + CommandBits(OpEnable, EwdsAddress, 0)
  {
    WriteStates(address, value);
    CommandStart(OpEnable, EwenAddress, 0, ShortPause);
    CommandStart(OpWrite, address, value, WritePause);
    CommandStart(OpEnable, EwdsAddress, 0, ShortPause);
    SampledChain([LineState(false, false, false)],
      States(CommandTrace(OpEnable, EwenAddress, 0, ShortPause)),
      States(CommandTrace(OpWrite, address, value, WritePause)),
      States(CommandTrace(OpEnable, EwdsAddress, 0, ShortPause)));
  }

  /** A command's states start with clock low and clock in its bits. */
  lemma CommandStart(op: nat, address: nat, data: nat, pause: nat)
    ensures var x := States(CommandTrace(op, address, data, pause));
      x != [] && !x[0].clock && Sampled(x) == CommandBits(op, address, data)
  {
    CommandStates(op, address, data, pause);
    CommandSampled(op, address, data, pause);
  }

  /** The WRITE command, the middle of the three words clocked in, carries
      opcode 5, the low 6 bits of the address and the value. */
  lemma WriteDecodes(address: u8, value: u16)
    ensures var bits := Sampled(States(WriteTrace(address, value)));
      |bits| == 75 &&
      FromMsbFirst(bits[25..28]) == OpWrite &&
      FromMsbFirst(bits[28..34]) == address % 64 &&
      FromMsbFirst(bits[34..50]) == value
  {
    WriteSampled(address, value);
    assert Sampled(States(WriteTrace(address, value))) ==
      CommandBits(OpEnable, EwenAddress, 0) + CommandBits(OpWrite, address, value)
      + CommandBits(OpEnable, EwdsAddress, 0);
    CommandDecodes(OpEnable, EwenAddress, 0);
    CommandDecodes(OpEnable, EwdsAddress, 0);
    MiddleWord(CommandBits(OpEnable, EwenAddress, 0), OpWrite, address, value,
               CommandBits(OpEnable, EwdsAddress, 0));
  }

  /** The fields of the middle one of three 25-bit command words. */
  lemma MiddleWord(a: seq<bool>, op: nat, address: nat, data: u16, c: seq<bool>)
    requires |a| == |c| == 25 && op < 8
    ensures var bits := a + CommandBits(op, address, data) + c;
      |bits| == 75 &&
      FromMsbFirst(bits[25..28]) == op &&
      FromMsbFirst(bits[28..34]) == address % 64 &&
      FromMsbFirst(bits[34..50]) == data
  {
    var b := CommandBits(op, address, data);
    CommandDecodes(op, address, data);
    assert op % 8 == op;
    var bits := a + b + c;
    assert bits[25..28] == b[..3] && bits[28..34] == b[3..9] && bits[34..50] == b[9..];
  }

  lemma SampledChain(p: seq<LineState>, x: seq<LineState>, y: seq<LineState>, z: seq<LineState>)
    requires p != [] && Sampled(p) == [] && x != [] && y != [] && z != []
    requires !x[0].clock && !y[0].clock && !z[0].clock
    ensures Sampled(p + x + y + z) == Sampled(x) + Sampled(y) + Sampled(z)
  {
    SampledJoin(p, x);
    assert Sampled(p + x) == Sampled(x);
    SampledJoin(p + x, y);
    SampledJoin(p + x + y, z);
  }

  // ---------------------------------------------------------------------
  // The pauses after deselecting

  /** The delay that follows each deselecting `output` call, in order. */
  function Pauses(t: seq<Event>): seq<nat>
    decreases |t|
  {
    if |t| < 2 then []
    else (if t[0].Out? && !t[0].state.cs && t[1].Sleep? then [t[1].us] else []) + Pauses(t[1..])
  }

  lemma {:induction false} PausesAppend(a: seq<Event>, b: seq<Event>)
    requires a != [] && a[|a| - 1].Sleep?
    ensures Pauses(a + b) == Pauses(a) + Pauses(b)
    decreases |a|
  {
    if |a| == 1 {
      assert (a + b)[1..] == b;
    } else {
      assert (a + b)[1..] == a[1..] + b;
      PausesAppend(a[1..], b);
    }
  }

  lemma {:induction false} TrainPauses(bs: seq<bool>, hold: nat)
    ensures Train(bs, hold) == [] || Train(bs, hold)[|Train(bs, hold)| - 1].Sleep?
    ensures Pauses(Train(bs, hold)) == []
  {
    if bs != [] {
      var p := Pulse(bs[0], hold);
      TrainPauses(bs[1..], hold);
      assert Pauses(p) == [] by {
        assert Pauses(p[5..]) == [];
        assert Pauses(p[4..]) == [];
        assert Pauses(p[3..]) == [];
        assert Pauses(p[2..]) == [];
        assert Pauses(p[1..]) == [];
      }
      PausesAppend(p, Train(bs[1..], hold));
    }
  }

  lemma CommandPauses(op: nat, address: nat, data: nat, pause: nat)
    ensures CommandTrace(op, address, data, pause)[|CommandTrace(op, address, data, pause)| - 1].Sleep?
    ensures Pauses(CommandTrace(op, address, data, pause)) == [pause]
  {
    CommandAsTrain(op, address, data, pause);
    TrainPauses(CommandBits(op, address, data), Hold);
    FramePauses([Drive(true, false, false), Sleep(Hold)], Train(CommandBits(op, address, data), Hold),
                [Drive(false, false, false), Sleep(pause)], pause);
  }

  /** Selecting and deselecting around a bit train: the one pause is the
      one after the deselect. */
  lemma FramePauses(open: seq<Event>, t: seq<Event>, close: seq<Event>, pause: nat)
    requires open == [Drive(true, false, false), Sleep(Hold)]
    requires close == [Drive(false, false, false), Sleep(pause)]
    requires t == [] || t[|t| - 1].Sleep?
    requires Pauses(t) == []
    ensures (open + t + close)[|open + t + close| - 1].Sleep?
    ensures Pauses(open + t + close) == [pause]
  {
    assert Pauses(open) == [];
    assert Pauses(close) == [pause];
    PausesAppend(open, t);
    var ot := open + t;
    assert ot[|ot| - 1].Sleep?;
    PausesAppend(ot, close);
  }

  /** The deselects of a write are followed by 10, 10, 1000 and 10 us: the
      pause after WRITE, the programming time, is strictly the longest. */
  lemma WritePauses(address: u8, value: u16)
    ensures Pauses(WriteTrace(address, value)) == [ShortPause, ShortPause, WritePause, ShortPause]
    ensures ShortPause < WritePause
  {
    CommandsPauses(OpEnable, EwenAddress, 0, ShortPause, OpWrite, address, value, WritePause,
                   OpEnable, EwdsAddress, 0, ShortPause);
    assert Hold == ShortPause;
  }

  lemma CommandsPauses(o1: nat, a1: nat, d1: nat, p1: nat, o2: nat, a2: nat, d2: nat, p2: nat,
                       o3: nat, a3: nat, d3: nat, p3: nat)
    ensures Pauses(InitTrace() + CommandTrace(o1, a1, d1, p1) + CommandTrace(o2, a2, d2, p2)
                   + CommandTrace(o3, a3, d3, p3)) == [Hold, p1, p2, p3]
  {
    var e1, e2, e3 := CommandTrace(o1, a1, d1, p1), CommandTrace(o2, a2, d2, p2), CommandTrace(o3, a3, d3, p3);
    CommandPauses(o1, a1, d1, p1);
    CommandPauses(o2, a2, d2, p2);
    CommandPauses(o3, a3, d3, p3);
    var p := InitTrace();
    assert Pauses(p) == [Hold];
    PausesAppend(p, e1);
    var pe := p + e1;
    assert pe[|pe| - 1] == e1[|e1| - 1];
    PausesAppend(pe, e2);
    var pee := pe + e2;
    assert pee[|pee| - 1] == e2[|e2| - 1];
    PausesAppend(pee, e3);
  }

}
