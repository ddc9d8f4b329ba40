/** The I2C-style (two-wire) bit-bang engine of vt6307ohciver.c.

    START and STOP are the conditions of section 3.1.4 of the NXP I2C-bus
    specification UM10204 (data falls, respectively rises, while clock is
    high); bytes go MSB first followed by a ninth acknowledge clock
    (sections 3.1.5 and 3.1.6). The master drives the acknowledge slot low
    itself and never samples it.
 */
module TwoWire {
  import opened Bits
  import opened Lines

  /** 24C01 device-select byte for a write: address 0x50, R/W bit 0. */
  const DevselWrite: u8 := 0x50 * 2

  const ByteWidth: nat := 8

  /** Hold time of one state inside a bit slot and a STOP, in microseconds. */
  const BitHold: nat := 100

  /** The nine bits clocked out for one byte: bits 7..0, then the ACK slot
      driven low. */
  function ByteBits(v: u8): seq<bool> {
    MsbFirst(v, ByteWidth) + [false]
  }

  function ByteTrace(v: u8): seq<Event> {
    Train(ByteBits(v), BitHold)
  }

  function InitTrace(): seq<Event> {
    [Drive(true, false, true), Sleep(100), Drive(true, true, true), Sleep(2000)]
  }

  function StartTrace(): seq<Event> {
    [Drive(true, true, false), Sleep(1000), Drive(true, false, false), Sleep(1000)]
  }

  function StopTrace(): seq<Event> {
    [Drive(true, false, false), Sleep(100), Drive(true, true, false), Sleep(100),
     Drive(true, true, true), Sleep(100)]
  }

  /** The whole write transaction: init, START, device select, address,
      value, STOP, with the two 2000 us waits around STOP. */
  function WriteTrace(address: u8, value: u8): seq<Event> {
    InitTrace() + StartTrace()
    + ByteTrace(DevselWrite) + ByteTrace(address) + ByteTrace(value) + [Sleep(2000)]
    + StopTrace() + [Sleep(2000)]
  }

  // ---------------------------------------------------------------------
  // The engine, on the simulated driver

  /** `start_i2c` */
  method Start(d: Driver)
    modifies d
    ensures d.trace == old(d.trace) + StartTrace()
  {
    d.Output(true, true, false); d.Usleep(1000);
    d.Output(true, false, false); d.Usleep(1000);
  }

  /** `stop_i2c` */
  method Stop(d: Driver)
    modifies d
    ensures d.trace == old(d.trace) + StopTrace()
  {
    d.Output(true, false, false); d.Usleep(100);
    d.Output(true, true, false); d.Usleep(100);
    d.Output(true, true, true); d.Usleep(100);
  }

  /** `send_bit_i2c`; v is "the masked bit is nonzero". */
  method SendBit(d: Driver, v: bool)
    modifies d
    ensures d.trace == old(d.trace) + Pulse(v, BitHold)
  {
    d.Output(true, false, v); d.Usleep(100);
    d.Output(true, true, v); d.Usleep(100);
    d.Output(true, false, v); d.Usleep(100);
  }

  /** `write_byte_i2c`: shifts the byte left in place, sending its top bit
      each time, then clocks the ACK slot with data low. */
  method WriteByte(d: Driver, value: u8)
    modifies d
    ensures d.trace == old(d.trace) + ByteTrace(value)
  {
    var v: u8 := value;
    var i := ByteWidth;
    assert Pow2(ByteWidth) == 0x100;
    while i > 0
      invariant 0 <= i <= ByteWidth
      invariant MsbFirst(v, ByteWidth)[..i] == MsbFirst(value, i)
      invariant old(d.trace) + Train(MsbFirst(value, ByteWidth), BitHold) == d.trace + Train(MsbFirst(value, i), BitHold)
    {
      ShiftStep(v, value, i, ByteWidth);
      MsbFirstCons(value, i);
      TrainCons(Bit(value, i - 1), MsbFirst(value, i - 1), BitHold);
      Assoc(d.trace, Pulse(Bit(value, i - 1), BitHold), Train(MsbFirst(value, i - 1), BitHold));
      i := i - 1;
      SendBit(d, Bit(v, ByteWidth - 1));   // value & 0x80
      v := (v * 2) % 0x100;                // value <<= 1, as a uint8_t
    }
    assert Train(MsbFirst(value, i), BitHold) == [];
    ghost var t0 := d.trace;
    assert t0 + [] == t0;
    assert t0 == old(d.trace) + Train(MsbFirst(value, ByteWidth), BitHold);
    SendBit(d, false);
    assert d.trace == t0 + Pulse(false, BitHold);
    ByteTraceSplit(value);
    assert d.trace == old(d.trace) + (Train(MsbFirst(value, ByteWidth), BitHold) + Pulse(false, BitHold));
  }

  lemma ByteTraceSplit(value: u8)
    ensures ByteTrace(value) == Train(MsbFirst(value, ByteWidth), BitHold) + Pulse(false, BitHold)
  {
    TrainAppend(MsbFirst(value, ByteWidth), [false], BitHold);
    TrainCons(false, [], BitHold);
    assert [false] + [] == [false];
  }

  /** `write_i2c`, without its progress message. */
  method Write(d: Driver, address: u8, value: u8)
    modifies d
    ensures d.trace == old(d.trace) + WriteTrace(address, value)
  {
    ghost var t0 := d.trace;
    d.Output(true, false, true); d.Usleep(100);   // init
    d.Output(true, true, true); d.Usleep(2000);
    assert d.trace == t0 + InitTrace();
    Start(d);
    Assoc(t0, InitTrace(), StartTrace());
    ghost var p := InitTrace() + StartTrace();
    WriteByte(d, DevselWrite);
    Assoc(t0, p, ByteTrace(DevselWrite));
    p := p + ByteTrace(DevselWrite);
    WriteByte(d, address);
    Assoc(t0, p, ByteTrace(address));
    p := p + ByteTrace(address);
    WriteByte(d, value);
    Assoc(t0, p, ByteTrace(value));
    p := p + ByteTrace(value);
    d.Usleep(2000);
    Assoc(t0, p, [Sleep(2000)]);
    p := p + [Sleep(2000)];
    Stop(d);
    Assoc(t0, p, StopTrace());
    p := p + StopTrace();
    d.Usleep(2000);
    Assoc(t0, p, [Sleep(2000)]);
  }

  // ---------------------------------------------------------------------
  // What the transaction looks like on the wire

  /** The line states of one byte: nine slots (1,0,b), (1,1,b), (1,0,b)
      carrying bits 7..0 of v and then a low ACK bit. */
  lemma ByteSlots(v: u8)
    ensures |States(ByteTrace(v))| == 27
    ensures forall k :: 0 <= k < 9 ==>
      var b := if k < 8 then Bit(v, 7 - k) else false;
      States(ByteTrace(v))[3 * k] == LineState(true, false, b) &&
      States(ByteTrace(v))[3 * k + 1] == LineState(true, true, b) &&
      States(ByteTrace(v))[3 * k + 2] == LineState(true, false, b)
  {
    var bits := ByteBits(v);
    StatesOfTrain(bits, BitHold);
    TrainStatesSlots(bits);
    var s := States(ByteTrace(v));
    forall k | 0 <= k < 9
      ensures var b := if k < 8 then Bit(v, 7 - k) else false;
        s[3 * k] == LineState(true, false, b) && s[3 * k + 1] == LineState(true, true, b) &&
        s[3 * k + 2] == LineState(true, false, b)
    {
      assert bits[k] == if k < 8 then Bit(v, 7 - k) else false by {
        if k < 8 {
          assert bits[k] == MsbFirst(v, ByteWidth)[k];
        }
      }
    }
  }

  /** Sampling the byte's line states at the rising clock edges gives bits
      7..0 of v and then 0; the first eight samples read back as v. */
  lemma ByteSampled(v: u8)
    ensures Sampled(States(ByteTrace(v))) == MsbFirst(v, 8) + [false]
    ensures FromMsbFirst(Sampled(States(ByteTrace(v)))[..8]) == v
  {
    StatesOfTrain(ByteBits(v), BitHold);
    SampledTrain(ByteBits(v));
    assert (MsbFirst(v, 8) + [false])[..8] == MsbFirst(v, 8);
    FromMsbFirstOfMsbFirst(v, 8);
    Pow2Values();
    ModSmall(v, 8);
  }

  function InitStates(): seq<LineState> {
    [LineState(true, false, true), LineState(true, true, true)]
  }

  function StartStates(): seq<LineState> {
    [LineState(true, true, false), LineState(true, false, false)]
  }

  function StopStates(): seq<LineState> {
    [LineState(true, false, false), LineState(true, true, false), LineState(true, true, true)]
  }

  function ByteStates(v: u8): seq<LineState> {
    TrainStates(ByteBits(v))
  }

  function WriteStates(address: u8, value: u8): seq<LineState> {
    InitStates() + StartStates()
    + ByteStates(DevselWrite) + ByteStates(address) + ByteStates(value)
    + StopStates()
  }

  lemma StatesOfPhases()
    ensures States(InitTrace()) == InitStates()
    ensures States(StartTrace()) == StartStates()
    ensures States([Sleep(2000)] + StopTrace() + [Sleep(2000)]) == StopStates()
  {
    var init, start := InitTrace(), StartTrace();
    assert States(init[3..]) == [];
    assert States(init[2..]) == [LineState(true, true, true)];
    assert States(start[3..]) == [];
    assert States(start[2..]) == [LineState(true, false, false)];
    var tail := [Sleep(2000)] + StopTrace() + [Sleep(2000)];
    assert States(tail[5..]) == [LineState(true, true, true)];
    assert States(tail[3..]) == [LineState(true, true, false), LineState(true, true, true)];
    assert States(tail[1..]) == StopStates();
  }

  /** The transaction's line states, phase by phase. */
  lemma StatesOfWrite(address: u8, value: u8)
    ensures States(WriteTrace(address, value)) == WriteStates(address, value)
  {
    StatesOfPhases();
    StatesAppend(InitTrace(), StartTrace());
    StatesOfTrain(ByteBits(DevselWrite), BitHold);
    StatesOfTrain(ByteBits(address), BitHold);
    StatesOfTrain(ByteBits(value), BitHold);
    var x := InitTrace() + StartTrace() + ByteTrace(DevselWrite) + ByteTrace(address) + ByteTrace(value);
    Assoc(x, [Sleep(2000)], StopTrace());
    Assoc(x, [Sleep(2000)] + StopTrace(), [Sleep(2000)]);
    StatesOfFive(InitTrace() + StartTrace(), ByteTrace(DevselWrite), ByteTrace(address), ByteTrace(value),
                 [Sleep(2000)] + StopTrace() + [Sleep(2000)]);
  }

  lemma StatesOfFive(p: seq<Event>, a: seq<Event>, b: seq<Event>, c: seq<Event>, q: seq<Event>)
    ensures States(p + a + b + c + q) == States(p) + States(a) + States(b) + States(c) + States(q)
  {
    StatesAppend(p, a);
    StatesAppend(p + a, b);
    StatesAppend(p + a + b, c);
    StatesAppend(p + a + b + c, q);
  }

  /** 2 init + 2 START + 3 x 27 byte + 3 STOP = 88 line states, each with
      chip-select high. */
  lemma WriteFraming(address: u8, value: u8)
    ensures |States(WriteTrace(address, value))| == 88
    ensures forall i :: 0 <= i < 88 ==> States(WriteTrace(address, value))[i].cs
  {
    StatesOfWrite(address, value);
    ByteSelected(DevselWrite);
    ByteSelected(address);
    ByteSelected(value);
    PhasesSelected();
    SelectedFive(InitStates() + StartStates(), ByteStates(DevselWrite), ByteStates(address),
                 ByteStates(value), StopStates());
  }

  lemma PhasesSelected()
    ensures AllSelected(InitStates() + StartStates()) && AllSelected(StopStates())
  {
    var p := InitStates() + StartStates();
    assert p[2] == LineState(true, true, false) && p[3] == LineState(true, false, false);
  }

  lemma ByteSelected(v: u8)
    ensures |ByteStates(v)| == 27 && AllSelected(ByteStates(v))
  {
    TrainStatesSlots(ByteBits(v));
    TrainSelected(ByteBits(v));
  }

  lemma SelectedFive(p: seq<LineState>, x: seq<LineState>, y: seq<LineState>, z: seq<LineState>, q: seq<LineState>)
    requires AllSelected(p) && AllSelected(x) && AllSelected(y) && AllSelected(z) && AllSelected(q)
    ensures AllSelected(p + x + y + z + q)
  {
    SelectedAppend(p, x);
    SelectedAppend(p + x, y);
    SelectedAppend(p + x + y, z);
    SelectedAppend(p + x + y + z, q);
  }

  /** The bits a receiver clocks in during the transaction: the init's 1,
      the device-select byte, the address and the value each with its
      ACK slot, and the 0 clocked in by STOP's rising clock. */
  lemma WriteSampled(address: u8, value: u8)
    ensures Sampled(States(WriteTrace(address, value))) ==
      [true] + ByteBits(DevselWrite) + ByteBits(address) + ByteBits(value) + [false]
  {
    StatesOfWrite(address, value);
    ByteStatesSampled(DevselWrite);
    ByteStatesSampled(address);
    ByteStatesSampled(value);
    PrologueSampled();
    StopSampled();
    SampledFrame(InitStates() + StartStates(), ByteStates(DevselWrite), ByteStates(address),
                 ByteStates(value), StopStates());
  }

  /** A byte's states start with clock low and clock in its nine bits. */
  lemma ByteStatesSampled(v: u8)
    ensures ByteStates(v) != [] && !ByteStates(v)[0].clock
    ensures Sampled(ByteStates(v)) == ByteBits(v)
  {
    TrainEnds(ByteBits(v));
    SampledTrain(ByteBits(v));
  }

  /** The init's rising clock samples 1 (START itself has no rising
      edge). */
  lemma PrologueSampled()
    ensures Sampled(InitStates() + StartStates()) == [true]
  {
    var p := InitStates() + StartStates();
    assert Sampled(p[3..]) == [];
    assert Sampled(p[2..]) == [];
    assert Sampled(p[1..]) == [];
  }

  /** STOP's rising clock samples 0. */
  lemma StopSampled()
    ensures Sampled(StopStates()) == [false]
  {
    var q := StopStates();
    assert Sampled(q[2..]) == [];
    assert Sampled(q[1..]) == [];
  }

  /** Five pieces joined where each later piece starts with clock low: no
      sample is gained or lost at a joint. */
  lemma SampledFrame(p: seq<LineState>, x: seq<LineState>, y: seq<LineState>, z: seq<LineState>, q: seq<LineState>)
    requires p != [] && x != [] && y != [] && z != [] && q != []
    requires !x[0].clock && !y[0].clock && !z[0].clock && !q[0].clock
    ensures Sampled(p + x + y + z + q) == Sampled(p) + Sampled(x) + Sampled(y) + Sampled(z) + Sampled(q)
  {
    SampledJoin(p, x);
    SampledJoin(p + x, y);
    SampledJoin(p + x + y, z);
    SampledJoin(p + x + y + z, q);
  }

  /** The three bytes read back from the clocked-in bits. */
  lemma WriteDecodes(address: u8, value: u8)
    ensures var bits := Sampled(States(WriteTrace(address, value)));
      |bits| == 29 &&
      FromMsbFirst(bits[1..9]) == DevselWrite && !bits[9] &&
      FromMsbFirst(bits[10..18]) == address && !bits[18] &&
      FromMsbFirst(bits[19..27]) == value && !bits[27]
  {
    WriteSampled(address, value);
    ByteBitsDecode(DevselWrite);
    ByteBitsDecode(address);
    ByteBitsDecode(value);
    BitsFrame(ByteBits(DevselWrite), ByteBits(address), ByteBits(value));
  }

  /** Where each nine-bit piece sits in the 29 clocked-in bits. */
  lemma BitsFrame(x: seq<bool>, y: seq<bool>, z: seq<bool>)
    requires |x| == |y| == |z| == 9
    ensures var bits := [true] + x + y + z + [false];
      |bits| == 29 &&
      bits[1..9] == x[..8] && bits[9] == x[8] &&
      bits[10..18] == y[..8] && bits[18] == y[8] &&
      bits[19..27] == z[..8] && bits[27] == z[8]
  {
  }

  /** A byte's nine bits read back as the byte, then a low ACK. */
  lemma ByteBitsDecode(v: u8)
    ensures |ByteBits(v)| == 9
    ensures FromMsbFirst(ByteBits(v)[..8]) == v && !ByteBits(v)[8]
  {
    assert ByteBits(v)[..8] == MsbFirst(v, ByteWidth);
    FromMsbFirstOfMsbFirst(v, ByteWidth);
    assert Pow2(ByteWidth) == 0x100;
    ModSmall(v, ByteWidth);
  }

  /** Data moves while clock is high exactly twice: it falls at START
      (state 2) and rises at STOP (state 87). Every other data change
      happens with clock low on both sides. */
  lemma DataMovesWithClockLow(address: u8, value: u8)
    ensures var s := States(WriteTrace(address, value));
      |s| == 88 &&
      (forall i :: 0 < i < 88 ==> (Calm(s[i - 1], s[i]) <==> i != 2 && i != 87)) &&
      s[1].clock && s[2].clock && s[1].data && !s[2].data &&
      s[86].clock && s[87].clock && !s[86].data && s[87].data
  {
    StatesOfWrite(address, value);
    var x, y, z := ByteStates(DevselWrite), ByteStates(address), ByteStates(value);
    TrainEnds(ByteBits(DevselWrite));
    TrainEnds(ByteBits(address));
    TrainEnds(ByteBits(value));
    TrainCalm(ByteBits(DevselWrite));
    TrainCalm(ByteBits(address));
    TrainCalm(ByteBits(value));
    CalmWrite(x, y, z);
  }

  /** The calm-joint argument over any three 27-state byte pieces. */
  lemma CalmWrite(x: seq<LineState>, y: seq<LineState>, z: seq<LineState>)
    requires AllCalm(x) && AllCalm(y) && AllCalm(z) && |x| == |y| == |z| == 27
    requires !x[0].clock && !x[26].clock && !y[0].clock && !y[26].clock
    requires !z[0].clock && !z[26].clock
    ensures var s := InitStates() + StartStates() + x + y + z + StopStates();
      |s| == 88 &&
      (forall i :: 0 < i < 88 ==> (Calm(s[i - 1], s[i]) <==> i != 2 && i != 87)) &&
      s[1].clock && s[2].clock && s[1].data && !s[2].data &&
      s[86].clock && s[87].clock && !s[86].data && s[87].data
  {
    var m0 := [LineState(true, true, false), LineState(true, false, false)];
    var m4 := [LineState(true, false, false), LineState(true, true, false)];
    assert AllCalm(m0) && AllCalm(m4);
    CalmFrame(m0, x, y, z, m4);
    var m := m0 + x + y + z + m4;
    var s := InitStates() + StartStates() + x + y + z + StopStates();
    assert s == [LineState(true, false, true), LineState(true, true, true)] + m + [LineState(true, true, true)];
    CalmBetween(m);
  }

  /** Pieces that are calm inside, joined at clock-low states, are calm. */
  lemma CalmFrame(p: seq<LineState>, x: seq<LineState>, y: seq<LineState>, z: seq<LineState>, q: seq<LineState>)
    requires AllCalm(p) && AllCalm(x) && AllCalm(y) && AllCalm(z) && AllCalm(q)
    requires |p| == 2 && |x| == |y| == |z| == 27 && |q| == 2
    requires !p[1].clock && !x[0].clock && !x[26].clock && !y[0].clock && !y[26].clock
    requires !z[0].clock && !z[26].clock && !q[0].clock
    ensures |p + x + y + z + q| == 85 && AllCalm(p + x + y + z + q)
  {
    CalmAppend(p, x);
    CalmAppend(p + x, y);
    CalmAppend(p + x + y, z);
    CalmAppend(p + x + y + z, q);
  }

  /** The 88 states around a calm middle: the only data moves with clock
      high are START's fall and STOP's rise. */
  lemma CalmBetween(m: seq<LineState>)
    requires |m| == 85 && AllCalm(m)
    requires m[0] == LineState(true, true, false) && m[84] == LineState(true, true, false)
    ensures var s := [LineState(true, false, true), LineState(true, true, true)] + m + [LineState(true, true, true)];
      |s| == 88 &&
      (forall i :: 0 < i < 88 ==> (Calm(s[i - 1], s[i]) <==> i != 2 && i != 87)) &&
      s[1].clock && s[2].clock && s[1].data && !s[2].data &&
      s[86].clock && s[87].clock && !s[86].data && s[87].data
  {
    var s := [LineState(true, false, true), LineState(true, true, true)] + m + [LineState(true, true, true)];
    forall i | 0 < i < 88 ensures Calm(s[i - 1], s[i]) <==> i != 2 && i != 87 {
      if 2 < i < 87 {
        assert s[i - 1] == m[i - 3] && s[i] == m[i - 2];
      }
    }
  }
}
