/** The GPIO line driver and the trace it produces.

    The peripheral exposes its EEPROM pins through one 32-bit register at
    offset 0x20 from the I/O-port base. `output(cs, clock, dataout)` packs
    the three control lines, plus an always-set output-enable bit, into one
    word and writes it in a single port write. Here the port is simulated:
    every port write and every `usleep` is appended to a trace.
 */
module Lines {

  datatype Option<T> = None | Some(value: T)

  /** Offsets of the two registers the tool writes, from the I/O-port base. */
  const PinControl: nat := 0x00
  const Gpio: nat := 0x20

  /** The instantaneous state of the three driven lines. */
  datatype LineState = LineState(cs: bool, clock: bool, data: bool)

  /** What the program does to the outside world, in order: an `output`
      call (one write of `LineWord(state)` to the GPIO register), another
      32-bit port write at an offset from the I/O base, or a delay in
      microseconds. */
  datatype Event = Out(state: LineState) | Port(offset: nat, word: nat) | Sleep(us: nat)

  /** The register word `output` composes: output enable is 0x10,
      chip-select 8, clock 4 and data-out 2. */
  function LineWord(s: LineState): (w: bv32)
    ensures w & 0x10 == 0x10
    ensures w & !0x1E == 0
    ensures (w & 8 != 0) == s.cs && (w & 4 != 0) == s.clock && (w & 2 != 0) == s.data
  {
    0x10 | (if s.cs then 8 else 0) | (if s.clock then 4 else 0) | (if s.data then 2 else 0)
  }

  /** The line state a GPIO word drives, if it is one `output` can write. */
  function Decode(w: bv32): Option<LineState> {
    if w & !0x0E == 0x10 then Some(LineState(w & 8 != 0, w & 4 != 0, w & 2 != 0))
    else None
  }

  lemma DecodeLineWord(s: LineState)
    ensures Decode(LineWord(s)) == Some(s)
  {
  }

  /** Decoding succeeds exactly on the words `output` writes. */
  lemma LineWordOfDecode(w: bv32, s: LineState)
    requires Decode(w) == Some(s)
    ensures LineWord(s) == w
  {
  }

  lemma LineWordInjective(s: LineState, t: LineState)
    requires LineWord(s) == LineWord(t)
    ensures s == t
  {
    DecodeLineWord(s);
    DecodeLineWord(t);
  }

  /** The port write an event performs, as (offset, word). */
  function PortAccess(e: Event): Option<(nat, bv32)> {
    match e
    case Out(s) => Some((Gpio, LineWord(s)))
    case Port(offset, word) => Some((offset, (word % 0x1_0000_0000) as bv32))
    case Sleep(_) => None
  }

  /** Every `output` event is one GPIO write whose word decodes back to its
      line state, so the trace of line states is the register trace. */
  lemma OutIsGpioWrite(e: Event)
    requires e.Out?
    ensures PortAccess(e).Some? && PortAccess(e).value.0 == Gpio
    ensures Decode(PortAccess(e).value.1) == Some(e.state)
  {
  }

  function Drive(cs: bool, clock: bool, data: bool): Event {
    Out(LineState(cs, clock, data))
  }

  /** The line states a trace drives, in order. */
  function States(t: seq<Event>): seq<LineState> {
    if t == [] then []
    else (if t[0].Out? then [t[0].state] else []) + States(t[1..])
  }

  lemma {:induction false} StatesAppend(a: seq<Event>, b: seq<Event>)
    ensures States(a + b) == States(a) + States(b)
  {
    if a == [] {
      assert a + b == b;
    } else {
      var ab, head := a + b, if a[0].Out? then [a[0].state] else [];
      assert ab[0] == a[0] && ab[1..] == a[1..] + b;
      assert States(ab) == head + States(a[1..] + b);
      StatesAppend(a[1..], b);
      Assoc(head, States(a[1..]), States(b));
    }
  }

  /** One clock pulse with chip-select high and data held at b: clock low,
      high, low, each state held for `hold` microseconds. */
  function Pulse(b: bool, hold: nat): seq<Event> {
    [Drive(true, false, b), Sleep(hold), Drive(true, true, b), Sleep(hold),
     Drive(true, false, b), Sleep(hold)]
  }

  /** One pulse per bit of bs, in order. */
  function Train(bs: seq<bool>, hold: nat): seq<Event> {
    if bs == [] then [] else Pulse(bs[0], hold) + Train(bs[1..], hold)
  }

  lemma Assoc<T>(a: seq<T>, b: seq<T>, c: seq<T>)
    ensures a + (b + c) == (a + b) + c
  {
  }

  lemma TrainCons(b: bool, rest: seq<bool>, hold: nat)
    ensures Train([b] + rest, hold) == Pulse(b, hold) + Train(rest, hold)
  {
    assert ([b] + rest)[1..] == rest;
  }

  lemma {:induction false} TrainAppend(a: seq<bool>, b: seq<bool>, hold: nat)
    ensures Train(a + b, hold) == Train(a, hold) + Train(b, hold)
  {
    if a == [] {
      assert a + b == b;
    } else {
      assert (a + b)[1..] == a[1..] + b;
      TrainAppend(a[1..], b, hold);
    }
  }

  /** The line states of a pulse train, three per bit. */
  function TrainStates(bs: seq<bool>): seq<LineState> {
    if bs == [] then []
    else [LineState(true, false, bs[0]), LineState(true, true, bs[0]), LineState(true, false, bs[0])]
         + TrainStates(bs[1..])
  }

  lemma {:induction false} StatesOfTrain(bs: seq<bool>, hold: nat)
    ensures States(Train(bs, hold)) == TrainStates(bs)
  {
    if bs != [] {
      var p := Pulse(bs[0], hold);
      StatesAppend(p, Train(bs[1..], hold));
      StatesOfTrain(bs[1..], hold);
      assert States(p) == [LineState(true, false, bs[0]), LineState(true, true, bs[0]), LineState(true, false, bs[0])] by {
        assert States(p[6..]) == [];
        assert States(p[5..]) == [];
        assert States(p[4..]) == [LineState(true, false, bs[0])];
        assert States(p[3..]) == [LineState(true, false, bs[0])];
        assert States(p[2..]) == [LineState(true, true, bs[0]), LineState(true, false, bs[0])];
        assert States(p[1..]) == States(p[2..]);
      }
    }
  }

  /** Slot k of a train is the three states (cs, clock, data) =
      (1, 0, bs[k]), (1, 1, bs[k]), (1, 0, bs[k]): chip-select stays high
      and data is constant within the slot. */
  lemma {:induction false} TrainStatesSlots(bs: seq<bool>)
    ensures |TrainStates(bs)| == 3 * |bs|
    ensures forall k :: 0 <= k < |bs| ==>
      TrainStates(bs)[3 * k] == LineState(true, false, bs[k]) &&
      TrainStates(bs)[3 * k + 1] == LineState(true, true, bs[k]) &&
      TrainStates(bs)[3 * k + 2] == LineState(true, false, bs[k])
  {
    if bs != [] {
      TrainStatesSlots(bs[1..]);
      var s := TrainStates(bs);
      assert s[3..] == TrainStates(bs[1..]);
      forall k | 1 <= k < |bs|
        ensures s[3 * k] == LineState(true, false, bs[k])
        ensures s[3 * k + 1] == LineState(true, true, bs[k])
        ensures s[3 * k + 2] == LineState(true, false, bs[k])
      {
        assert s[3 * k] == s[3..][3 * (k - 1)];
        assert s[3 * k + 1] == s[3..][3 * (k - 1) + 1];
        assert s[3 * k + 2] == s[3..][3 * (k - 1) + 2];
      }
    }
  }

  /** The data value clocked in at each rising clock edge, in order. A
      receiver samples data when clock goes from low to high. */
  function Sampled(s: seq<LineState>): seq<bool>
    decreases |s|
  {
    if |s| < 2 then [] else Edge(s[0], s[1]) + Sampled(s[1..])
  }

  function Edge(x: LineState, y: LineState): seq<bool> {
    if !x.clock && y.clock then [y.data] else []
  }

  lemma {:induction false} SampledAppend(a: seq<LineState>, b: seq<LineState>)
    requires a != [] && b != []
    ensures Sampled(a + b) == Sampled(a) + Edge(a[|a| - 1], b[0]) + Sampled(b)
    decreases |a|
  {
    if |a| == 1 {
      assert (a + b)[1..] == b;
    } else {
      assert (a + b)[1..] == a[1..] + b;
      SampledAppend(a[1..], b);
    }
  }

  /** A pulse train clocks in exactly its bits. */
  lemma {:induction false} SampledTrain(bs: seq<bool>)
    ensures Sampled(TrainStates(bs)) == bs
  {
    if bs != [] {
      var head := [LineState(true, false, bs[0]), LineState(true, true, bs[0]), LineState(true, false, bs[0])];
      assert Sampled(head) == [bs[0]] by {
        assert Sampled(head[2..]) == [];
        assert Sampled(head[1..]) == [];
      }
      SampledTrain(bs[1..]);
      if bs[1..] == [] {
        assert TrainStates(bs) == head;
      } else {
        SampledAppend(head, TrainStates(bs[1..]));
      }
    }
  }

  /** Joining two pieces adds no sample when the second starts with clock
      low or the first ends with clock high. */
  lemma SampledJoin(a: seq<LineState>, b: seq<LineState>)
    requires a != [] && b != [] && (a[|a| - 1].clock || !b[0].clock)
    ensures Sampled(a + b) == Sampled(a) + Sampled(b)
  {
    SampledAppend(a, b);
  }

  /** A nonempty train starts and ends with chip-select high, clock low. */
  lemma TrainEnds(bs: seq<bool>)
    requires bs != []
    ensures |TrainStates(bs)| == 3 * |bs|
    ensures TrainStates(bs)[0] == LineState(true, false, bs[0])
    ensures TrainStates(bs)[3 * |bs| - 1] == LineState(true, false, bs[|bs| - 1])
  {
    TrainStatesSlots(bs);
  }

  /** Chip-select is high in every state of s. */
  predicate AllSelected(s: seq<LineState>) {
    forall i :: 0 <= i < |s| ==> s[i].cs
  }

  lemma SelectedAppend(a: seq<LineState>, b: seq<LineState>)
    requires AllSelected(a) && AllSelected(b)
    ensures AllSelected(a + b)
  {
    var s := a + b;
    forall i | 0 <= i < |s| ensures s[i].cs {
      if i < |a| {
        assert s[i] == a[i];
      } else {
        assert s[i] == b[i - |a|];
      }
    }
  }

  lemma {:induction false} TrainSelected(bs: seq<bool>)
    ensures AllSelected(TrainStates(bs))
  {
    if bs != [] {
      TrainSelected(bs[1..]);
      SelectedAppend([LineState(true, false, bs[0]), LineState(true, true, bs[0]), LineState(true, false, bs[0])],
                     TrainStates(bs[1..]));
    }
  }

  /** Data changes from x to y only while clock is low in both. */
  predicate Calm(x: LineState, y: LineState) {
    x.data == y.data || (!x.clock && !y.clock)
  }

  /** No data change in s happens with clock high. */
  predicate AllCalm(s: seq<LineState>) {
    forall i :: 0 < i < |s| ==> Calm(s[i - 1], s[i])
  }

  lemma CalmAppend(a: seq<LineState>, b: seq<LineState>)
    requires AllCalm(a) && AllCalm(b)
    requires a != [] && b != [] ==> Calm(a[|a| - 1], b[0])
    ensures AllCalm(a + b)
  {
    var s := a + b;
    forall i | 0 < i < |s| ensures Calm(s[i - 1], s[i]) {
      if i < |a| {
        assert s[i - 1] == a[i - 1] && s[i] == a[i];
      } else if i == |a| {
        assert s[i - 1] == a[|a| - 1] && s[i] == b[0];
      } else {
        assert s[i - 1] == b[i - 1 - |a|] && s[i] == b[i - |a|];
      }
    }
  }

  lemma {:induction false} TrainCalm(bs: seq<bool>)
    ensures AllCalm(TrainStates(bs))
  {
    if bs != [] {
      TrainCalm(bs[1..]);
      var head := [LineState(true, false, bs[0]), LineState(true, true, bs[0]), LineState(true, false, bs[0])];
      assert AllCalm(head);
      if bs[1..] != [] {
        assert TrainStates(bs[1..])[0].clock == false by { TrainStatesSlots(bs[1..]); }
      }
      CalmAppend(head, TrainStates(bs[1..]));
    }
  }

  /** The simulated I/O port and clock: it records what the program writes
      and how long it sleeps, in place of `outl_p` and `usleep`. */
  class Driver {
    var trace: seq<Event>

    constructor ()
      ensures trace == []
    {
      trace := [];
    }

    /** `outl_p(word, io_ports + offset)` */
    method PortWrite(word: bv32, offset: nat)
      modifies this
      ensures trace == old(trace) + [Port(offset, word as nat)]
    {
      trace := trace + [Port(offset, word as nat)];
    }

    method Usleep(us: nat)
      modifies this
      ensures trace == old(trace) + [Sleep(us)]
    {
      trace := trace + [Sleep(us)];
    }

    /** `output(cs, clock, dataout)`: one GPIO write of the composed word. */
    method Output(cs: bool, clock: bool, dataout: bool)
      modifies this
      ensures trace == old(trace) + [Drive(cs, clock, dataout)]
    {
      trace := trace + [Out(LineState(cs, clock, dataout))];
    }
  }
}
