/** The Firmata protocol adapter (`firmataImpl`): it encodes pin-mode and
    digital-write requests as Firmata frames, keeps the per-port output
    bitmask that a digital-write frame carries, and performs the fixed
    reporting handshake after the connection is opened.

    The pure part of this module is the reference semantics: `Step` says what
    one operation does to the adapter's state (the port bitmasks and the
    timeline of the outside world), and `Run` performs a sequence of
    operations, stopping at the first one that fails, the way every caller
    in the driver does with its early `return err`.  The class `Firmata`
    implements the operations on an array and a `World`, and each of its
    methods is proved to agree with `Step` or `Run`. */
module Firmata {
  import opened Io
  import opened Bits

  const SettleDelayMs: nat := 2000   // `delay`, two seconds

  const CmdReportAnalog := 0xC0
  const CmdReportDigital := 0xD0
  const CmdSetPinMode := 0xF4
  const CmdDigitalMessage := 0x90

  /** Length of `digitalOutData` as created by `newFirmata`. */
  const NumPorts := 13
  /** Analog channels, and then digital ports, for which reporting is enabled. */
  const AnalogReports := 6
  const DigitalReports := 2

  datatype PinMode = Input | Output | Analog | Pwm | Servo

  function ModeValue(m: PinMode): (v: Byte)
  {
    match m
    case Input => 0
    case Output => 1
    case Analog => 2
    case Pwm => 3
    case Servo => 4
  }

  /** `(pin >> 3) & 0x0F`: Go's `>>` on an `int` floors, as the Euclidean `/`
      does for a positive divisor, and `& 0x0F` is the residue modulo 16. */
  function PortOf(pin: int): (port: nat)
    ensures port < 16
  {
    (pin / 8) % 16
  }

  /** `pin & 0x07` */
  function BitOf(pin: int): (bit: nat)
    ensures bit < 8
  {
    pin % 8
  }

  /** A port entry after one pin's digital write: `state |= 1 << bit` for
      true, `state &= ^(1 << bit)` for false. */
  function Merge(state: nat, bit: nat, value: bool): (r: nat)
    requires state < 256 && bit < 8
    ensures r < 256
  {
    Pow2Below(bit, 8);
    if value then
      OrBound(state, Pow2(bit), 8);
      Or(state, Pow2(bit))
    else
      AndNotBound(state, Pow2(bit));
      AndNot(state, Pow2(bit))
  }

  /** `1 << j` is below `1 << k` when `j < k`. */
  lemma {:induction false} Pow2Below(j: nat, k: nat)
    requires j < k
    ensures Pow2(j) < Pow2(k)
    decreases k
  {
    if j < k - 1 {
      Pow2Below(j, k - 1);
    }
  }

  // ---------------------------------------------------------------------
  // Frames

  /** The command in the high nibble of the first byte, the channel in its
      low nibble, and 1 (enable) as the data byte. */
  function ReportAnalogFrame(ch: nat): (f: seq<Byte>)
    requires ch < 16
    ensures |f| == 2 && f[1] == 1
    ensures f[0] / 16 == CmdReportAnalog / 16 && f[0] % 16 == ch
  {
    [CmdReportAnalog + ch, 1]   // (byte)(cmdReportAnalog | ch)
  }

  /** The command in the high nibble of the first byte, the port in its low
      nibble, and 1 (enable) as the data byte. */
  function ReportDigitalFrame(port: nat): (f: seq<Byte>)
    requires port < 16
    ensures |f| == 2 && f[1] == 1
    ensures f[0] / 16 == CmdReportDigital / 16 && f[0] % 16 == port
  {
    [CmdReportDigital + port, 1]   // (byte)(cmdReportDigital | port)
  }

  /** `[0xF4, byte(pin), byte(mode)]`; Go's conversion to `byte` keeps the
      residue modulo 256. */
  function PinModeFrame(pin: int, mode: PinMode): (f: seq<Byte>)
    ensures |f| == 3 && f[0] == CmdSetPinMode && f[2] == ModeValue(mode)
    ensures (pin - f[1]) % 256 == 0
    ensures 0 <= pin < 256 ==> f[1] == pin
  {
    [CmdSetPinMode, pin % 256, ModeValue(mode)]
  }

  /** `[0x90 | port, byte(state & 0x7F), byte(state >> 7)]` */
  function DigitalFrame(port: nat, state: int): (f: seq<Byte>)
    requires port < 16
    ensures |f| == 3 && f[0] / 16 == CmdDigitalMessage / 16 && f[0] % 16 == port
    ensures 0 <= state < 256 ==> f[1] < 128 && f[2] <= 1 && f[2] * 128 + f[1] == state
  {
    [CmdDigitalMessage + port, state % 128, (state / 128) % 256]
  }

  /** What a digital-write frame tells the firmware: the port and its whole
      bitmask, reassembled from the two 7-bit data bytes. */
  datatype Decoded = Decoded(port: nat, state: nat) | Malformed

  function DecodeDigitalFrame(f: seq<Byte>): (d: Decoded)
  {
    if |f| == 3 && CmdDigitalMessage <= f[0] < CmdDigitalMessage + 16 && f[1] < 128 && f[2] < 128
    then Decoded(f[0] - CmdDigitalMessage, (f[2] as int) * 128 + f[1])
    else Malformed
  }

  // ---------------------------------------------------------------------
  // Reference semantics

  /** The adapter's observable state: `digitalOutData` and the timeline. */
  datatype State = State(ports: seq<int>, events: seq<Event>)

  /** Thirteen port entries, each an 8-bit mask. */
  predicate ValidState(s: State)
  {
    |s.ports| == NumPorts && forall i | 0 <= i < |s.ports| :: 0 <= s.ports[i] < 256
  }

  /** The state `newFirmata` creates: `make([]int, 13)`. */
  function Zeroed(events: seq<Event>): (z: State)
    ensures ValidState(z) && z.events == events
    ensures forall i | 0 <= i < |z.ports| :: z.ports[i] == 0
  {
    State(seq(NumPorts, _ => 0), events)
  }

  /** The state after an operation, and what the operation returned. */
  datatype After = After(state: State, outcome: Outcome)

  datatype Op =
    | SendFrame(frame: seq<Byte>)         // a raw Write and Flush, as `initialize` does
    | PinModeOp(pin: int, mode: PinMode)
    | DigitalWriteOp(pin: int, value: bool)
    | SleepOp(ms: nat)                    // time.Sleep
    | CloseOp

  /** `DigitalWrite` indexes `digitalOutData` by the pin's port; an index
      past the 13 entries makes Go panic, so such a call is not allowed. */
  predicate Allowed(op: Op)
  {
    op.DigitalWriteOp? ==> PortOf(op.pin) < NumPorts
  }

  predicate AllAllowed(ops: seq<Op>)
  {
    forall op | op in ops :: Allowed(op)
  }

  /** Write a frame and, if that succeeded, flush it. */
  function Send(s: State, faults: set<nat>, frame: seq<Byte>): (a: After)
  {
    var w := FaultAt(faults, |s.events|);
    if w.Fail? then After(State(s.ports, s.events + [Wrote(frame)]), w)
    else After(State(s.ports, s.events + [Wrote(frame), Flushed]), FaultAt(faults, |s.events| + 1))
  }

  function Step(s: State, faults: set<nat>, op: Op): (a: After)
    requires ValidState(s) && Allowed(op)
    ensures ValidState(a.state)
    ensures s.events < a.state.events
  {
    match op
    case SendFrame(frame) => Send(s, faults, frame)
    case PinModeOp(pin, mode) => Send(s, faults, PinModeFrame(pin, mode))
    case DigitalWriteOp(pin, value) =>
      var p := PortOf(pin);
      var ports := s.ports[p := Merge(s.ports[p], BitOf(pin), value)];
      Send(State(ports, s.events), faults, DigitalFrame(p, ports[p]))
    case SleepOp(ms) => After(State(s.ports, s.events + [Slept(ms)]), Ok)
    case CloseOp => After(State(s.ports, s.events + [Closed]), FaultAt(faults, |s.events|))
  }

  /** Perform `ops` in order, stopping at the first that fails. */
  function Run(s: State, faults: set<nat>, ops: seq<Op>): (a: After)
    requires ValidState(s) && AllAllowed(ops)
    ensures ValidState(a.state)
    ensures s.events <= a.state.events
    decreases |ops|
  {
    if ops == [] then After(s, Ok)
    else
      var a := Run(s, faults, ops[..|ops| - 1]);
      if a.outcome.Fail? then a else Step(a.state, faults, ops[|ops| - 1])
  }

  /** The handshake `initialize` performs: the settle delay, then reporting
      enabled for analog channels 0-5 and for digital ports 0-1. */
  function InitializeOps(): (ops: seq<Op>)
    ensures |ops| == 1 + AnalogReports + DigitalReports && AllAllowed(ops)
    ensures ops[0] == SleepOp(SettleDelayMs)
    ensures forall i | 0 <= i < AnalogReports :: ops[1 + i] == SendFrame(ReportAnalogFrame(i))
    ensures forall i | 0 <= i < DigitalReports :: ops[1 + AnalogReports + i] == SendFrame(ReportDigitalFrame(i))
  {
    [SleepOp(SettleDelayMs)]
    + seq(AnalogReports, i requires 0 <= i < AnalogReports => SendFrame(ReportAnalogFrame(i)))
    + seq(DigitalReports, i requires 0 <= i < DigitalReports => SendFrame(ReportDigitalFrame(i)))
  }

  // ---------------------------------------------------------------------
  // The adapter

  class Firmata {
    const world: World
    const digitalOutData: array<int>

    ghost predicate Valid()
      reads this, digitalOutData
    {
      digitalOutData.Length == NumPorts
      && forall i | 0 <= i < NumPorts :: 0 <= digitalOutData[i] < 256
    }

    ghost function Abs(): (s: State)
      requires Valid()
      reads this, digitalOutData, world
      ensures ValidState(s)
    {
      State(digitalOutData[..], world.events)
    }

    /** `&firmataImpl{serialPort, make([]int, 13)}` */
    constructor (world: World)
      ensures Valid() && this.world == world && fresh(digitalOutData)
      ensures Abs() == Zeroed(world.events)
    {
      this.world := world;
      digitalOutData := new int[NumPorts](_ => 0);
    }

    /** The `Write` then `Flush` of one frame that every operation of
        `firmataImpl` performs, returning the first error. */
    method Transmit(cmd: seq<Byte>) returns (r: Outcome)
      requires Valid()
      modifies world
      ensures Valid()
      ensures After(Abs(), r) == Send(old(Abs()), world.faults, cmd)
    {
      r := world.Write(cmd);
      if r.Fail? {
        return;
      }
      r := world.Flush();
    }

    method Initialize() returns (r: Outcome)
      requires Valid()
      modifies world
      ensures Valid()
      ensures After(Abs(), r) == Run(old(Abs()), world.faults, InitializeOps())
    {
      ghost var s0 := Abs();
      ghost var ops := InitializeOps();
      world.Sleep(SettleDelayMs);
      RunExtend(s0, world.faults, ops, 0);
      var cmd := new Byte[2];
      for i := 0 to AnalogReports
        invariant Valid()
        invariant After(Abs(), Ok) == Run(s0, world.faults, ops[..1 + i])
      {
        cmd[0] := CmdReportAnalog + i;
        cmd[1] := 1;
        assert cmd[..] == ReportAnalogFrame(i);
        RunExtend(s0, world.faults, ops, 1 + i);
        r := Transmit(cmd[..]);
        if r.Fail? {
          RunPrefixFail(s0, world.faults, ops, 2 + i);
          return;
        }
      }
      for i := 0 to DigitalReports
        invariant Valid()
        invariant After(Abs(), Ok) == Run(s0, world.faults, ops[..1 + AnalogReports + i])
      {
        cmd[0] := CmdReportDigital + i;
        cmd[1] := 1;
        assert cmd[..] == ReportDigitalFrame(i);
        RunExtend(s0, world.faults, ops, 1 + AnalogReports + i);
        r := Transmit(cmd[..]);
        if r.Fail? {
          RunPrefixFail(s0, world.faults, ops, 2 + AnalogReports + i);
          return;
        }
      }
      assert ops[..|ops|] == ops;
      r := Ok;
    }

    method PinMode(pin: int, mode: PinMode) returns (r: Outcome)
      requires Valid()
      modifies world
      ensures Valid()
      ensures After(Abs(), r) == Step(old(Abs()), world.faults, PinModeOp(pin, mode))
    {
      var cmd := new Byte[3];
      cmd[0] := CmdSetPinMode;
      cmd[1] := pin % 256;
      cmd[2] := ModeValue(mode);
      assert cmd[..] == PinModeFrame(pin, mode);
      r := Transmit(cmd[..]);
    }

    method DigitalWrite(pin: int, value: bool) returns (r: Outcome)
      requires Valid() && PortOf(pin) < NumPorts
      modifies digitalOutData, world
      ensures Valid()
      ensures After(Abs(), r) == Step(old(Abs()), world.faults, DigitalWriteOp(pin, value))
    {
      var portNumber := PortOf(pin);
      ghost var merged := Merge(digitalOutData[portNumber], BitOf(pin), value);
      if !value {
        digitalOutData[portNumber] := AndNot(digitalOutData[portNumber], Pow2(BitOf(pin)));
      } else {
        digitalOutData[portNumber] := Or(digitalOutData[portNumber], Pow2(BitOf(pin)));
      }
      assert digitalOutData[..] == old(digitalOutData[..])[portNumber := merged];

      var cmd := new Byte[3];
      cmd[0] := CmdDigitalMessage + portNumber;
      cmd[1] := digitalOutData[portNumber] % 128;
      cmd[2] := (digitalOutData[portNumber] / 128) % 256;
      assert cmd[..] == DigitalFrame(portNumber, digitalOutData[portNumber]);
      r := Transmit(cmd[..]);
    }

    method Close() returns (r: Outcome)
      requires Valid()
      modifies world
      ensures Valid()
      ensures After(Abs(), r) == Step(old(Abs()), world.faults, CloseOp)
    {
      r := world.Close();
    }
  }

  /** `newFirmata` for an already opened port: zeroed port state, then the
      handshake; the adapter is returned only if the handshake succeeded. */
  method NewFirmata(world: World) returns (fm: Firmata?, r: Outcome)
    modifies world
    ensures fm != null <==> r.Ok?
    ensures var a := Run(Zeroed(old(world.events)), world.faults, InitializeOps());
      world.events == a.state.events && r == a.outcome
      && (fm != null ==> fm.Valid() && fm.world == world && fresh(fm.digitalOutData) && fm.Abs() == a.state)
  {
    fm := new Firmata(world);
    r := fm.Initialize();
    if r.Fail? {
      fm := null;
    }
  }

  // ---------------------------------------------------------------------
  // Properties of the reference semantics

  /** Of the pins 0-127, exactly those below 104 have their port inside the
      13 entries; there, the port is `pin / 8` and the bit `pin % 8`. */
  lemma PortIndexSafe(pin: int)
    requires 0 <= pin < 128
    ensures PortOf(pin) < NumPorts <==> pin < 104
    ensures PortOf(pin) == pin / 8 && BitOf(pin) == pin % 8
  {
  }

  /** `& 0x0F` wraps: a pin and the pin 128 above it address the same entry
      and bit. */
  lemma PortWraps(pin: int)
    ensures PortOf(pin + 128) == PortOf(pin) && BitOf(pin + 128) == BitOf(pin)
  {
  }

  /** The merge sets the pin's bit to the requested value. */
  lemma MergeSetsBit(state: nat, bit: nat, value: bool)
    requires state < 256 && bit < 8
    ensures Bit(Merge(state, bit, value), bit) == value
  {
    Pow2Bit(bit, bit);
    if value {
      OrBit(state, Pow2(bit), bit);
    } else {
      AndNotBit(state, Pow2(bit), bit);
    }
  }

  /** No-disturb: the merge leaves every other bit of the entry alone. */
  lemma MergeKeepsOtherBits(state: nat, bit: nat, value: bool, j: nat)
    requires state < 256 && bit < 8 && j != bit
    ensures Bit(Merge(state, bit, value), j) == Bit(state, j)
  {
    Pow2Bit(bit, j);
    if value {
      OrBit(state, Pow2(bit), j);
    } else {
      AndNotBit(state, Pow2(bit), j);
    }
  }

  /** The merged entry is the old entry with one bit replaced. */
  lemma MergeBits(state: nat, bit: nat, value: bool)
    requires state < 256 && bit < 8
    ensures forall j: nat | j < 8 :: Bit(Merge(state, bit, value), j) == if j == bit then value else Bit(state, j)
  {
    forall j: nat | j < 8
      ensures Bit(Merge(state, bit, value), j) == if j == bit then value else Bit(state, j)
    {
      if j == bit {
        MergeSetsBit(state, bit, value);
      } else {
        MergeKeepsOtherBits(state, bit, value, j);
      }
    }
  }

  /** Merging the same value twice is merging it once. */
  lemma MergeIdempotent(state: nat, bit: nat, value: bool)
    requires state < 256 && bit < 8
    ensures Merge(Merge(state, bit, value), bit, value) == Merge(state, bit, value)
  {
    var once := Merge(state, bit, value);
    MergeBits(state, bit, value);
    MergeBits(once, bit, value);
    BitsEqual(Merge(once, bit, value), once, 8);
  }

  /** Setting a clear bit and clearing it again gives back the entry. */
  lemma MergeSetThenClear(state: nat, bit: nat)
    requires state < 256 && bit < 8 && !Bit(state, bit)
    ensures Merge(Merge(state, bit, true), bit, false) == state
  {
    var raised := Merge(state, bit, true);
    MergeBits(state, bit, true);
    MergeBits(raised, bit, false);
    BitsEqual(Merge(raised, bit, false), state, 8);
  }

  /** The 7-bit split of an 8-bit mask: the high data byte is 0 or 1, and
      `msb * 128 + lsb` gives the mask back. */
  lemma DigitalFrameRoundTrip(port: nat, state: nat)
    requires port < 16 && state < 256
    ensures var f := DigitalFrame(port, state);
      f[0] == CmdDigitalMessage + port && f[1] < 128 && f[2] <= 1
      && f[2] * 128 + f[1] == state
      && DecodeDigitalFrame(f) == Decoded(port, state)
  {
  }

  /** Every well-formed digital frame for an 8-bit mask is the encoding of
      what it decodes to. */
  lemma DecodeDigitalFrameThenEncode(f: seq<Byte>)
    requires DecodeDigitalFrame(f).Decoded? && DecodeDigitalFrame(f).state < 256
    ensures var d := DecodeDigitalFrame(f);
      d.port < 16 && DigitalFrame(d.port, d.state) == f
  {
  }

  /** What a digital write does, whether or not the write to the port then
      fails: the pin's bit holds the new value, no other bit and no other
      entry changes, and the frame attempted is the whole entry's encoding. */
  lemma DigitalWriteEffect(s: State, faults: set<nat>, pin: int, value: bool)
    requires ValidState(s) && PortOf(pin) < NumPorts
    ensures var a := Step(s, faults, DigitalWriteOp(pin, value));
      var p := PortOf(pin);
      |a.state.ports| == NumPorts
      && Bit(a.state.ports[p], BitOf(pin)) == value
      && (forall j: nat | j < 8 && j != BitOf(pin) :: Bit(a.state.ports[p], j) == Bit(s.ports[p], j))
      && (forall q | 0 <= q < NumPorts && q != p :: a.state.ports[q] == s.ports[q])
      && a.state.events[|s.events|] == Wrote(DigitalFrame(p, a.state.ports[p]))
      && DecodeDigitalFrame(DigitalFrame(p, a.state.ports[p])) == Decoded(p, a.state.ports[p])
  {
    var p := PortOf(pin);
    MergeBits(s.ports[p], BitOf(pin), value);
    DigitalFrameRoundTrip(p, Merge(s.ports[p], BitOf(pin), value));
  }

  /** A second identical digital write leaves the port state as the first left it. */
  lemma DigitalWriteIdempotent(s: State, faults: set<nat>, pin: int, value: bool)
    requires ValidState(s) && PortOf(pin) < NumPorts
    ensures var once := Step(s, faults, DigitalWriteOp(pin, value)).state;
      Step(once, faults, DigitalWriteOp(pin, value)).state.ports == once.ports
  {
    var p := PortOf(pin);
    MergeIdempotent(s.ports[p], BitOf(pin), value);
  }

  /** Writing true and then false to a pin whose bit was clear gives back
      the port state it started from. */
  lemma DigitalWriteSetThenClear(s: State, faults: set<nat>, pin: int)
    requires ValidState(s) && PortOf(pin) < NumPorts && !Bit(s.ports[PortOf(pin)], BitOf(pin))
    ensures var raised := Step(s, faults, DigitalWriteOp(pin, true)).state;
      Step(raised, faults, DigitalWriteOp(pin, false)).state.ports == s.ports
  {
    var p := PortOf(pin);
    MergeSetThenClear(s.ports[p], BitOf(pin));
    var raised := Step(s, faults, DigitalWriteOp(pin, true)).state;
    assert raised.ports[p := s.ports[p]] == s.ports;
  }

  /** Pin 5 (bit 5 of port 0) raised on the freshly zeroed adapter, with
      nothing failing: the frame `[0x90, 0x20, 0x00]`, then a flush. */
  lemma DigitalWriteFromZero(e: seq<Event>)
    ensures Step(Zeroed(e), {}, DigitalWriteOp(5, true))
      == After(State(Zeroed(e).ports[0 := 0x20], e + [Wrote([0x90, 0x20, 0x00]), Flushed]), Ok)
  {
    assert Merge(0, 5, true) == 0x20;
  }

  /** Sending a frame leaves the masks alone, attempts the write and, only
      if it succeeded, the flush; it fails exactly when one of them does, and
      then reports the last attempt on the timeline. */
  lemma SendEffect(s: State, faults: set<nat>, frame: seq<Byte>)
    ensures var a := Send(s, faults, frame);
      a.state.ports == s.ports
      && a.state.events == s.events + [Wrote(frame)] + (if |s.events| in faults then [] else [Flushed])
      && (a.outcome.Fail? <==> |s.events| in faults || |s.events| + 1 in faults)
      && (a.outcome.Fail? ==> a.outcome.error == IoError(|a.state.events| - 1))
  {
  }

  /** A pin-mode request writes `[0xF4, pin, mode]`, flushes if the write
      succeeded, and does not touch the port state. */
  lemma PinModeEffect(s: State, faults: set<nat>, pin: int, mode: PinMode)
    requires ValidState(s)
    ensures var a := Step(s, faults, PinModeOp(pin, mode));
      a.state.ports == s.ports
      && a.state.events == s.events + [Wrote([0xF4, pin % 256, ModeValue(mode)])]
         + (if |s.events| in faults then [] else [Flushed])
      && (a.outcome.Fail? <==> |s.events| in faults || |s.events| + 1 in faults)
  {
  }

  /** Whether two pins address the same bit of the same port entry. */
  predicate SameBit(p: int, q: int)
  {
    PortOf(p) == PortOf(q) && BitOf(p) == BitOf(q)
  }

  /** The level a pin's bit has in the port state. */
  predicate PinLevel(s: State, pin: int)
    requires ValidState(s) && PortOf(pin) < NumPorts
  {
    Bit(s.ports[PortOf(pin)], BitOf(pin))
  }

  /** The level `ops` leave on a pin that was at `level`: the value of the
      last digital write addressing the pin's bit, if there is one. */
  function LevelAfter(ops: seq<Op>, pin: int, level: bool): (level': bool)
    decreases |ops|
  {
    if ops == [] then level
    else
      var op := ops[|ops| - 1];
      if op.DigitalWriteOp? && SameBit(op.pin, pin) then op.value
      else LevelAfter(ops[..|ops| - 1], pin, level)
  }

  /** One operation's effect on a pin's level, whatever its outcome. */
  lemma StepLevel(s: State, faults: set<nat>, op: Op, pin: int)
    requires ValidState(s) && Allowed(op) && PortOf(pin) < NumPorts
    ensures PinLevel(Step(s, faults, op).state, pin)
      == if op.DigitalWriteOp? && SameBit(op.pin, pin) then op.value else PinLevel(s, pin)
  {
    if op.DigitalWriteOp? {
      var p := PortOf(op.pin);
      if SameBit(op.pin, pin) {
        MergeSetsBit(s.ports[p], BitOf(op.pin), op.value);
      } else if p == PortOf(pin) {
        MergeKeepsOtherBits(s.ports[p], BitOf(op.pin), op.value, BitOf(pin));
      }
    }
  }

  /** Last write wins: after a successful run every pin is at the level of
      the last digital write addressing it, or where it was. */
  lemma {:induction false} RunLevels(s: State, faults: set<nat>, ops: seq<Op>, pin: int)
    requires ValidState(s) && AllAllowed(ops) && PortOf(pin) < NumPorts
    requires Run(s, faults, ops).outcome.Ok?
    ensures PinLevel(Run(s, faults, ops).state, pin) == LevelAfter(ops, pin, PinLevel(s, pin))
    decreases |ops|
  {
    if ops != [] {
      var init := ops[..|ops| - 1];
      assert AllAllowed(init) by {
        forall op | op in init ensures Allowed(op) { assert op in ops; }
      }
      RunLevels(s, faults, init, pin);
      StepLevel(Run(s, faults, init).state, faults, ops[|ops| - 1], pin);
    }
  }

  /** No-disturb, whatever the outcome of the run: a pin that no digital
      write of `ops` addresses keeps its level. */
  lemma {:induction false} RunKeepsLevel(s: State, faults: set<nat>, ops: seq<Op>, pin: int)
    requires ValidState(s) && AllAllowed(ops) && PortOf(pin) < NumPorts
    requires forall op | op in ops :: op.DigitalWriteOp? ==> !SameBit(op.pin, pin)
    ensures PinLevel(Run(s, faults, ops).state, pin) == PinLevel(s, pin)
    decreases |ops|
  {
    if ops != [] {
      var init := ops[..|ops| - 1];
      assert forall op | op in init :: op in ops;
      RunKeepsLevel(s, faults, init, pin);
      var mid := Run(s, faults, init);
      if mid.outcome.Ok? {
        StepLevel(mid.state, faults, ops[|ops| - 1], pin);
      }
    }
  }

  /** Performing `a` and then `b` is performing `a + b`. */
  lemma {:induction false} RunAppend(s: State, faults: set<nat>, a: seq<Op>, b: seq<Op>)
    requires ValidState(s) && AllAllowed(a) && AllAllowed(b)
    ensures AllAllowed(a + b)
    ensures var first := Run(s, faults, a);
      Run(s, faults, a + b) == if first.outcome.Fail? then first else Run(first.state, faults, b)
    decreases |b|
  {
    if b == [] {
      assert a + b == a;
    } else {
      var b' := b[..|b| - 1];
      assert (a + b)[..|a + b| - 1] == a + b';
      assert (a + b)[|a + b| - 1] == b[|b| - 1];
      RunAppend(s, faults, a, b');
    }
  }

  /** Running one more operation of `ops`. */
  lemma RunExtend(s: State, faults: set<nat>, ops: seq<Op>, k: nat)
    requires ValidState(s) && AllAllowed(ops) && k < |ops|
    ensures var a := Run(s, faults, ops[..k]);
      Run(s, faults, ops[..k + 1]) == if a.outcome.Fail? then a else Step(a.state, faults, ops[k])
  {
    assert ops[..k + 1][..k] == ops[..k];
  }

  /** Once a prefix of `ops` has failed, nothing after it is performed. */
  lemma RunPrefixFail(s: State, faults: set<nat>, ops: seq<Op>, k: nat)
    requires ValidState(s) && AllAllowed(ops) && k <= |ops|
    requires Run(s, faults, ops[..k]).outcome.Fail?
    ensures Run(s, faults, ops) == Run(s, faults, ops[..k])
  {
    assert ops == ops[..k] + ops[k..];
    RunAppend(s, faults, ops[..k], ops[k..]);
  }

  /** A failed run stopped at one operation: every operation before it
      succeeded, it failed, and the ones after it were never performed. */
  lemma {:induction false} RunFirstFailure(s: State, faults: set<nat>, ops: seq<Op>)
    requires ValidState(s) && AllAllowed(ops)
    requires Run(s, faults, ops).outcome.Fail?
    ensures exists k | 0 <= k < |ops| ::
      Run(s, faults, ops[..k]).outcome == Ok
      && Run(s, faults, ops) == Step(Run(s, faults, ops[..k]).state, faults, ops[k])
    decreases |ops|
  {
    var n := |ops|;
    var init := ops[..n - 1];
    if Run(s, faults, init).outcome.Fail? {
      RunFirstFailure(s, faults, init);
      var k :| 0 <= k < |init| && Run(s, faults, init[..k]).outcome == Ok
        && Run(s, faults, init) == Step(Run(s, faults, init[..k]).state, faults, init[k]);
      assert init[..k] == ops[..k] && init[k] == ops[k];
    } else {
      assert ops[..n - 1] == init;
    }
  }

  /** No event in `events[lo..hi]` that can fail sits at a fault position. */
  ghost predicate NoFaultIn(events: seq<Event>, faults: set<nat>, lo: nat, hi: nat)
    requires hi <= |events|
  {
    forall j | lo <= j < hi :: CanFail(events[j]) ==> j !in faults
  }

  lemma StepFaults(s: State, faults: set<nat>, op: Op)
    requires ValidState(s) && Allowed(op)
    ensures var a := Step(s, faults, op); var n := |a.state.events|;
      (a.outcome.Ok? ==> NoFaultIn(a.state.events, faults, |s.events|, n))
      && (a.outcome.Fail? ==> a.outcome.error == IoError(n - 1) && n - 1 in faults
                              && CanFail(a.state.events[n - 1])
                              && NoFaultIn(a.state.events, faults, |s.events|, n - 1))
  {
  }

  /** A run succeeds exactly when none of the I/O it attempted hit a fault;
      when it fails, the error is that of the last event on the timeline,
      the first faulty attempt of the run. */
  lemma {:induction false} RunFaults(s: State, faults: set<nat>, ops: seq<Op>)
    requires ValidState(s) && AllAllowed(ops)
    ensures var a := Run(s, faults, ops); var n := |a.state.events|;
      (a.outcome.Ok? ==> NoFaultIn(a.state.events, faults, |s.events|, n))
      && (a.outcome.Fail? ==> |s.events| < n && a.outcome.error == IoError(n - 1) && n - 1 in faults
                              && CanFail(a.state.events[n - 1])
                              && NoFaultIn(a.state.events, faults, |s.events|, n - 1))
    decreases |ops|
  {
    if ops != [] {
      var init := ops[..|ops| - 1];
      RunFaults(s, faults, init);
      var mid := Run(s, faults, init);
      if mid.outcome.Ok? {
        var last := ops[|ops| - 1];
        StepFaults(mid.state, faults, last);
        var a := Step(mid.state, faults, last);
        assert a.state.events[..|mid.state.events|] == mid.state.events;
      }
    }
  }

  /** A run in which no attempt can hit a fault, because every fault
      position is already in the past, succeeds. */
  lemma RunFaultFree(s: State, faults: set<nat>, ops: seq<Op>)
    requires ValidState(s) && AllAllowed(ops)
    requires forall j | j in faults :: j < |s.events|
    ensures Run(s, faults, ops).outcome == Ok
  {
    RunFaults(s, faults, ops);
  }

  /** The frames of the handshake, in order. */
  lemma InitializeOpsExact()
    ensures InitializeOps() == [
      SleepOp(2000),
      SendFrame([0xC0, 1]), SendFrame([0xC1, 1]), SendFrame([0xC2, 1]),
      SendFrame([0xC3, 1]), SendFrame([0xC4, 1]), SendFrame([0xC5, 1]),
      SendFrame([0xD0, 1]), SendFrame([0xD1, 1])]
  {
  }
}
