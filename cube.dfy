/** The cube controller (`cube`): two pins drive the red LEDs and two the
    green ones; `off`, `red` and `green` write all four pins, and `Blink`
    runs five timed cycles of colour phases.

    Each operation is specified by the sequence of adapter operations it
    performs (`WriteOps`, `InitOps`, `BlinkOps`), run with `Firmata.Run`, so
    that it stops at the first error the way the Go code returns it.  The
    class `Cube` is proved to perform exactly those sequences. */
module Cube {
  import opened Io
  import opened Bits
  import opened Firmata

  const RedPins: seq<int> := [5, 9]
  const GreenPins: seq<int> := [6, 10]

  /** Option flags of `Blink`. */
  type BlinkMode = int
  const BlinkFast: BlinkMode := 0x01
  const BlinkSlow: BlinkMode := 0x02
  const BlinkRed: BlinkMode := 0x10
  const BlinkGreen: BlinkMode := 0x20

  const FastDurationMs: nat := 120
  const SlowDurationMs: nat := 250
  const BlinkCycles: nat := 5

  /** `(mode & flag) == flag` for a one-bit `flag`: bit `k` of a two's
      complement `int` is set exactly when `mode / 2^k`, rounded down, is odd. */
  predicate HasFlag(mode: BlinkMode, flag: BlinkMode)
    requires flag > 0
  {
    (mode / flag) % 2 == 1
  }

  /** What `Blink` reads from its mode: the phase duration and the colours. */
  datatype Plan = Plan(durationMs: nat, red: bool, green: bool)

  function DecodeMode(mode: BlinkMode): (plan: Plan)
  {
    var durationMs :=
      if HasFlag(mode, BlinkFast) then FastDurationMs
      else if HasFlag(mode, BlinkSlow) then SlowDurationMs
      else FastDurationMs;
    Plan(durationMs, HasFlag(mode, BlinkRed), HasFlag(mode, BlinkGreen))
  }

  datatype Phase = RedPhase | GreenPhase | OffPhase

  // ---------------------------------------------------------------------
  // The adapter operations each controller operation performs

  /** `write(green, red)`: every red pin, then every green pin. */
  function WriteOps(green: bool, red: bool): (ops: seq<Op>)
    ensures AllAllowed(ops)
  {
    seq(|RedPins|, i requires 0 <= i < |RedPins| => DigitalWriteOp(RedPins[i], red))
    + seq(|GreenPins|, i requires 0 <= i < |GreenPins| => DigitalWriteOp(GreenPins[i], green))
  }

  function OffOps(): (ops: seq<Op>) { WriteOps(false, false) }
  function RedOps(): (ops: seq<Op>) { WriteOps(false, true) }
  function GreenOps(): (ops: seq<Op>) { WriteOps(true, false) }

  /** `initiaize`: the OUTPUT mode for every red pin, then every green pin. */
  function InitOps(): (ops: seq<Op>)
    ensures forall op | op in ops :: op.PinModeOp? && op.mode == Output
  {
    seq(|RedPins|, i requires 0 <= i < |RedPins| => PinModeOp(RedPins[i], Output))
    + seq(|GreenPins|, i requires 0 <= i < |GreenPins| => PinModeOp(GreenPins[i], Output))
  }

  function PhaseOps(p: Phase): (ops: seq<Op>)
  {
    match p
    case RedPhase => RedOps()
    case GreenPhase => GreenOps()
    case OffPhase => OffOps()
  }

  /** One iteration of `Blink`'s loop: each enabled phase followed by a sleep. */
  function CycleOps(plan: Plan): (ops: seq<Op>)
    ensures AllAllowed(ops)
  {
    (if plan.red then RedOps() + [SleepOp(plan.durationMs)] else [])
    + (if plan.green then GreenOps() + [SleepOp(plan.durationMs)] else [])
    + (if !plan.red || !plan.green then OffOps() + [SleepOp(plan.durationMs)] else [])
  }

  /** `n` copies of `c`, one after the other. */
  function Repeat<T>(c: seq<T>, n: nat): (r: seq<T>)
    ensures forall x | x in r :: x in c
  {
    if n == 0 then [] else Repeat(c, n - 1) + c
  }

  /** After the initial `off`: the five cycles, then the final `off`. */
  function BlinkOps(plan: Plan): (ops: seq<Op>)
    ensures AllAllowed(ops)
  {
    Repeat(CycleOps(plan), BlinkCycles) + OffOps()
  }

  /** `ops` and then a sleep, unless an earlier phase already failed. */
  function Held(a: After, faults: set<nat>, ops: seq<Op>, ms: nat): (b: After)
    requires ValidState(a.state) && AllAllowed(ops)
    ensures ValidState(b.state)
  {
    if a.outcome.Fail? then a
    else
      var b := Run(a.state, faults, ops);
      if b.outcome.Fail? then b else Step(b.state, faults, SleepOp(ms))
  }

  /** A phase of `Blink`'s loop body, if it is enabled. */
  function RunPhase(a: After, faults: set<nat>, enabled: bool, ops: seq<Op>, ms: nat): (b: After)
    requires ValidState(a.state) && AllAllowed(ops)
    ensures ValidState(b.state)
  {
    if enabled then Held(a, faults, ops, ms) else a
  }

  /** One cycle of `Blink`'s loop, phase by phase as the loop body runs it. */
  function CycleSpec(s: State, faults: set<nat>, plan: Plan): (a: After)
    requires ValidState(s)
    ensures ValidState(a.state)
  {
    var d := plan.durationMs;
    var a1 := RunPhase(After(s, Ok), faults, plan.red, RedOps(), d);
    var a2 := RunPhase(a1, faults, plan.green, GreenOps(), d);
    RunPhase(a2, faults, !plan.red || !plan.green, OffOps(), d)
  }

  /** The first `n` cycles of `Blink`'s loop, returning at the first error. */
  function LoopSpec(s: State, faults: set<nat>, plan: Plan, n: nat): (a: After)
    requires ValidState(s)
    ensures ValidState(a.state)
  {
    if n == 0 then After(s, Ok)
    else
      var a := LoopSpec(s, faults, plan, n - 1);
      if a.outcome.Fail? then a else CycleSpec(a.state, faults, plan)
  }

  /** `Blink(mode)`: an `off` whose error is ignored, the five cycles,
      returning at the first error, and the final `off` if they succeeded. */
  function BlinkSpec(s: State, faults: set<nat>, mode: BlinkMode): (a: After)
    requires ValidState(s)
    ensures ValidState(a.state)
  {
    var afterOff := Run(s, faults, OffOps()).state;
    var loop := LoopSpec(afterOff, faults, DecodeMode(mode), BlinkCycles);
    if loop.outcome.Fail? then loop else Run(loop.state, faults, OffOps())
  }

  /** What `NewCube` performs on a freshly opened port: the adapter's
      handshake, the cube's pin modes, and `Off`. */
  function NewCubeOps(): (ops: seq<Op>)
    ensures AllAllowed(ops)
  {
    InitializeOps() + InitOps() + OffOps()
  }

  // ---------------------------------------------------------------------
  // The controller

  class Cube {
    const fm: Firmata

    ghost predicate Valid()
      reads this, fm, fm.digitalOutData
    {
      fm.Valid()
    }

    ghost function Abs(): (s: State)
      requires Valid()
      reads this, fm, fm.digitalOutData, fm.world
      ensures ValidState(s)
    {
      fm.Abs()
    }

    constructor (fm: Firmata)
      requires fm.Valid()
      ensures Valid() && this.fm == fm
    {
      this.fm := fm;
    }

    method Write(green: bool, red: bool) returns (r: Outcome)
      requires Valid()
      modifies fm.digitalOutData, fm.world
      ensures Valid()
      ensures After(Abs(), r) == Run(old(Abs()), fm.world.faults, WriteOps(green, red))
    {
      ghost var s0 := Abs();
      ghost var ops := WriteOps(green, red);
      for i := 0 to |RedPins|
        invariant Valid()
        invariant After(Abs(), Ok) == Run(s0, fm.world.faults, ops[..i])
      {
        RunExtend(s0, fm.world.faults, ops, i);
        CubePinPorts();
        r := fm.DigitalWrite(RedPins[i], red);
        if r.Fail? {
          RunPrefixFail(s0, fm.world.faults, ops, i + 1);
          return;
        }
      }
      for i := 0 to |GreenPins|
        invariant Valid()
        invariant After(Abs(), Ok) == Run(s0, fm.world.faults, ops[..|RedPins| + i])
      {
        RunExtend(s0, fm.world.faults, ops, |RedPins| + i);
        CubePinPorts();
        r := fm.DigitalWrite(GreenPins[i], green);
        if r.Fail? {
          RunPrefixFail(s0, fm.world.faults, ops, |RedPins| + i + 1);
          return;
        }
      }
      assert ops[..|ops|] == ops;
      r := Ok;
    }

    /** `Off` and `off` (they differ only in a log line). */
    method Off() returns (r: Outcome)
      requires Valid()
      modifies fm.digitalOutData, fm.world
      ensures Valid()
      ensures After(Abs(), r) == Run(old(Abs()), fm.world.faults, OffOps())
    {
      r := Write(false, false);
    }

    /** `Red` and `red` */
    method Red() returns (r: Outcome)
      requires Valid()
      modifies fm.digitalOutData, fm.world
      ensures Valid()
      ensures After(Abs(), r) == Run(old(Abs()), fm.world.faults, RedOps())
    {
      r := Write(false, true);
    }

    /** `Green` and `green` */
    method Green() returns (r: Outcome)
      requires Valid()
      modifies fm.digitalOutData, fm.world
      ensures Valid()
      ensures After(Abs(), r) == Run(old(Abs()), fm.world.faults, GreenOps())
    {
      r := Write(true, false);
    }

    /** `initiaize` */
    method Initialize() returns (r: Outcome)
      requires Valid()
      modifies fm.digitalOutData, fm.world
      ensures Valid()
      ensures After(Abs(), r) == Run(old(Abs()), fm.world.faults, InitOps())
    {
      ghost var s0 := Abs();
      ghost var ops := InitOps();
      for i := 0 to |RedPins|
        invariant Valid()
        invariant After(Abs(), Ok) == Run(s0, fm.world.faults, ops[..i])
      {
        RunExtend(s0, fm.world.faults, ops, i);
        r := fm.PinMode(RedPins[i], Output);
        if r.Fail? {
          RunPrefixFail(s0, fm.world.faults, ops, i + 1);
          return;
        }
      }
      for i := 0 to |GreenPins|
        invariant Valid()
        invariant After(Abs(), Ok) == Run(s0, fm.world.faults, ops[..|RedPins| + i])
      {
        RunExtend(s0, fm.world.faults, ops, |RedPins| + i);
        r := fm.PinMode(GreenPins[i], Output);
        if r.Fail? {
          RunPrefixFail(s0, fm.world.faults, ops, |RedPins| + i + 1);
          return;
        }
      }
      assert ops[..|ops|] == ops;
      r := Ok;
    }

    /** One phase of `Blink`'s loop: `write(green, red)`, and the phase's
        sleep if that succeeded. */
    method Hold(green: bool, red: bool, duration: nat) returns (r: Outcome)
      requires Valid()
      modifies fm.digitalOutData, fm.world
      ensures Valid()
      ensures After(Abs(), r) == Held(After(old(Abs()), Ok), fm.world.faults, WriteOps(green, red), duration)
    {
      r := Write(green, red);
      if r.Fail? {
        return;
      }
      fm.world.Sleep(duration);
    }

    method Blink(mode: BlinkMode) returns (r: Outcome)
      requires Valid()
      modifies fm.digitalOutData, fm.world
      ensures Valid()
      ensures After(Abs(), r) == BlinkSpec(old(Abs()), fm.world.faults, mode)
    {
      var plan := DecodeMode(mode);
      var duration, enableRed, enableGreen := plan.durationMs, plan.red, plan.green;

      var _ := Off();
      ghost var faults := fm.world.faults;
      ghost var s1 := Abs();

      for i := 0 to BlinkCycles
        invariant Valid()
        invariant After(Abs(), Ok) == LoopSpec(s1, faults, plan, i)
      {
        if enableRed {
          r := Hold(false, true, duration);
          if r.Fail? {
            LoopFailStays(s1, faults, plan, i + 1, BlinkCycles);
            return;
          }
        }
        if enableGreen {
          r := Hold(true, false, duration);
          if r.Fail? {
            LoopFailStays(s1, faults, plan, i + 1, BlinkCycles);
            return;
          }
        }
        if !enableRed || !enableGreen {
          r := Hold(false, false, duration);
          if r.Fail? {
            LoopFailStays(s1, faults, plan, i + 1, BlinkCycles);
            return;
          }
        }
      }

      r := Off();
    }

    /** `Close`: `off`, its error discarded, then closing the adapter. */
    method Close()
      requires Valid()
      modifies fm.digitalOutData, fm.world
      ensures Valid()
      ensures Abs() == Step(Run(old(Abs()), fm.world.faults, OffOps()).state, fm.world.faults, CloseOp).state
    {
      var _ := Off();
      var _ := fm.Close();
    }
  }

  /** `NewCube` on an already opened port: the cube is returned only if the
      handshake, the pin modes and the first `Off` all succeeded. */
  method NewCube(world: World) returns (c: Cube?, r: Outcome)
    modifies world
    ensures c != null <==> r.Ok?
    ensures var a := Run(Zeroed(old(world.events)), world.faults, NewCubeOps());
      world.events == a.state.events && r == a.outcome
      && (c != null ==> c.Valid() && c.fm.world == world && fresh(c.fm.digitalOutData) && c.Abs() == a.state)
  {
    ghost var s0 := Zeroed(world.events);
    assert NewCubeOps() == InitializeOps() + (InitOps() + OffOps());
    RunAppend(s0, world.faults, InitializeOps(), InitOps() + OffOps());
    var fm;
    fm, r := NewFirmata(world);
    if r.Fail? {
      c := null;
      return;
    }
    ghost var s1 := fm.Abs();
    RunAppend(s1, world.faults, InitOps(), OffOps());
    c := new Cube(fm);
    r := c.Initialize();
    if r.Fail? {
      c := null;
      return;
    }
    r := c.Off();
    if r.Fail? {
      c := null;
    }
  }

  // ---------------------------------------------------------------------
  // Properties

  /** `off` lowers all four LED pins; `red` raises the red pins and lowers
      the green ones; `green` the other way round. */
  lemma ColourOps()
    ensures forall op | op in OffOps() :: op.DigitalWriteOp? && !op.value
    ensures forall op | op in RedOps() :: op.DigitalWriteOp? && (op.value <==> op.pin in RedPins)
    ensures forall op | op in GreenOps() :: op.DigitalWriteOp? && (op.value <==> op.pin in GreenPins)
    ensures |OffOps()| == |RedOps()| == |GreenOps()| == |RedPins| + |GreenPins|
  {
    WriteOpsExact(false, false);
    WriteOpsExact(false, true);
    WriteOpsExact(true, false);
  }

  /** Where the cube's pins sit: red on bit 5 of port 0 and bit 1 of port 1,
      green on bit 6 of port 0 and bit 2 of port 1. */
  lemma CubePinPorts()
    ensures PortOf(5) == 0 && BitOf(5) == 5 && PortOf(9) == 1 && BitOf(9) == 1
    ensures PortOf(6) == 0 && BitOf(6) == 6 && PortOf(10) == 1 && BitOf(10) == 2
    ensures forall i | 0 <= i < |RedPins| :: PortOf(RedPins[i]) < NumPorts
    ensures forall i | 0 <= i < |GreenPins| :: PortOf(GreenPins[i]) < NumPorts
  {
  }

  /** A phase held after the operations `done` is performing `done`, the
      phase and the sleep. */
  lemma HeldAfterRun(s: State, faults: set<nat>, done: seq<Op>, ops: seq<Op>, ms: nat)
    requires ValidState(s) && AllAllowed(done) && AllAllowed(ops)
    ensures AllAllowed(done + ops + [SleepOp(ms)])
    ensures Held(Run(s, faults, done), faults, ops, ms) == Run(s, faults, done + ops + [SleepOp(ms)])
  {
    RunAppend(s, faults, done, ops);
    RunAppend(s, faults, done + ops, [SleepOp(ms)]);
  }

  /** The phase-by-phase cycle performs exactly `CycleOps`. */
  lemma CycleSpecFlat(s: State, faults: set<nat>, plan: Plan)
    requires ValidState(s)
    ensures CycleSpec(s, faults, plan) == Run(s, faults, CycleOps(plan))
  {
    var d := plan.durationMs;
    var redPart := if plan.red then RedOps() + [SleepOp(d)] else [];
    var greenPart := if plan.green then GreenOps() + [SleepOp(d)] else [];
    var offPart := if !plan.red || !plan.green then OffOps() + [SleepOp(d)] else [];
    var a0 := After(s, Ok);
    var a1 := RunPhase(a0, faults, plan.red, RedOps(), d);
    var a2 := RunPhase(a1, faults, plan.green, GreenOps(), d);
    assert a0 == Run(s, faults, []);
    assert a1 == Run(s, faults, redPart) by {
      if plan.red {
        HeldAfterRun(s, faults, [], RedOps(), d);
        assert [] + RedOps() + [SleepOp(d)] == redPart;
      }
    }
    assert a2 == Run(s, faults, redPart + greenPart) by {
      if plan.green {
        HeldAfterRun(s, faults, redPart, GreenOps(), d);
        assert redPart + GreenOps() + [SleepOp(d)] == redPart + greenPart;
      } else {
        assert redPart + greenPart == redPart;
      }
    }
    if !plan.red || !plan.green {
      HeldAfterRun(s, faults, redPart + greenPart, OffOps(), d);
      assert redPart + greenPart + OffOps() + [SleepOp(d)] == CycleOps(plan);
    } else {
      assert redPart + greenPart == CycleOps(plan);
    }
  }

  /** The cycle-by-cycle loop performs `n` copies of `CycleOps`. */
  lemma {:induction false} LoopSpecFlat(s: State, faults: set<nat>, plan: Plan, n: nat)
    requires ValidState(s)
    ensures AllAllowed(Repeat(CycleOps(plan), n))
    ensures LoopSpec(s, faults, plan, n) == Run(s, faults, Repeat(CycleOps(plan), n))
  {
    if n > 0 {
      LoopSpecFlat(s, faults, plan, n - 1);
      var prev := Run(s, faults, Repeat(CycleOps(plan), n - 1));
      RunAppend(s, faults, Repeat(CycleOps(plan), n - 1), CycleOps(plan));
      if prev.outcome.Ok? {
        CycleSpecFlat(prev.state, faults, plan);
      }
    }
  }

  /** Once a cycle has failed, no later cycle runs. */
  lemma {:induction false} LoopFailStays(s: State, faults: set<nat>, plan: Plan, m: nat, n: nat)
    requires ValidState(s) && m <= n
    requires LoopSpec(s, faults, plan, m).outcome.Fail?
    ensures LoopSpec(s, faults, plan, n) == LoopSpec(s, faults, plan, m)
    decreases n
  {
    if m < n {
      LoopFailStays(s, faults, plan, m, n - 1);
    }
  }

  /** `Blink` performs, after the initial `off` whatever its outcome,
      exactly `BlinkOps`: five copies of the cycle and the final `off`. */
  lemma BlinkSpecFlat(s: State, faults: set<nat>, mode: BlinkMode)
    requires ValidState(s)
    ensures BlinkSpec(s, faults, mode) == Run(Run(s, faults, OffOps()).state, faults, BlinkOps(DecodeMode(mode)))
  {
    var plan := DecodeMode(mode);
    var s1 := Run(s, faults, OffOps()).state;
    LoopSpecFlat(s1, faults, plan, BlinkCycles);
    RunAppend(s1, faults, Repeat(CycleOps(plan), BlinkCycles), OffOps());
  }

  /** `write(green, red)` goes through the red pins first and the green
      pins second. */
  lemma WriteOpsExact(green: bool, red: bool)
    ensures WriteOps(green, red) == [DigitalWriteOp(5, red), DigitalWriteOp(9, red),
                                     DigitalWriteOp(6, green), DigitalWriteOp(10, green)]
  {
  }

  /** `initiaize` puts the red pins and then the green pins in OUTPUT mode. */
  lemma InitOpsExact()
    ensures InitOps() == [PinModeOp(5, Output), PinModeOp(9, Output),
                          PinModeOp(6, Output), PinModeOp(10, Output)]
  {
  }

  /** The digital writes of `ops` address only the cube's four pins. */
  predicate CubePinsOnly(ops: seq<Op>)
  {
    forall op | op in ops :: op.DigitalWriteOp? ==> op.pin in RedPins || op.pin in GreenPins
  }

  /** The cube's LEDs: `red` on both red pins, `green` on both green pins. */
  predicate Shows(t: State, green: bool, red: bool)
    requires ValidState(t)
  {
    CubePinPorts();
    (forall i | 0 <= i < |RedPins| :: PinLevel(t, RedPins[i]) == red)
    && (forall i | 0 <= i < |GreenPins| :: PinLevel(t, GreenPins[i]) == green)
  }

  /** Every pin of ports 0-12 other than the cube's four has the same level
      in `t` as in `u`. */
  predicate OthersAsIn(t: State, u: State)
    requires ValidState(t) && ValidState(u)
  {
    forall q | 0 <= q < 104 && q !in RedPins && q !in GreenPins :: PinLevel(t, q) == PinLevel(u, q)
  }

  /** Operations that write only the cube's pins leave every other pin of
      ports 0-12 alone, whatever their outcome. */
  lemma OthersKept(u: State, faults: set<nat>, ops: seq<Op>)
    requires ValidState(u) && AllAllowed(ops) && CubePinsOnly(ops)
    ensures OthersAsIn(Run(u, faults, ops).state, u)
  {
    CubePinPorts();
    forall q | 0 <= q < 104 && q !in RedPins && q !in GreenPins
      ensures PinLevel(Run(u, faults, ops).state, q) == PinLevel(u, q)
    {
      PortIndexSafe(q);
      RunKeepsLevel(u, faults, ops, q);
    }
  }

  lemma OthersAsInTrans(t: State, v: State, u: State)
    requires ValidState(t) && ValidState(v) && ValidState(u)
    requires OthersAsIn(t, v) && OthersAsIn(v, u)
    ensures OthersAsIn(t, u)
  {
  }

  lemma WriteOpsCubePinsOnly(green: bool, red: bool)
    ensures CubePinsOnly(WriteOps(green, red))
  {
    WriteOpsExact(green, red);
  }

  /** The level `write(green, red)` leaves on a pin: a green pin's bit ends
      at `green`, a red pin's at `red`, any other bit where it was. */
  lemma LevelAfterWrite(green: bool, red: bool, pin: int, level: bool)
    ensures LevelAfter(WriteOps(green, red), pin, level)
      == if SameBit(10, pin) || SameBit(6, pin) then green
         else if SameBit(9, pin) || SameBit(5, pin) then red
         else level
  {
    var ops := WriteOps(green, red);
    WriteOpsExact(green, red);
    assert ops[..1][..0] == [] && ops[..1][0] == DigitalWriteOp(5, red);
    assert ops[..2][..1] == ops[..1] && ops[..2][1] == DigitalWriteOp(9, red);
    assert ops[..3][..2] == ops[..2] && ops[..3][2] == DigitalWriteOp(6, green);
    assert ops[..|ops| - 1] == ops[..3];
    assert LevelAfter(ops[..1][..0], pin, level) == level;
    var l1 := LevelAfter(ops[..1], pin, level);
    assert l1 == if SameBit(5, pin) then red else level;
    var l2 := LevelAfter(ops[..2], pin, level);
    assert l2 == if SameBit(9, pin) then red else l1;
    var l3 := LevelAfter(ops[..3], pin, level);
    assert l3 == if SameBit(6, pin) then green else l2;
  }

  /** After a successful `write(green, red)` the red pins are at `red`, the
      green pins at `green`, and every other pin of ports 0-12 is where it
      was; a failed one also leaves those other pins alone. */
  lemma WriteLevels(s: State, faults: set<nat>, green: bool, red: bool)
    requires ValidState(s)
    ensures var a := Run(s, faults, WriteOps(green, red));
      (a.outcome.Ok? ==> Shows(a.state, green, red)) && OthersAsIn(a.state, s)
  {
    var ops := WriteOps(green, red);
    var a := Run(s, faults, ops);
    CubePinPorts();
    if a.outcome.Ok? {
      forall i | 0 <= i < |RedPins|
        ensures PinLevel(a.state, RedPins[i]) == red
      {
        RunLevels(s, faults, ops, RedPins[i]);
        LevelAfterWrite(green, red, RedPins[i], PinLevel(s, RedPins[i]));
      }
      forall i | 0 <= i < |GreenPins|
        ensures PinLevel(a.state, GreenPins[i]) == green
      {
        RunLevels(s, faults, ops, GreenPins[i]);
        LevelAfterWrite(green, red, GreenPins[i], PinLevel(s, GreenPins[i]));
      }
    }
    WriteOpsCubePinsOnly(green, red);
    OthersKept(s, faults, ops);
  }

  /** The flags are single bits: 0, 1, 4 and 5. */
  lemma BlinkFlagBits()
    ensures BlinkFast == Pow2(0) && BlinkSlow == Pow2(1)
    ensures BlinkRed == Pow2(4) && BlinkGreen == Pow2(5)
  {
  }

  /** For a one-bit flag `1 << k`, the test `mode & flag == flag` reads bit
      `k` of the mode. */
  lemma HasFlagBit(mode: nat, k: nat)
    ensures HasFlag(mode, Pow2(k)) <==> Bit(mode, k)
  {
    ShiftBit(mode, k);
  }

  /** What `Blink` reads from any non-negative mode: red and green are bits
      4 and 5; the slow duration is chosen exactly when bit 1 is set and
      bit 0 is not, and every other mode blinks fast. */
  lemma DecodeModeBits(mode: nat)
    ensures var plan := DecodeMode(mode);
      (plan.red <==> Bit(mode, 4)) && (plan.green <==> Bit(mode, 5))
      && plan.durationMs == if Bit(mode, 1) && !Bit(mode, 0) then SlowDurationMs else FastDurationMs
  {
    BlinkFlagBits();
    HasFlagBit(mode, 0);
    HasFlagBit(mode, 1);
    HasFlagBit(mode, 4);
    HasFlagBit(mode, 5);
  }

  /** Decoding an or-combination of the flags: fast wins over slow, no speed
      flag means fast, and each colour is enabled exactly when its flag is
      present. */
  lemma DecodeCombination(fast: bool, slow: bool, red: bool, green: bool)
    ensures var mode := (if fast then BlinkFast else 0) + (if slow then BlinkSlow else 0)
                        + (if red then BlinkRed else 0) + (if green then BlinkGreen else 0);
      DecodeMode(mode) == Plan(if !fast && slow then SlowDurationMs else FastDurationMs, red, green)
  {
  }

  /** A `Blink` that succeeded leaves all four LED pins low, and every other
      pin of ports 0-12 where it was before the call. */
  lemma BlinkEndsOff(s: State, faults: set<nat>, mode: BlinkMode)
    requires ValidState(s) && BlinkSpec(s, faults, mode).outcome.Ok?
    ensures var t := BlinkSpec(s, faults, mode).state;
      Shows(t, false, false) && OthersAsIn(t, s)
  {
    var u := Run(s, faults, OffOps()).state;
    BlinkSpecFlat(s, faults, mode);
    BlinkOpsEndOff(u, faults, DecodeMode(mode));
    WriteLevels(s, faults, false, false);
  }

  /** The operations after `Blink`'s initial `off`, when they succeed, end
      with the four LED pins low and touch no other pin. */
  lemma BlinkOpsEndOff(u: State, faults: set<nat>, plan: Plan)
    requires ValidState(u) && Run(u, faults, BlinkOps(plan)).outcome.Ok?
    ensures var t := Run(u, faults, BlinkOps(plan)).state;
      Shows(t, false, false) && OthersAsIn(t, u)
  {
    var cycles := Repeat(CycleOps(plan), BlinkCycles);
    WriteOpsCubePinsOnly(false, true);
    WriteOpsCubePinsOnly(true, false);
    WriteOpsCubePinsOnly(false, false);
    assert CubePinsOnly(CycleOps(plan));
    assert CubePinsOnly(cycles);
    EndsWithOff(u, faults, cycles);
  }

  /** Operations on the cube's pins followed by a successful `off` leave the
      four LED pins low and every other pin where it was. */
  lemma EndsWithOff(u: State, faults: set<nat>, pre: seq<Op>)
    requires ValidState(u) && AllAllowed(pre) && CubePinsOnly(pre)
    requires Run(u, faults, pre + OffOps()).outcome.Ok?
    ensures var t := Run(u, faults, pre + OffOps()).state;
      Shows(t, false, false) && OthersAsIn(t, u)
  {
    RunAppend(u, faults, pre, OffOps());
    var v := Run(u, faults, pre);
    WriteLevels(v.state, faults, false, false);
    OthersKept(u, faults, pre);
    OthersAsInTrans(Run(v.state, faults, OffOps()).state, v.state, u);
  }

  /** `Blink` discards the initial `off`'s error: when that `off` fails,
      at whichever of its writes or flushes, and no fault lies after it,
      `Blink` still succeeds. */
  lemma BlinkIgnoresInitialOffError(s: State, faults: set<nat>, mode: BlinkMode)
    requires ValidState(s) && Run(s, faults, OffOps()).outcome.Fail?
    requires forall j | j in faults :: j < |Run(s, faults, OffOps()).state.events|
    ensures BlinkSpec(s, faults, mode).outcome == Ok
  {
    BlinkSpecFlat(s, faults, mode);
    RunFaultFree(Run(s, faults, OffOps()).state, faults, BlinkOps(DecodeMode(mode)));
  }

  /** The time `ops` spend asleep. */
  function SleptMs(ops: seq<Op>): (ms: nat)
    decreases |ops|
  {
    if ops == [] then 0
    else SleptMs(ops[..|ops| - 1]) + (if ops[|ops| - 1].SleepOp? then ops[|ops| - 1].ms else 0)
  }

  lemma {:induction false} SleptMsAppend(a: seq<Op>, b: seq<Op>)
    ensures SleptMs(a + b) == SleptMs(a) + SleptMs(b)
    decreases |b|
  {
    if b == [] {
      assert a + b == a;
    } else {
      assert (a + b)[..|a + b| - 1] == a + b[..|b| - 1];
      SleptMsAppend(a, b[..|b| - 1]);
    }
  }

  lemma {:induction false} SleptMsRepeat(c: seq<Op>, n: nat)
    ensures SleptMs(Repeat(c, n)) == n * SleptMs(c)
  {
    if n > 0 {
      SleptMsRepeat(c, n - 1);
      SleptMsAppend(Repeat(c, n - 1), c);
      assert n * SleptMs(c) == (n - 1) * SleptMs(c) + SleptMs(c);
    }
  }

  lemma WriteOpsSleepNot(green: bool, red: bool)
    ensures SleptMs(WriteOps(green, red)) == 0
  {
    var ops := WriteOps(green, red);
    WriteOpsExact(green, red);
    assert ops[..1][..0] == [];
    assert ops[..2][..1] == ops[..1];
    assert ops[..3][..2] == ops[..2];
    assert ops[..|ops| - 1] == ops[..3];
    assert SleptMs(ops[..1][..0]) == 0;
    assert SleptMs(ops[..1]) == 0;
    assert SleptMs(ops[..2]) == 0;
  }

  /** Each cycle sleeps once per phase it shows: twice when a colour is
      enabled (that colour and the other or off), once when none is. */
  lemma CycleSleep(plan: Plan)
    ensures SleptMs(CycleOps(plan)) == (if plan.red || plan.green then 2 else 1) * plan.durationMs
  {
    var d := plan.durationMs;
    var redPart := if plan.red then RedOps() + [SleepOp(d)] else [];
    var greenPart := if plan.green then GreenOps() + [SleepOp(d)] else [];
    var offPart := if !plan.red || !plan.green then OffOps() + [SleepOp(d)] else [];
    WriteOpsSleepNot(false, true);
    WriteOpsSleepNot(true, false);
    WriteOpsSleepNot(false, false);
    SleptMsAppend(RedOps(), [SleepOp(d)]);
    SleptMsAppend(GreenOps(), [SleepOp(d)]);
    SleptMsAppend(OffOps(), [SleepOp(d)]);
    assert SleptMs([SleepOp(d)]) == d by {
      assert [SleepOp(d)][..0] == [];
    }
    SleptMsAppend(redPart, greenPart);
    SleptMsAppend(redPart + greenPart, offPart);
  }

  /** How long a `Blink` spends asleep between its writes: five cycles of
      one or two phases of the plan's duration each. */
  lemma BlinkSleepTotal(plan: Plan)
    ensures SleptMs(BlinkOps(plan)) == BlinkCycles * (if plan.red || plan.green then 2 else 1) * plan.durationMs
  {
    var cycle := CycleOps(plan);
    SleptMsAppend(Repeat(cycle, BlinkCycles), OffOps());
    SleptMsRepeat(cycle, BlinkCycles);
    CycleSleep(plan);
    WriteOpsSleepNot(false, false);
  }

  /** The phases of one cycle, colour combination by colour combination. */
  function PhaseList(plan: Plan): (ps: seq<Phase>)
  {
    match (plan.red, plan.green)
    case (true, true) => [RedPhase, GreenPhase]
    case (true, false) => [RedPhase, OffPhase]
    case (false, true) => [GreenPhase, OffPhase]
    case (false, false) => [OffPhase]
  }

  /** Each phase's writes followed by a sleep of `ms`. */
  function PhasedOps(ps: seq<Phase>, ms: nat): (ops: seq<Op>)
    decreases |ps|
  {
    if ps == [] then [] else PhasedOps(ps[..|ps| - 1], ms) + PhaseOps(ps[|ps| - 1]) + [SleepOp(ms)]
  }

  /** A cycle is red and green when both colours are enabled, the one
      colour and off when one is, and off alone when none is. */
  lemma CyclePhases(plan: Plan)
    ensures CycleOps(plan) == PhasedOps(PhaseList(plan), plan.durationMs)
  {
    var d := plan.durationMs;
    var ps := PhaseList(plan);
    if |ps| == 2 {
      assert ps[..1][..0] == [];
      assert PhasedOps(ps[..1], d) == PhaseOps(ps[0]) + [SleepOp(d)];
    } else {
      assert ps[..0] == [];
    }
  }

  /** `Blink(BlinkRed | BlinkFast)`: five times red then off, 120 ms each;
      `Blink(BlinkRed | BlinkGreen | BlinkSlow)`: five times red then green,
      no off between, 250 ms each; both end with `off`. */
  lemma BlinkScenarios()
    ensures BlinkOps(DecodeMode(BlinkRed + BlinkFast))
      == Repeat(PhasedOps([RedPhase, OffPhase], 120), 5) + OffOps()
    ensures BlinkOps(DecodeMode(BlinkRed + BlinkGreen + BlinkSlow))
      == Repeat(PhasedOps([RedPhase, GreenPhase], 250), 5) + OffOps()
  {
    DecodeCombination(true, false, true, false);
    CyclePhases(Plan(120, true, false));
    DecodeCombination(false, true, true, true);
    CyclePhases(Plan(250, true, true));
  }

  /** A failed `Blink` stopped at the first fault after its initial `off`:
      the error is that of the last attempt on the timeline, and nothing
      was attempted after it. */
  lemma BlinkStopsAtError(s: State, faults: set<nat>, mode: BlinkMode)
    requires ValidState(s) && BlinkSpec(s, faults, mode).outcome.Fail?
    ensures var u := Run(s, faults, OffOps()).state;
      var a := BlinkSpec(s, faults, mode); var n := |a.state.events|;
      |u.events| < n && a.outcome.error == IoError(n - 1) && n - 1 in faults
      && CanFail(a.state.events[n - 1])
      && NoFaultIn(a.state.events, faults, |u.events|, n - 1)
  {
    var u := Run(s, faults, OffOps()).state;
    BlinkSpecFlat(s, faults, mode);
    RunFaults(u, faults, BlinkOps(DecodeMode(mode)));
  }
}
