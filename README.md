# go-cube in Dafny

A model of the host-side driver of a two-colour LED cube that is attached to a
microcontroller over a serial link speaking Firmata. It has two layers:

- **The Firmata adapter** (`firmataImpl`). It encodes pin-mode requests as
  `[0xF4, pin, mode]`. It keeps one 8-bit output mask per port in the 13-entry
  slice `digitalOutData`. A digital write merges one pin's bit into its port's
  mask and sends the whole mask as `[0x90|port, mask & 0x7F, mask >> 7]`. After
  the connection is opened, the adapter waits two seconds and enables reporting
  for analog channels 0-5 and digital ports 0-1.
- **The cube controller** (`cube`).
  - The red LEDs are on pins 5 and 9, the green ones on 6 and 10.
  - `write(green, red)` writes the red pins, then the green pins, and stops at
    the first error. `off`, `red` and `green` call it with fixed values.
  - `initiaize` puts the four pins in OUTPUT mode.
  - `Blink(mode)` runs five cycles of timed colour phases between two `off`s.
  - `NewCube` does the adapter handshake, `initiaize` and `Off`.
  - `Close` calls `off`, ignores its result, and closes the port.

Files:

- `io.dfy`: the outside world. The serial port's `Write`, `Flush` and `Close`,
  and `time.Sleep`, are recorded in order as events on one timeline.
  - A set of timeline positions, the fault oracle, says which I/O attempts fail.
  - The error identifies the attempt that failed. A sleep never fails.
- `bits.dfy`: Go's `|` and `&^` on non-negative integers, written as arithmetic,
  with lemmas that state them bit by bit.
- `firmata.dfy`: the frames, the reference semantics, the class and its methods.
  - `Step` gives the effect of one adapter operation. `Run` runs a sequence, stopping at the first
    failure.
  - The class `Firmata` holds the mask array and the world; each method is
    proved to do what `Step` or `Run` says.
- `cube.dfy`: each controller operation as the sequence of adapter operations
  it performs.
  - `WriteOps`, `InitOps`, with `BlinkSpec` as the cycle-by-cycle loop and `BlinkOps`
    as its flat equivalent.
  - The class `Cube` is proved to perform exactly those sequences.
  - `Cube.Hold` is one phase of the `Blink` loop body: a `write` followed,
    if it succeeded, by the sleep.

Go's operators are modelled exactly where it matters:

- `(pin >> 3) & 0x0F` is `(pin / 8) % 16`, and `pin & 7` is `pin % 8`. Dafny's
  `/` and `%` floor for a positive divisor, as Go's `>>` and `&` do on two's
  complement.
- `byte(x)` is `x % 256`.
- `mode & flag == flag`, for a one-bit flag, is `(mode / flag) % 2 == 1`.

## Model

| member | source | states |
|---|---|---|
| Io.World.Write | firmata.go:178 | a write is recorded on the timeline and fails exactly when its position is a fault |
| Io.World.Flush | firmata.go:184 | a flush is recorded on the timeline and fails exactly when its position is a fault |
| Io.World.Close | firmata.go:194 | closing the port is recorded on the timeline and fails exactly when its position is a fault |
| Io.World.Sleep | cube.go:146 | `time.Sleep` is recorded on the timeline with its duration and cannot fail |
| Bits.OrBit | firmata.go:170 | bit k of `Or(a, b)` is set exactly when bit k of `a` or of `b` is |
| Bits.AndNotBit | firmata.go:168 | bit k of `AndNot(a, b)` is set exactly when it is set in `a` and clear in `b` |
| Bits.OrBound | firmata.go:170 | or-ing two n-bit values gives an n-bit value |
| Bits.AndNotBound | firmata.go:168 | clearing bits never makes a value larger |
| Bits.ShiftBit | cube.go:113-126 | bit k of a value is the low bit of the value divided by 2^k, which is what a one-bit mask test reads; proved with the helper lemmas DivHalf and DivUnique |
| Firmata.PortOf | firmata.go:165 | `(pin >> 3) & 0x0F` is a port index below 16, whatever the pin |
| Firmata.BitOf | firmata.go:168 | `pin & 0x07` is a bit position below 8, whatever the pin |
| Firmata.ReportAnalogFrame | firmata.go:107-108 | a two-byte frame: command 0xC in the high nibble, the channel in the low nibble, and 1 to enable reporting |
| Firmata.ReportDigitalFrame | firmata.go:124-125 | a two-byte frame: command 0xD in the high nibble, the port in the low nibble, and 1 to enable reporting |
| Firmata.PinModeFrame | firmata.go:144-147 | a three-byte frame: 0xF4, the pin reduced modulo 256 (the pin itself for pins 0-255), and the mode's value |
| Firmata.DigitalFrame | firmata.go:173-176 | a three-byte frame: command 0x9 in the high nibble and the port in the low nibble; for an 8-bit mask a 7-bit low byte and a high byte of 0 or 1 that reassemble to the mask |
| Firmata.Zeroed | firmata.go:92 | 13 entries, all zero, and the timeline as given |
| Firmata.SendEffect | firmata.go:178-190 | sending a frame leaves the masks alone, records the write and, only if it succeeded, the flush; it fails exactly when one of them faulted, and reports the last attempt |
| Firmata.InitializeOps | firmata.go:101-138 | the settle delay first, then one report frame per analog channel 0-5, then one per digital port 0-1, nine operations in all |
| Firmata.Merge | firmata.go:167-171 | merging a bit into an 8-bit mask gives an 8-bit mask, so every entry stays below 256 |
| Firmata.Step | firmata.go:143-201 | every adapter operation keeps 13 entries of 8 bits and extends the timeline |
| Firmata.Run | firmata.go:106-121 | a run of operations keeps the state well formed and only extends the timeline |
| Firmata.Firmata.constructor | firmata.go:92 | the adapter starts with 13 zero entries |
| Firmata.Firmata.Transmit | firmata.go:178-190 | one frame is written, flushed only if the write succeeded, and the first error is returned |
| Firmata.Firmata.Initialize | firmata.go:101-141 | the settle delay, then report frames for analog channels 0-5 and digital ports 0-1, each flushed, stopping at the first error |
| Firmata.Firmata.PinMode | firmata.go:143-162 | the frame `[0xF4, byte(pin), byte(mode)]` is written and flushed; the masks are untouched |
| Firmata.Firmata.DigitalWrite | firmata.go:164-191 | the pin's bit is merged into its port's entry and that whole entry is sent; this agrees with `Step` in every outcome |
| Firmata.Firmata.Close | firmata.go:193-201 | the port is closed and its error returned |
| Firmata.NewFirmata | firmata.go:92-98 | zeroed state, then the handshake; the adapter is returned exactly when the handshake succeeded |
| Firmata.PortIndexSafe | firmata.go:165 | of pins 0-127, exactly those below 104 index one of the 13 entries; port is `pin / 8` and bit `pin % 8` |
| Firmata.PortWraps | firmata.go:165 | `& 0x0F` wraps: pin and pin + 128 address the same entry and bit |
| Firmata.MergeSetsBit | firmata.go:167-171 | after the merge the pin's bit holds the written value |
| Firmata.MergeKeepsOtherBits | firmata.go:167-171 | the merge changes no other bit of the entry |
| Firmata.MergeBits | firmata.go:167-171 | the merged entry is the old entry with exactly one bit replaced |
| Firmata.MergeIdempotent | firmata.go:167-171 | merging the same value twice equals merging it once |
| Firmata.MergeSetThenClear | firmata.go:167-171 | setting and then clearing a bit that was clear restores the entry |
| Firmata.DigitalFrameRoundTrip | firmata.go:173-176 | the frame's bytes are `0x90 + port`, a 7-bit low byte, and a high byte of 0 or 1; `high * 128 + low` is the mask, and decoding the frame gives port and mask back |
| Firmata.DecodeDigitalFrameThenEncode | firmata.go:173-176 | every well-formed digital frame for an 8-bit mask encodes what it decodes to |
| Firmata.DigitalWriteEffect | firmata.go:164-191 | whatever the outcome: the bit holds the new value, no other bit or entry changes, and the frame attempted encodes the updated entry |
| Firmata.DigitalWriteIdempotent | firmata.go:167-171 | a second identical digital write leaves the masks as the first left them |
| Firmata.DigitalWriteSetThenClear | firmata.go:167-171 | raising and then lowering a pin whose bit was clear restores all masks |
| Firmata.DigitalWriteFromZero | firmata.go:164-191 | raising pin 5 on the zeroed adapter, with nothing failing, writes `[0x90, 0x20, 0x00]`, flushes, and leaves 0x20 in entry 0 |
| Firmata.PinModeEffect | firmata.go:143-162 | a pin-mode request writes `[0xF4, pin % 256, mode]`, flushes only if the write succeeded, fails exactly when one of them did, and leaves the masks alone |
| Firmata.StepLevel | firmata.go:164-171 | one operation changes a pin's level only if it is a digital write to that pin's bit, and then to its value |
| Firmata.RunLevels | firmata.go:164-171 | after a successful run every pin is at the level of the last digital write addressing it, or where it was |
| Firmata.RunKeepsLevel | firmata.go:164-171 | whatever the outcome of a run, a pin no digital write of it addresses keeps its level |
| Firmata.RunPrefixFail | firmata.go:110-120 | once a prefix of the operations has failed, nothing after it is performed |
| Firmata.RunFirstFailure | firmata.go:110-120 | a failed run stopped at one operation: all before it succeeded, it failed, and the result is its result |
| Firmata.RunFaults | firmata.go:110-120 | a run succeeds exactly when none of its I/O attempts hits a fault; a failure reports the last attempt on the timeline, and no earlier attempt of the run hit a fault |
| Firmata.RunFaultFree | firmata.go:110-120 | with every fault position already in the past, a run succeeds |
| Firmata.InitializeOpsExact | firmata.go:101-141 | the handshake is the 2000 ms sleep and then, in order, `[0xC0..0xC5, 1]` and `[0xD0..0xD1, 1]` |
| Cube.HasFlagBit | cube.go:113-126 | for a flag `1 << k`, `mode & flag == flag` holds exactly when bit k of the mode is set |
| Cube.DecodeModeBits | cube.go:107-126 | for every non-negative mode: red is bit 4, green is bit 5, and the slow duration is chosen exactly when bit 1 is set and bit 0 is not |
| Cube.WriteOps | cube.go:205-221 | every digital write of `write` addresses one of the 13 entries |
| Cube.ColourOps | cube.go:193-203 | `off` writes all four LED pins low; `red` writes the red pins high and the green pins low; `green` the other way round |
| Cube.InitOps | cube.go:175-191 | every operation of `initiaize` is a request for OUTPUT mode |
| Cube.CycleOps | cube.go:139-164 | every digital write of a cycle addresses one of the 13 entries |
| Cube.BlinkOps | cube.go:139-169 | every digital write after the initial `off` addresses one of the 13 entries |
| Cube.CycleSpec | cube.go:140-163 | one cycle, phase by phase, keeps 13 entries of 8 bits |
| Cube.LoopSpec | cube.go:139-164 | the first n cycles, returning at the first error, keep 13 entries of 8 bits |
| Cube.BlinkSpec | cube.go:137-169 | `Blink` as the initial `off`, the loop and the final `off` keeps 13 entries of 8 bits |
| Cube.Cube.constructor | cube.go:68 | the cube wraps a well-formed adapter |
| Cube.Cube.Write | cube.go:205-221 | `write(green, red)` performs exactly the red-pin writes and then the green-pin writes, stopping at the first error |
| Cube.Cube.Off | cube.go:89-92 | `Off` is `write(false, false)` |
| Cube.Cube.Red | cube.go:94-97 | `Red` is `write(false, true)` |
| Cube.Cube.Green | cube.go:99-102 | `Green` is `write(true, false)` |
| Cube.Cube.Initialize | cube.go:175-191 | OUTPUT mode for the red pins and then the green pins, stopping at the first error |
| Cube.Cube.Hold | cube.go:140-147 | one phase: the write, and the phase's sleep only if the write succeeded |
| Cube.Cube.Blink | cube.go:107-173 | the initial `off` whatever its outcome, five cycles returning at the first error, and the final `off` only after all five succeeded |
| Cube.Cube.Close | cube.go:84-87 | `off` with its error discarded, then the adapter's close |
| Cube.NewCube | cube.go:61-82 | handshake, pin modes and `Off`, one after the other; the cube is returned exactly when all three succeeded |
| Cube.CubePinPorts | cube.go:12-13 | red pins are bit 5 of port 0 and bit 1 of port 1; green pins bit 6 of port 0 and bit 2 of port 1 |
| Cube.CycleSpecFlat | cube.go:139-164 | a cycle run phase by phase performs exactly the cycle's operations in order |
| Cube.LoopSpecFlat | cube.go:139-164 | the first n cycles of the loop perform n copies of the cycle |
| Cube.LoopFailStays | cube.go:141-161 | once a cycle has failed no later cycle runs, and the loop returns that failure |
| Cube.BlinkSpecFlat | cube.go:137-169 | `Blink` performs, after the initial `off`, five copies of the cycle and then `off` |
| Cube.WriteOpsExact | cube.go:205-221 | `write(green, red)` is pin 5 and pin 9 at `red`, then pin 6 and pin 10 at `green`: red first whichever colour is lit |
| Cube.InitOpsExact | cube.go:175-191 | `initiaize` sets OUTPUT mode on pins 5, 9, 6, 10 in that order |
| Cube.LevelAfterWrite | cube.go:205-221 | the level `write` leaves on any pin: green pins at `green`, red pins at `red`, every other bit unchanged |
| Cube.WriteLevels | cube.go:205-221 | after a successful `write` the cube shows exactly `green` and `red`; in every outcome every other pin is unchanged |
| Cube.OthersKept | cube.go:205-221 | operations that write only the cube's pins leave all other pins of ports 0-12 alone, whatever their outcome |
| Cube.BlinkFlagBits | cube.go:18-28 | the four flags are bits 0, 1, 4 and 5 |
| Cube.DecodeCombination | cube.go:108-126 | for every combination of the flags: fast wins over slow, no speed flag means fast, and each colour is enabled exactly when its flag is set |
| Cube.BlinkEndsOff | cube.go:166-172 | a successful `Blink` leaves all four LED pins low and every other pin where it was |
| Cube.BlinkIgnoresInitialOffError | cube.go:137 | whenever the initial `off` fails, at any of its writes or flushes, and no fault lies after it, `Blink` still succeeds |
| Cube.BlinkStopsAtError | cube.go:141-161 | a failed `Blink` returns the first fault after its initial `off`, and nothing is attempted after it |
| Cube.CycleSleep | cube.go:139-164 | a cycle sleeps once per phase: twice when a colour is enabled, once when none is |
| Cube.BlinkSleepTotal | cube.go:139-164 | a `Blink` sleeps five cycles of one or two phases of the chosen duration in total |
| Cube.CyclePhases | cube.go:139-164 | a cycle is red, green when both colours are enabled; the colour, off when one is; off alone when none is |
| Cube.BlinkScenarios | cube.go:107-173 | red and fast: five times red, off at 120 ms; red, green and slow: five times red, green at 250 ms with no off between; both end with `off` |

## Behaviour to note

- `red()` writes pins 5 and 9 (true) before pins 6 and 10 (false), in
  `write`'s fixed order (cube.go:205-221).
- `Blink` sends its final `off` only after five successful cycles; an error
  in a phase returns at once and leaves the cube in that phase
  (cube.go:141-169).

## Left out

- Opening the serial port (`serial.OpenPort`, the 57600-baud configuration) is
  foreign I/O. `NewFirmata` and `NewCube` take an already opened `World`, and
  the open-error return of `newFirmata` is not modelled.
- `findSerialPort` and the `"AUTO"` branch of `newFirmata` (firmata.go:41-77)
  probe devices and have no behaviour beyond "the first port that opens".
- Logging (`trace`, `log.Printf`, `SetLogWriter`) and the `name` string that
  `Blink` builds only for its log line are left out.
- Wall-clock time: every `time.Sleep` is a `Slept(ms)` event on the timeline.
- The byte count returned by the serial port's `Write` is never used by the
  code and is not modelled.
- examples/cube/main.go: command-line parsing and dispatch.
- Concurrency: the driver has none.
- The exported `Off`, `Red` and `Green` differ from the unexported `off`,
  `red` and `green` only by a log line, so each pair is one method.
- Firmata.Firmata.DigitalWrite: requires the pin's port index to be below 13.
  Go panics with an index out of range for the other pins; the panic is not
  modelled.
- Cube.DecodeModeBits: stated for non-negative modes, since `Bits.Bit` is
  defined on `nat`. A negative mode is decoded by the same `HasFlag` test,
  whose floor division reads its two's-complement bits, but no lemma states
  what it decodes to.
