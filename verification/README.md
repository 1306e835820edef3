# AsyncShiftIn in Dafny

A model of `AsyncShiftIn`. This Arduino driver reads a parallel-load shift
register, such as a model-railway feedback bus, one bit at a time. It never
blocks and uses no timer interrupts. The host calls `loop()` over and over. Each
call either returns at once because the timing gate has not opened yet, or it
takes exactly one micro-step of a fixed ten-state protocol:

- clock one data bit in, or
- drive the load and reset lines through the pulse sequence that re-latches the
  register.

The model is purely functional:

- `Timing` covers time. `SleepTimeType`/`micros()` are 32-bit unsigned, so
  elapsed time is taken modulo 2^32.
- `Protocol` holds the `State` enum, `stateTransition` and the sleep-duration
  table.
- `Lines` holds the three control lines, the output table of `setupOutput` and
  the waveform it produces.
- `AsyncShiftIn` holds the driver record, `setLength` and `loop()`:
  - `Poll` is the whole call, gate included.
  - `Fire` is the step taken once the gate has opened.
  - A call's inputs are the record, the time configuration, the `micros()`
    reading, the level on the data pin and which weak callbacks are linked in.
  - A call's outputs are the new record, the list of `digitalWrite`s and whether
    the data pin was read.
  - It also returns the callbacks fired. Each callback carries a snapshot of the
    driver as the callback sees it through its pointer argument.
- `Cycle` covers sequences of calls:
  - the invariant of the bit counter;
  - the waveform the lines follow;
  - the exact events of one read cycle;
  - what happens when the shift callback is absent.

The model follows the code in these places, where the header's documentation or
a reading of the design might suggest otherwise:

- After `RES1` zeroes `nextBit`, bit index 0 is delivered from `RES6_SAMPLE`.
  Indices 1 to length−1 come from the following `READ_SAMPLE`s. No index equal
  to `length` is ever delivered for registers of two bits or more (`Cycle.FullCycle`).
- Lengths 0 and 1 are accepted without validation. They still deliver two bits
  per cycle, indices 0 and 1, so `nextBit` reaches 2
  (`Cycle.ShortRegisterReadsTwoBits`). The bound `nextBit ≤ length` therefore
  holds only for lengths ≥ 2. The general bound is `max(length, 2)`.
- `++nextBit` sits inside the shift callback's presence test. Without a shift
  callback, a register of one bit or more completes the forced first cycle and
  then loops through the read states forever (`Cycle.StuckWithoutShiftHandler`,
  `Cycle.AtMostOneResetWithoutShiftHandler`).
- `RES4` and `RES5` write the reset pin unconditionally. No period or length is
  rejected.

## Model

| member | source | states |
|---|---|---|
| Timing.Elapsed | AsyncShiftIn.cpp:64-65 | elapsed time is the unique 32-bit value that, added to `lastActiveTime` modulo 2^32, gives the reading; it is the plain difference when the clock did not wrap |
| Timing.ElapsedIsUnique | AsyncShiftIn.h:74-75 | unsigned subtraction has exactly one answer in the `SleepTimeType` range |
| Timing.ElapsedMeasuresDelay | AsyncShiftIn.cpp:64-65 | a reading taken `delay` µs after `lastActiveTime` measures exactly `delay`, across a wrap-around of `micros()` too |
| Timing.GateOpensAfterSleep | AsyncShiftIn.cpp:64-68 | the gate opens `delay` after the last step iff `delay` is strictly greater than the sleep duration, wrap-around included |
| Protocol.RingEnumeratesStates | AsyncShiftIn.h:57-69 | the enum has exactly ten values, each listed once in the cycle order |
| Protocol.Transition | AsyncShiftIn.cpp:99-137 | the new state is `RES1` iff the old one is `READ_SAMPLE` with `nextBit >= length`; `nextBit` becomes 0 exactly then and is otherwise unchanged |
| Protocol.TransitionFollowsRing | AsyncShiftIn.cpp:99-137 | every state moves to its successor in the ten-state ring, except `READ_SAMPLE` with `nextBit < length`, which goes back to `READ_HIGH`; `RES6_SAMPLE -> READ_HIGH` is unconditional |
| Protocol.SleepFor | AsyncShiftIn.cpp:139-172 | read states wait on the clock period, reset states on the reset period; `READ_LOW`, `READ_SAMPLE`, `RES6`, `RES6_SAMPLE` wait half of it (truncated), the others the full period |
| Protocol.ReadBitSleepsTwoClockPeriods | AsyncShiftIn.cpp:141-149 | one read sub-cycle sleeps two clock periods in total (one µs less for an odd period) |
| Protocol.ResetSleepsSixResetPeriods | AsyncShiftIn.cpp:150-170 | the reset sub-cycle sleeps six reset periods in total (one µs less for an odd period) |
| Lines.Outputs | AsyncShiftIn.cpp:174-205 | a state writes no pin iff it is one of the two sample states; no state writes more than two pins |
| Lines.InitialLevelsMatchRestart | AsyncShiftIn.cpp:47-57 | the all-low levels `init` drives are the waveform of `READ_SAMPLE`, the state `setLength` selects |
| Lines.OutputsIdempotent | AsyncShiftIn.cpp:174-205 | re-applying a state's writes leaves the lines as they are, from any line levels |
| Lines.OutputsFollowWaveform | AsyncShiftIn.cpp:174-205 | each transition's writes take the lines from the old state's waveform to the new one's (clock high only in `READ_HIGH`/`RES2`, load high `RES1`..`RES5`, reset high only in `RES4`) |
| AsyncShiftIn.SetLength | AsyncShiftIn.cpp:54-60 | the length is set, the next passing step goes to `RES1` with `nextBit = 0`, and every reading but 0 opens the gate |
| AsyncShiftIn.Fire | AsyncShiftIn.cpp:70-96 | one transition; the data pin is read iff the new state samples; the writes and sleep are the new state's; the time is stamped; the bit callback fires iff the handler exists and the state samples, gets the pre-increment index and the sampled level, sees the updated record, and `nextBit` grows by one only then; the reset callback fires iff the handler exists and the state is `RES1` |
| AsyncShiftIn.Poll | AsyncShiftIn.cpp:62-68 | a closed gate changes no field, writes no pin, reads no pin and fires nothing; an open gate takes exactly one step |
| AsyncShiftIn.PollAgainIsIdle | AsyncShiftIn.cpp:64-68 | a second call at the instant of a step is a no-op |
| AsyncShiftIn.NextStepAfterSleep | AsyncShiftIn.cpp:82-86 | after a step, the next call steps iff more than the new state's sleep duration has elapsed, wrap-around included |
| AsyncShiftIn.RestartEntersRes1 | AsyncShiftIn.cpp:54-60 | the first call after `setLength` (at any reading but 0) enters `RES1`, zeroes `nextBit`, drives clock low then load high and fires the reset callback if present |
| Cycle.RestartIsConsistent | AsyncShiftIn.cpp:54-60 | `setLength` establishes the bit-counter invariant with or without the shift callback |
| Cycle.PollKeepsConsistent | AsyncShiftIn.cpp:89-92 | every call keeps the bit-counter invariant and the length |
| Cycle.CounterBounded | AsyncShiftIn.h:113-116 | under the invariant `nextBit <= max(length, 2)`, `nextBit <= length` for registers of two bits or more, and every bit index delivered is below `max(length, 2)` |
| Cycle.PollsKeepConsistent | AsyncShiftIn.h:55-56 | over any sequence of calls the counter stays within `[0, max(length, 2)]`, never going negative or wrapping, and the length never changes |
| Cycle.LinesFollowWaveform | AsyncShiftIn.cpp:174-205 | over any sequence of calls, the writes carry the lines from the first state's waveform to the last state's |
| Cycle.LinesFromInit | AsyncShiftIn.cpp:47-51 | from `init`, the lines always show the current state's waveform |
| Cycle.ResetPulse | AsyncShiftIn.cpp:115-129 | from `RES1`..`RES5` the steps up to `RES6` fire nothing and keep `nextBit = 0` |
| Cycle.ResetPhase | AsyncShiftIn.cpp:115-134 | six steps from `RES1` reach `RES6_SAMPLE` and deliver bit 0 with the level sampled there |
| Cycle.ReadBitOnce | AsyncShiftIn.cpp:101-109 | three steps from `RES6_SAMPLE`, or from `READ_SAMPLE` while bits remain, deliver the next index with the level sampled in `READ_SAMPLE` |
| Cycle.CloseCycle | AsyncShiftIn.cpp:107-113 | from `READ_SAMPLE` with all bits delivered, one step enters `RES1`, zeroes `nextBit` and fires only the reset callback, if present |
| Cycle.ReadPhase | AsyncShiftIn.cpp:101-113 | the read phase delivers the indices from `nextBit` to `length - 1` in order, each sampled three steps after the previous one, then closes the cycle |
| Cycle.FullCycle | AsyncShiftIn.cpp:89-134 | between two reset events, a register of two bits or more with the shift callback delivers exactly `length` bit events, indices `0..length-1` in order (index 0 from `RES6_SAMPLE`), and returns to `RES1` with `nextBit = 0` |
| Cycle.ShortRegisterReadsTwoBits | AsyncShiftIn.cpp:130-134 | lengths 0 and 1 still deliver indices 0 and 1 per cycle before the reset event |
| Cycle.StuckWithoutShiftHandler | AsyncShiftIn.cpp:89-92 | without the shift callback, once `nextBit` is 0 a register of one bit or more never fires the reset callback again and `nextBit` stays 0 |
| Cycle.AtMostOneResetWithoutShiftHandler | AsyncShiftIn.cpp:89-96 | without the shift callback, a register of one bit or more fires at most one reset callback after `setLength` |

## Left out

- `pinMode`, `digitalWrite`, `digitalRead` and `micros()` are not modelled as calls.
  Writes are an emitted list, the data level is an input, and the time is a
  parameter.
- The hardware setup in `init` (AsyncShiftIn.cpp:38-52) is not modelled, except
  for the all-low levels it drives. These are used as the lines' starting point.
- The header's `init` signature and member list do not match the .cpp.
  `setLength` and the configuration pointers are not declared in the header.
  The model follows the .cpp with an abstract `Config` record.
- The `data` member read at AsyncShiftIn.cpp:76 is never assigned. The level on
  the data pin is therefore an input of the step.
- `loop()` reads `micros()` twice: once for the gate and once for `lastActiveTime`.
  Both reads are modelled as the same instant, so the microseconds spent inside
  one call are not modelled.
- The callbacks' bodies are user code. Only whether each one fires, its
  arguments and the record it can observe are modelled.
- `length` and `nextBit` are `nat`, not a fixed-width `unsigned int`. No
  wrap-around occurs: `Cycle.PollsKeepConsistent` bounds `nextBit` by
  `max(length, 2)`.
- The periods are modelled as 32-bit values. The `TimeConfiguration` type is
  not part of this model.
- Timing drift, stretched timing under sparse polling and multiple driver
  instances concern the host loop, not the step function.
- `Cycle.FullCycle` and the other cycle lemmas count only the calls that pass
  the gate (`Cycle.Steps`). `AsyncShiftIn.Poll` shows that calls held at the
  gate change nothing, write nothing and fire nothing.
