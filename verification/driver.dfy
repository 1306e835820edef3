/**
 The `AsyncShiftIn` driver: its run-time record, `setLength`, and `loop()`.
 One call of `loop()` is a pure function from the record, the time
 configuration, the current `micros()` reading, the level on the data pin and
 the presence of the two weak callbacks, to the new record, the pin writes
 performed and the callbacks fired.
 */
module AsyncShiftIn {
  import opened Timing
  import opened Protocol
  import opened Lines

  /** The time configuration: clock and reset periods in microseconds. */
  datatype Config = Config(clkPeriod: Micros, resetPeriod: Micros)

  /**
   The run-time record of one driver. `length` and `nextBit` are unsigned
   counters; `sleep` is `currentSleepDuration` and `lastActive` is
   `lastActiveTime`.
   */
  datatype Driver = Driver(
    length: nat,
    nextBit: nat,
    state: State,
    sleep: Micros,
    lastActive: Micros)

  /** Whether the weak symbols `AsyncShiftIn_shift` and `AsyncShiftIn_reset` are linked in. */
  datatype Handlers = Handlers(shift: bool, reset: bool)

  /**
   A callback invocation. `seen` is the driver as the callback observes it
   through its `asyncShiftIn` pointer at the moment of the call.
   */
  datatype Event =
    | Shifted(bit: nat, level: Level, seen: Driver)
    | Completed(seen: Driver)

  /** The effect of one `loop()` call. `sampled` says whether the data pin was read. */
  datatype Outcome = Outcome(driver: Driver, writes: seq<PinWrite>, sampled: bool, events: seq<Event>)

  /**
   `setLength`: restart the machine as if a cycle had just ended, so that the
   next step that passes the gate starts a fresh cycle at `Res1`. Nothing of the
   previous record survives, and no length is rejected.
   */
  function SetLength(n: nat): (d: Driver)
    ensures d.length == n
    ensures Transition(d.state, d.nextBit, d.length) == Transit(Res1, 0)
    ensures forall now: Micros :: GateOpen(now, d.lastActive, d.sleep) <==> now > 0
  {
    Driver(n, n, ReadSample, 0, 0)
  }

  /**
   The part of `loop()` after the gate has opened: take one transition, read
   the data pin in the two sample states, apply the new state's writes and
   sleep duration, stamp the time, then run the callbacks. The shift callback
   receives the bit counter before it is incremented, and the increment sits
   inside the callback's presence test.
   */
  function Fire(d: Driver, cfg: Config, now: Micros, data: Level, h: Handlers): (o: Outcome)
    ensures var t := Transition(d.state, d.nextBit, d.length);
            && o.driver.state == t.state
            && o.driver.length == d.length
            && o.driver.lastActive == now
            && o.driver.sleep == SleepFor(t.state, cfg.clkPeriod, cfg.resetPeriod)
            && o.writes == Outputs(t.state)
            && (o.sampled <==> IsSampleState(t.state))
            && o.driver.nextBit == (if h.shift && o.sampled then t.nextBit + 1 else t.nextBit)
    ensures |o.events| == (if (h.shift && IsSampleState(o.driver.state))
                              || (h.reset && o.driver.state == Res1) then 1 else 0)
    ensures |o.events| == 1 ==> (o.events[0].Shifted? <==> IsSampleState(o.driver.state))
    ensures |o.events| == 1 && o.events[0].Shifted? ==>
              && o.events[0].bit + 1 == o.driver.nextBit
              && o.events[0].level == data
              && o.events[0].seen == o.driver.(nextBit := o.events[0].bit)
    ensures |o.events| == 1 && o.events[0].Completed? ==>
              o.events[0].seen == o.driver && o.driver.nextBit == 0
  {
    var t := Transition(d.state, d.nextBit, d.length);
    var sampled := IsSampleState(t.state);
    var read := if sampled then data else Low;
    var updated := Driver(d.length, t.nextBit, t.state,
                          SleepFor(t.state, cfg.clkPeriod, cfg.resetPeriod), now);
    var shifting := h.shift && sampled;
    var shiftEvents := if shifting then [Shifted(t.nextBit, read, updated)] else [];
    var afterShift := if shifting then updated.(nextBit := t.nextBit + 1) else updated;
    var resetEvents := if h.reset && t.state == Res1 then [Completed(afterShift)] else [];
    Outcome(afterShift, Outputs(t.state), sampled, shiftEvents + resetEvents)
  }

  /** A `loop()` call that returned at the gate. */
  function Idle(d: Driver): Outcome
  {
    Outcome(d, [], false, [])
  }

  /**
   `loop()`: unless strictly more than the current sleep duration has elapsed
   since the last step, return without any effect; otherwise take one step.
   */
  function Poll(d: Driver, cfg: Config, now: Micros, data: Level, h: Handlers): (o: Outcome)
    ensures !GateOpen(now, d.lastActive, d.sleep) ==>
              o.driver == d && o.writes == [] && !o.sampled && o.events == []
    ensures GateOpen(now, d.lastActive, d.sleep) ==> o == Fire(d, cfg, now, data, h)
  {
    if Elapsed(now, d.lastActive) <= d.sleep then Idle(d) else Fire(d, cfg, now, data, h)
  }

  /** Polling again at the instant of a step is a no-op: the gate is closed again. */
  lemma PollAgainIsIdle(d: Driver, cfg: Config, now: Micros, data: Level, data': Level, h: Handlers)
    ensures var o := Fire(d, cfg, now, data, h);
            Poll(o.driver, cfg, now, data', h) == Idle(o.driver)
  {
  }

  /**
   After a step, the next one happens exactly at the first poll taken more than
   the new state's sleep duration later, whether or not the clock wraps around
   in between.
   */
  lemma NextStepAfterSleep(d: Driver, cfg: Config, now: Micros, data: Level, h: Handlers, delay: Micros)
    ensures var o := Fire(d, cfg, now, data, h);
            var later := Wrap(now + delay);
            Poll(o.driver, cfg, later, data, h) ==
              (if delay > SleepFor(o.driver.state, cfg.clkPeriod, cfg.resetPeriod)
               then Fire(o.driver, cfg, later, data, h) else Idle(o.driver))
  {
  }

  /**
   The first poll after `setLength` starts a cycle: it enters `Res1`, zeroes the
   bit counter, drives clock low and load high, and fires the reset callback
   if present. Since `lastActiveTime` is 0, only a poll at `micros() == 0` is held
   at the gate.
   */
  lemma RestartEntersRes1(n: nat, cfg: Config, now: Micros, data: Level, h: Handlers)
    ensures var o := Poll(SetLength(n), cfg, now, data, h);
            if now == 0 then o == Idle(SetLength(n))
            else
              && o.driver.state == Res1
              && o.driver.nextBit == 0
              && o.driver.length == n
              && o.writes == [PinWrite(Clock, Low), PinWrite(Load, High)]
              && !o.sampled
              && o.events == (if h.reset then [Completed(o.driver)] else [])
  {
  }
}
