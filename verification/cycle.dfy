/**
 Sequences of `loop()` calls: the invariant the bit counter keeps, the
 waveform the lines follow, and the events one read cycle delivers.
 */
module Cycle {
  import opened Timing
  import opened Protocol
  import opened Lines
  import opened AsyncShiftIn

  /** One `loop()` call: the `micros()` reading and the level on the data pin. */
  datatype Tick = Tick(now: Micros, data: Level)

  /** The accumulated effect of a sequence of calls: final record, all writes, all callbacks. */
  datatype Trace = Trace(driver: Driver, writes: seq<PinWrite>, events: seq<Event>)

  /** The effect of calling `loop()` once per tick, gate included. */
  function Polls(d: Driver, cfg: Config, ticks: seq<Tick>, h: Handlers): Trace
    decreases |ticks|
  {
    if |ticks| == 0 then Trace(d, [], [])
    else
      var o := Poll(d, cfg, ticks[0].now, ticks[0].data, h);
      var r := Polls(o.driver, cfg, ticks[1..], h);
      Trace(r.driver, o.writes + r.writes, o.events + r.events)
  }

  /**
   The effect of a sequence of calls that each pass the gate. Calls held at the
   gate change nothing (see `AsyncShiftIn.Poll`), so these are the calls that
   make up the protocol.
   */
  function Steps(d: Driver, cfg: Config, ticks: seq<Tick>, h: Handlers): Trace
    decreases |ticks|
  {
    if |ticks| == 0 then Trace(d, [], [])
    else
      var o := Fire(d, cfg, ticks[0].now, ticks[0].data, h);
      var r := Steps(o.driver, cfg, ticks[1..], h);
      Trace(r.driver, o.writes + r.writes, o.events + r.events)
  }

  /** Running two sequences of steps one after the other is running their concatenation. */
  lemma {:induction false} StepsConcat(d: Driver, cfg: Config, a: seq<Tick>, b: seq<Tick>, h: Handlers)
    ensures var ra := Steps(d, cfg, a, h);
            var rb := Steps(ra.driver, cfg, b, h);
            Steps(d, cfg, a + b, h) == Trace(rb.driver, ra.writes + rb.writes, ra.events + rb.events)
    decreases |a|
  {
    if |a| == 0 {
      assert a + b == b;
    } else {
      var o := Fire(d, cfg, a[0].now, a[0].data, h);
      assert (a + b)[0] == a[0];
      assert (a + b)[1..] == a[1..] + b;
      StepsConcat(o.driver, cfg, a[1..], b, h);
      var ra := Steps(o.driver, cfg, a[1..], h);
      var rb := Steps(ra.driver, cfg, b, h);
      assert o.writes + (ra.writes + rb.writes) == (o.writes + ra.writes) + rb.writes;
      assert o.events + (ra.events + rb.events) == (o.events + ra.events) + rb.events;
    }
  }

  // ---------------------------------------------------------------------------
  // The bit counter
  // ---------------------------------------------------------------------------

  /** The largest value the bit counter reaches: the length, but at least 2. */
  function Top(length: nat): nat
  {
    if length < 2 then 2 else length
  }

  /**
   The values the bit counter can hold in each state, for a program with
   (`shift`) or without the shift callback. With the callback, the counter is 0
   through the reset pulse, 1 at `Res6Sample`, and counts the bits delivered so
   far in the read states. Without it, the counter is 0 except before the first
   cycle after `setLength`.
   */
  predicate Consistent(d: Driver, shift: bool)
  {
    if shift then
      match d.state
      case Res6Sample => d.nextBit == 1
      case ReadHigh => 1 <= d.nextBit < Top(d.length)
      case ReadLow => 1 <= d.nextBit < Top(d.length)
      case ReadSample => d.nextBit == d.length || 2 <= d.nextBit <= Top(d.length)
      case _ => d.nextBit == 0
    else
      d.nextBit == 0 || (d.state == ReadSample && d.nextBit == d.length)
  }

  /** `setLength` establishes the invariant, with or without the shift callback. */
  lemma RestartIsConsistent(n: nat)
    ensures Consistent(SetLength(n), true)
    ensures Consistent(SetLength(n), false)
  {
  }

  /** Every `loop()` call keeps the invariant and the length. */
  lemma PollKeepsConsistent(d: Driver, cfg: Config, now: Micros, data: Level, h: Handlers)
    requires Consistent(d, h.shift)
    ensures var o := Poll(d, cfg, now, data, h);
            Consistent(o.driver, h.shift) && o.driver.length == d.length
  {
  }

  /**
   Under the invariant the counter never exceeds `Top(length)`, and a bit event
   carries an index below it. For registers of two bits or more this is the range
   `[0, length]` for the counter and `[0, length)` for the indices; so the counter
   fits any unsigned type that holds the length and 2.
   */
  lemma CounterBounded(d: Driver, cfg: Config, now: Micros, data: Level, h: Handlers)
    requires Consistent(d, h.shift)
    ensures d.nextBit <= Top(d.length)
    ensures h.shift && d.length >= 2 ==> d.nextBit <= d.length
    ensures forall e :: e in Poll(d, cfg, now, data, h).events && e.Shifted? ==> e.bit < Top(d.length)
  {
  }

  /**
   Over any sequence of `loop()` calls from a consistent record, the invariant
   and the length are kept, and every bit event's index is below `Top(length)`.
   */
  lemma {:induction false} PollsKeepConsistent(d: Driver, cfg: Config, ticks: seq<Tick>, h: Handlers)
    requires Consistent(d, h.shift)
    ensures var r := Polls(d, cfg, ticks, h);
            && Consistent(r.driver, h.shift)
            && r.driver.length == d.length
            && r.driver.nextBit <= Top(d.length)
            && forall e :: e in r.events && e.Shifted? ==> e.bit < Top(d.length)
    decreases |ticks|
  {
    if |ticks| > 0 {
      var o := Poll(d, cfg, ticks[0].now, ticks[0].data, h);
      PollKeepsConsistent(d, cfg, ticks[0].now, ticks[0].data, h);
      CounterBounded(d, cfg, ticks[0].now, ticks[0].data, h);
      PollsKeepConsistent(o.driver, cfg, ticks[1..], h);
      CounterBounded(Polls(o.driver, cfg, ticks[1..], h).driver, cfg, ticks[0].now, ticks[0].data, h);
    }
  }

  // ---------------------------------------------------------------------------
  // The waveform on the control lines
  // ---------------------------------------------------------------------------

  /**
   Over any sequence of `loop()` calls, the writes performed carry the lines from
   the waveform of the first state to the waveform of the last: the lines always
   show `ExpectedLevels` of the current state.
   */
  lemma {:induction false} LinesFollowWaveform(d: Driver, cfg: Config, ticks: seq<Tick>, h: Handlers)
    ensures var r := Polls(d, cfg, ticks, h);
            Apply(ExpectedLevels(d.state), r.writes) == ExpectedLevels(r.driver.state)
    decreases |ticks|
  {
    if |ticks| > 0 {
      var o := Poll(d, cfg, ticks[0].now, ticks[0].data, h);
      var r := Polls(o.driver, cfg, ticks[1..], h);
      OutputsFollowWaveform(d.state, d.nextBit, d.length);
      ApplyConcat(ExpectedLevels(d.state), o.writes, r.writes);
      LinesFollowWaveform(o.driver, cfg, ticks[1..], h);
    }
  }

  /** From `init` and `setLength`, the lines always show the waveform of the current state. */
  lemma LinesFromInit(n: nat, cfg: Config, ticks: seq<Tick>, h: Handlers)
    ensures var r := Polls(SetLength(n), cfg, ticks, h);
            Apply(InitialLevels, r.writes) == ExpectedLevels(r.driver.state)
  {
    InitialLevelsMatchRestart();
    LinesFollowWaveform(SetLength(n), cfg, ticks, h);
  }

  // ---------------------------------------------------------------------------
  // One read cycle
  // ---------------------------------------------------------------------------

  /** `e` is the shift callback for bit index `k` with level `level`. */
  predicate IsBit(e: Event, k: nat, level: Level)
  {
    e.Shifted? && e.bit == k && e.level == level
  }

  /** From `Res1`..`Res5`, the steps up to `Res6` deliver nothing and leave the counter at 0. */
  lemma {:induction false} ResetPulse(d: Driver, cfg: Config, ticks: seq<Tick>, h: Handlers)
    requires Position(d.state) < 5 && d.nextBit == 0
    requires |ticks| == 5 - Position(d.state)
    ensures var r := Steps(d, cfg, ticks, h);
            && r.driver.state == Res6
            && r.driver.nextBit == 0
            && r.driver.length == d.length
            && r.events == []
    decreases |ticks|
  {
    var o := Fire(d, cfg, ticks[0].now, ticks[0].data, h);
    assert Position(o.driver.state) == Position(d.state) + 1;
    if |ticks| > 1 {
      ResetPulse(o.driver, cfg, ticks[1..], h);
    }
  }

  /**
   The reset sub-cycle: six steps from `Res1` reach `Res6Sample`, whose sample is
   delivered as bit 0.
   */
  lemma ResetPhase(d: Driver, cfg: Config, ticks: seq<Tick>, h: Handlers)
    requires h.shift && d.state == Res1 && d.nextBit == 0
    requires |ticks| == 6
    ensures var r := Steps(d, cfg, ticks, h);
            && r.driver.state == Res6Sample
            && r.driver.nextBit == 1
            && r.driver.length == d.length
            && |r.events| == 1
            && IsBit(r.events[0], 0, ticks[5].data)
  {
    StepsConcat(d, cfg, ticks[..5], ticks[5..], h);
    assert ticks[..5] + ticks[5..] == ticks;
    ResetPulse(d, cfg, ticks[..5], h);
  }

  /**
   One read sub-cycle: from `Res6Sample`, or from `ReadSample` while bits remain,
   three steps reach `ReadSample` again and deliver the sample taken there under
   the counter's value, which then grows by one.
   */
  lemma ReadBitOnce(d: Driver, cfg: Config, ticks: seq<Tick>, h: Handlers)
    requires h.shift
    requires d.state == Res6Sample || (d.state == ReadSample && d.nextBit < d.length)
    requires |ticks| == 3
    ensures var r := Steps(d, cfg, ticks, h);
            && r.driver.state == ReadSample
            && r.driver.nextBit == d.nextBit + 1
            && r.driver.length == d.length
            && |r.events| == 1
            && IsBit(r.events[0], d.nextBit, ticks[2].data)
  {
    var o1 := Fire(d, cfg, ticks[0].now, ticks[0].data, h);
    var o2 := Fire(o1.driver, cfg, ticks[1].now, ticks[1].data, h);
    assert ticks[1..][1..] == ticks[2..];
    assert Steps(o2.driver, cfg, ticks[2..], h).events
        == Fire(o2.driver, cfg, ticks[2].now, ticks[2].data, h).events;
  }

  /**
   The step that closes a cycle: from `ReadSample` with every bit delivered, the
   machine enters `Res1`, zeroes the counter and fires the reset callback if
   present.
   */
  lemma CloseCycle(d: Driver, cfg: Config, ticks: seq<Tick>, h: Handlers)
    requires d.state == ReadSample && d.nextBit >= d.length
    requires |ticks| == 1
    ensures var r := Steps(d, cfg, ticks, h);
            && r.driver.state == Res1
            && r.driver.nextBit == 0
            && r.driver.length == d.length
            && |r.events| == (if h.reset then 1 else 0)
            && (h.reset ==> r.events[0].Completed?)
  {
  }

  /**
   The read phase: from `Res6Sample`, or from `ReadSample` while bits remain, the
   bits from the counter's value up to `length - 1` are delivered in order, each
   with the level sampled three steps after the previous one; one more step
   closes the cycle in `Res1` with the counter back at 0.
   */
  lemma {:induction false} ReadPhase(d: Driver, cfg: Config, ticks: seq<Tick>, h: Handlers)
    requires h.shift
    requires d.state == Res6Sample || d.state == ReadSample
    requires d.nextBit < d.length
    requires |ticks| == 3 * (d.length - d.nextBit) + 1
    ensures var r := Steps(d, cfg, ticks, h);
            && r.driver.state == Res1
            && r.driver.nextBit == 0
            && r.driver.length == d.length
            && |r.events| == d.length - d.nextBit + (if h.reset then 1 else 0)
            && (forall j :: 0 <= j < d.length - d.nextBit ==>
                  IsBit(r.events[j], d.nextBit + j, ticks[2 + 3 * j].data))
            && (h.reset ==> r.events[d.length - d.nextBit].Completed?)
    decreases d.length - d.nextBit
  {
    var a, b := ticks[..3], ticks[3..];
    assert a + b == ticks;
    StepsConcat(d, cfg, a, b, h);
    ReadBitOnce(d, cfg, a, h);
    var ra := Steps(d, cfg, a, h);
    var rb := Steps(ra.driver, cfg, b, h);
    if ra.driver.nextBit < d.length {
      ReadPhase(ra.driver, cfg, b, h);
      BitsExtend(ra.events, rb.events, d.nextBit, d.length - d.nextBit, ticks, 2);
    } else {
      CloseCycle(ra.driver, cfg, b, h);
    }
  }

  /**
   Bits sampled every three ticks: prepending the bit sampled at tick `p` to the
   bits sampled every three ticks after tick `p + 1`.
   */
  lemma BitsExtend(first: seq<Event>, rest: seq<Event>, k: nat, n: nat, ticks: seq<Tick>, p: nat)
    requires 1 <= n && |rest| >= n - 1 && |ticks| >= p + 3 * n - 2
    requires |first| == 1 && IsBit(first[0], k, ticks[p].data)
    requires forall j :: 0 <= j < n - 1 ==> IsBit(rest[j], k + 1 + j, ticks[p + 1..][3 * j + 2].data)
    ensures forall j :: 0 <= j < n ==> IsBit((first + rest)[j], k + j, ticks[p + 3 * j].data)
  {
  }

  /**
   A full read cycle of a register of two bits or more, with the shift callback
   present: from one reset event to the next, `3 * length + 4` steps deliver
   exactly `length` bit events with indices `0, 1, ..., length - 1` in order
   (index 0 sampled in `Res6Sample`, the others in successive `ReadSample`s),
   then the reset event, and the machine is back where it started.
   */
  lemma FullCycle(d: Driver, cfg: Config, ticks: seq<Tick>, h: Handlers)
    requires h.shift && d.state == Res1 && d.nextBit == 0 && d.length >= 2
    requires |ticks| == 3 * d.length + 4
    ensures var r := Steps(d, cfg, ticks, h);
            && r.driver.state == Res1
            && r.driver.nextBit == 0
            && r.driver.length == d.length
            && |r.events| == d.length + (if h.reset then 1 else 0)
            && (forall k :: 0 <= k < d.length ==> IsBit(r.events[k], k, ticks[5 + 3 * k].data))
            && (h.reset ==> r.events[d.length].Completed?)
  {
    var a, b := ticks[..6], ticks[6..];
    assert a + b == ticks;
    StepsConcat(d, cfg, a, b, h);
    ResetPhase(d, cfg, a, h);
    var ra := Steps(d, cfg, a, h);
    ReadPhase(ra.driver, cfg, b, h);
    var rb := Steps(ra.driver, cfg, b, h);
    BitsExtend(ra.events, rb.events, 0, d.length, ticks, 5);
  }

  /**
   A register of length 0 or 1 is not validated and still reads two bits per
   cycle: `Res6Sample` delivers index 0 and the one read sub-cycle that always
   follows delivers index 1, so the counter reaches 2, beyond the length.
   */
  lemma ShortRegisterReadsTwoBits(d: Driver, cfg: Config, ticks: seq<Tick>, h: Handlers)
    requires h.shift && d.state == Res1 && d.nextBit == 0 && d.length <= 1
    requires |ticks| == 10
    ensures var r := Steps(d, cfg, ticks, h);
            && r.driver.state == Res1
            && r.driver.nextBit == 0
            && |r.events| == 2 + (if h.reset then 1 else 0)
            && IsBit(r.events[0], 0, ticks[5].data)
            && IsBit(r.events[1], 1, ticks[8].data)
            && (h.reset ==> r.events[2].Completed?)
  {
    var a, b, c := ticks[..6], ticks[6..9], ticks[9..];
    assert b + c == ticks[6..];
    assert a + (b + c) == ticks;
    StepsConcat(d, cfg, a, b + c, h);
    ResetPhase(d, cfg, a, h);
    var ra := Steps(d, cfg, a, h);
    StepsConcat(ra.driver, cfg, b, c, h);
    ReadBitOnce(ra.driver, cfg, b, h);
    var rb := Steps(ra.driver, cfg, b, h);
    assert c == [ticks[9]];
    assert Steps(rb.driver, cfg, c, h).events
        == Fire(rb.driver, cfg, ticks[9].now, ticks[9].data, h).events;
  }

  // ---------------------------------------------------------------------------
  // Without the shift callback
  // ---------------------------------------------------------------------------

  /** The number of reset callbacks in a list of events. */
  function Resets(es: seq<Event>): nat
  {
    if |es| == 0 then 0 else (if es[0].Completed? then 1 else 0) + Resets(es[1..])
  }

  /**
   Without the shift callback the counter is never incremented: once it is 0, a
   register of one bit or more never completes a cycle again. The machine loops
   through the read states forever and the reset callback never fires.
   */
  lemma {:induction false} StuckWithoutShiftHandler(d: Driver, cfg: Config, ticks: seq<Tick>, h: Handlers)
    requires !h.shift && d.nextBit == 0 && d.length >= 1
    ensures var r := Polls(d, cfg, ticks, h);
            r.driver.nextBit == 0 && r.driver.length == d.length && Resets(r.events) == 0
    decreases |ticks|
  {
    if |ticks| > 0 {
      var o := Poll(d, cfg, ticks[0].now, ticks[0].data, h);
      StuckWithoutShiftHandler(o.driver, cfg, ticks[1..], h);
      var r := Polls(o.driver, cfg, ticks[1..], h);
      assert o.events == [];
      assert o.events + r.events == r.events;
    }
  }

  /**
   Without the shift callback, a register of one bit or more fires the reset
   callback at most once after `setLength`: for the cycle that `setLength` forces.
   */
  lemma {:induction false} AtMostOneResetWithoutShiftHandler(n: nat, cfg: Config, ticks: seq<Tick>, h: Handlers)
    requires !h.shift && n >= 1
    ensures Resets(Polls(SetLength(n), cfg, ticks, h).events) <= 1
    decreases |ticks|
  {
    if |ticks| > 0 {
      var d := SetLength(n);
      var o := Poll(d, cfg, ticks[0].now, ticks[0].data, h);
      var r := Polls(o.driver, cfg, ticks[1..], h);
      if o.driver == d {
        assert o.events == [];
        assert o.events + r.events == r.events;
        AtMostOneResetWithoutShiftHandler(n, cfg, ticks[1..], h);
      } else {
        StuckWithoutShiftHandler(o.driver, cfg, ticks[1..], h);
        assert |o.events| <= 1;
        if |o.events| == 1 {
          assert (o.events + r.events)[1..] == r.events;
        } else {
          assert o.events + r.events == r.events;
        }
      }
    }
  }
}
