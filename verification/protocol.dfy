/**
 The protocol of the driver: its ten states, the transition performed by
 `stateTransition`, and the per-state sleep durations set by
 `setupSleepDuration`.
 */
module Protocol {

  /** `AsyncShiftIn::State`, in declaration order. */
  datatype State =
    | Res1 | Res2 | Res3 | Res4 | Res5 | Res6 | Res6Sample
    | ReadHigh | ReadLow | ReadSample

  /**
   The fixed cycle the machine walks through, in the order of the enum. Apart
   from the one branch in `ReadSample`, every state's successor is the next
   element of this ring.
   */
  const Ring: seq<State> :=
    [Res1, Res2, Res3, Res4, Res5, Res6, Res6Sample, ReadHigh, ReadLow, ReadSample]

  /** The place of a state in the ring (its enum ordinal). */
  function Position(s: State): (i: nat)
    ensures i < |Ring| && Ring[i] == s
  {
    match s
    case Res1 => 0
    case Res2 => 1
    case Res3 => 2
    case Res4 => 3
    case Res5 => 4
    case Res6 => 5
    case Res6Sample => 6
    case ReadHigh => 7
    case ReadLow => 8
    case ReadSample => 9
  }

  /** The enum has exactly ten values and the ring lists each of them once. */
  lemma RingEnumeratesStates()
    ensures |Ring| == 10
    ensures forall s: State :: Ring[Position(s)] == s
    ensures forall i, j :: 0 <= i < j < |Ring| ==> Ring[i] != Ring[j]
  {
  }

  /** The two states in which `loop()` reads the data pin. */
  predicate IsSampleState(s: State)
  {
    s == ReadSample || s == Res6Sample
  }

  /** The states driven by the clock period; the rest use the reset period. */
  predicate IsReadPhase(s: State)
  {
    s == ReadHigh || s == ReadLow || s == ReadSample
  }

  /** The states that wait only half of their phase's period. */
  predicate IsHalfSlot(s: State)
  {
    s == ReadLow || s == ReadSample || s == Res6 || s == Res6Sample
  }

  /** The state and bit counter after `stateTransition`. */
  datatype Transit = Transit(state: State, nextBit: nat)

  /**
   `stateTransition`: one step along the ring. The only data-dependent branch
   is in `ReadSample`: while bits remain it goes back to `ReadHigh`, otherwise
   it continues along the ring to `Res1`, which zeroes the bit counter.
   */
  function Transition(s: State, nextBit: nat, length: nat): (t: Transit)
    ensures t.state == Res1 <==> s == ReadSample && nextBit >= length
    ensures t.nextBit == (if t.state == Res1 then 0 else nextBit)
  {
    match s
    case ReadHigh => Transit(ReadLow, nextBit)
    case ReadLow => Transit(ReadSample, nextBit)
    case ReadSample =>
      if nextBit < length then Transit(ReadHigh, nextBit) else Transit(Res1, 0)
    case Res1 => Transit(Res2, nextBit)
    case Res2 => Transit(Res3, nextBit)
    case Res3 => Transit(Res4, nextBit)
    case Res4 => Transit(Res5, nextBit)
    case Res5 => Transit(Res6, nextBit)
    case Res6 => Transit(Res6Sample, nextBit)
    case Res6Sample => Transit(ReadHigh, nextBit)
  }

  /**
   The transition agrees with the ring: every state moves to its successor on
   the ring, except `ReadSample` while bits remain, which returns to `ReadHigh`.
   */
  lemma TransitionFollowsRing(s: State, nextBit: nat, length: nat)
    ensures Transition(s, nextBit, length).state ==
              if s == ReadSample && nextBit < length then ReadHigh
              else Ring[(Position(s) + 1) % |Ring|]
  {
  }

  /**
   `setupSleepDuration`: how long the machine waits in state `s`. Read states
   are timed by the clock period, reset states by the reset period; half slots
   wait half the period (truncated), the others a full period.
   */
  function SleepFor(s: State, clkPeriod: nat, resetPeriod: nat): (d: nat)
    ensures IsReadPhase(s) ==> d <= clkPeriod
    ensures !IsReadPhase(s) ==> d <= resetPeriod
    ensures var period := if IsReadPhase(s) then clkPeriod else resetPeriod;
            if IsHalfSlot(s) then 2 * d <= period < 2 * d + 2 else d == period
  {
    match s
    case ReadHigh => clkPeriod
    case ReadLow => clkPeriod / 2
    case ReadSample => clkPeriod / 2
    case Res1 => resetPeriod
    case Res2 => resetPeriod
    case Res3 => resetPeriod
    case Res4 => resetPeriod
    case Res5 => resetPeriod
    case Res6 => resetPeriod / 2
    case Res6Sample => resetPeriod / 2
  }

  /**
   One read sub-cycle (`ReadHigh`, `ReadLow`, `ReadSample`) sleeps two clock
   periods in all, one microsecond less when the period is odd.
   */
  lemma ReadBitSleepsTwoClockPeriods(clkPeriod: nat, resetPeriod: nat)
    ensures var total := SleepFor(ReadHigh, clkPeriod, resetPeriod)
                       + SleepFor(ReadLow, clkPeriod, resetPeriod)
                       + SleepFor(ReadSample, clkPeriod, resetPeriod);
            2 * clkPeriod - 1 <= total <= 2 * clkPeriod
  {
  }

  /**
   The reset sub-cycle (`Res1` to `Res6Sample`) sleeps six reset periods in
   all, one microsecond less when the period is odd.
   */
  lemma ResetSleepsSixResetPeriods(clkPeriod: nat, resetPeriod: nat)
    ensures var total := SleepFor(Res1, clkPeriod, resetPeriod)
                       + SleepFor(Res2, clkPeriod, resetPeriod)
                       + SleepFor(Res3, clkPeriod, resetPeriod)
                       + SleepFor(Res4, clkPeriod, resetPeriod)
                       + SleepFor(Res5, clkPeriod, resetPeriod)
                       + SleepFor(Res6, clkPeriod, resetPeriod)
                       + SleepFor(Res6Sample, clkPeriod, resetPeriod);
            6 * resetPeriod - 1 <= total <= 6 * resetPeriod
  {
  }
}
