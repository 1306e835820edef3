/**
 The control lines the driver writes (clock, load and reset) and the per-state
 output table of `setupOutput`. `digitalWrite` is modelled as a list of
 (role, level) writes that a step emits; the levels the lines then carry are
 obtained by applying the writes in order.
 */
module Lines {
  import opened Protocol

  /** A logic level, `LOW` or `HIGH`. */
  datatype Level = Low | High

  /** The three output lines of the pin configuration. */
  datatype Role = Clock | Load | Reset

  /** One `digitalWrite` call. */
  datatype PinWrite = PinWrite(role: Role, level: Level)

  /** The levels currently driven on the three output lines. */
  datatype Levels = Levels(clock: Level, load: Level, reset: Level)

  /** The levels `init` drives before the first cycle: all three lines low. */
  const InitialLevels: Levels := Levels(Low, Low, Low)

  /** The line levels after one write. */
  function Put(l: Levels, w: PinWrite): (r: Levels)
    ensures w.role == Clock ==> r == l.(clock := w.level)
    ensures w.role == Load ==> r == l.(load := w.level)
    ensures w.role == Reset ==> r == l.(reset := w.level)
  {
    match w.role
    case Clock => l.(clock := w.level)
    case Load => l.(load := w.level)
    case Reset => l.(reset := w.level)
  }

  /** The line levels after a list of writes, performed in order. */
  function Apply(l: Levels, ws: seq<PinWrite>): Levels
    decreases |ws|
  {
    if |ws| == 0 then l else Apply(Put(l, ws[0]), ws[1..])
  }

  /** Writing two lists one after the other is writing their concatenation. */
  lemma {:induction false} ApplyConcat(l: Levels, a: seq<PinWrite>, b: seq<PinWrite>)
    ensures Apply(l, a + b) == Apply(Apply(l, a), b)
    decreases |a|
  {
    if |a| == 0 {
      assert a + b == b;
    } else {
      assert (a + b)[1..] == a[1..] + b;
      ApplyConcat(Put(l, a[0]), a[1..], b);
    }
  }

  /** Short write lists, unfolded. */
  lemma ApplyShort(l: Levels, ws: seq<PinWrite>)
    requires |ws| <= 2
    ensures |ws| == 0 ==> Apply(l, ws) == l
    ensures |ws| == 1 ==> Apply(l, ws) == Put(l, ws[0])
    ensures |ws| == 2 ==> Apply(l, ws) == Put(Put(l, ws[0]), ws[1])
  {
    if |ws| > 0 {
      assert Apply(l, ws) == Apply(Put(l, ws[0]), ws[1..]);
      if |ws| == 2 {
        assert Apply(Put(l, ws[0]), ws[1..]) == Apply(Put(Put(l, ws[0]), ws[1]), ws[1..][1..]);
      }
    }
  }

  /** `setupOutput`: the writes performed on entering state `s`, in order. */
  function Outputs(s: State): (ws: seq<PinWrite>)
    ensures IsSampleState(s) <==> ws == []
    ensures |ws| <= 2
  {
    match s
    case ReadHigh => [PinWrite(Clock, High)]
    case ReadLow => [PinWrite(Clock, Low)]
    case ReadSample => []
    case Res1 => [PinWrite(Clock, Low), PinWrite(Load, High)]
    case Res2 => [PinWrite(Clock, High)]
    case Res3 => [PinWrite(Clock, Low)]
    case Res4 => [PinWrite(Reset, High)]
    case Res5 => [PinWrite(Reset, Low)]
    case Res6 => [PinWrite(Load, Low)]
    case Res6Sample => []
  }

  /**
   The waveform the protocol produces: the line levels that hold while the
   machine is in state `s`. The clock is high in `ReadHigh` and `Res2`, the load
   line is high from `Res1` through `Res5`, and the reset line only in `Res4`.
   */
  function ExpectedLevels(s: State): Levels
  {
    Levels(
      if s == ReadHigh || s == Res2 then High else Low,
      if s == Res1 || s == Res2 || s == Res3 || s == Res4 || s == Res5 then High else Low,
      if s == Res4 then High else Low)
  }

  /** `init` leaves the lines as the waveform prescribes for `ReadSample`, the state `setLength` selects. */
  lemma InitialLevelsMatchRestart()
    ensures InitialLevels == ExpectedLevels(ReadSample)
  {
  }

  /**
   Re-applying a state's output writes changes nothing: the output table is
   idempotent, whatever the lines carried before.
   */
  lemma OutputsIdempotent(l: Levels, s: State)
    ensures Apply(Apply(l, Outputs(s)), Outputs(s)) == Apply(l, Outputs(s))
  {
    var ws := Outputs(s);
    ApplyShort(l, ws);
    ApplyShort(Apply(l, ws), ws);
  }

  /**
   Every transition's output writes carry the waveform of the old state to the
   waveform of the new one: the output table realises the clock square wave,
   the load pulse and the reset pulse.
   */
  lemma OutputsFollowWaveform(s: State, nextBit: nat, length: nat)
    ensures var t := Transition(s, nextBit, length);
            Apply(ExpectedLevels(s), Outputs(t.state)) == ExpectedLevels(t.state)
  {
    var t := Transition(s, nextBit, length);
    ApplyShort(ExpectedLevels(s), Outputs(t.state));
  }
}
