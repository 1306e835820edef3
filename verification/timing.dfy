/**
 The driver's notion of time. `SleepTimeType` is `unsigned long`, which is 32
 bits wide on the AVR boards the driver targets, and `micros()` wraps around
 at 2^32. Elapsed time is computed by unsigned subtraction, which is what makes
 the timing gate correct across a wrap-around of the clock.
 */
module Timing {

  /** 2^32: the modulus of `unsigned long` arithmetic. */
  const Modulus: int := 0x1_0000_0000

  /** A value of type `SleepTimeType` (and a reading of `micros()`). */
  type Micros = x: int | 0 <= x < 0x1_0000_0000

  /** Reduce an unbounded integer to the 32-bit unsigned range, as C does. */
  function Wrap(x: int): Micros
  {
    x % Modulus
  }

  /**
   `now - since` in unsigned 32-bit arithmetic: the one value in range that,
   added to `since`, gives `now` again modulo 2^32.
   */
  function Elapsed(now: Micros, since: Micros): (e: Micros)
    ensures Wrap(since + e) == now
    ensures since <= now ==> e == now - since
    ensures now < since ==> e == Modulus - since + now
  {
    Wrap(now - since)
  }

  /** Modular subtraction has exactly one answer in range. */
  lemma ElapsedIsUnique(now: Micros, since: Micros, e: Micros)
    requires Wrap(since + e) == now
    ensures e == Elapsed(now, since)
  {
  }

  /**
   A reading taken `delay` microseconds after `since` measures exactly `delay`,
   even when the clock wrapped around in between.
   */
  lemma ElapsedMeasuresDelay(since: Micros, delay: Micros)
    ensures Elapsed(Wrap(since + delay), since) == delay
  {
  }

  /** The timing gate of `loop()`: it opens only once strictly more than `sleep` has elapsed. */
  predicate GateOpen(now: Micros, since: Micros, sleep: Micros)
  {
    Elapsed(now, since) > sleep
  }

  /** The gate opens `delay` after `since` exactly when `delay` exceeds the sleep duration. */
  lemma GateOpensAfterSleep(since: Micros, sleep: Micros, delay: Micros)
    ensures GateOpen(Wrap(since + delay), since, sleep) <==> delay > sleep
  {
  }
}
