/** The module's constants and the integer arithmetic that turns a channel's
    frequency (Hz) and duty cycle (percent) into timer delays (ns). */
module Timing {

  import opened Arith

  const NANO_SEC: int := 1_000_000_000
  const MICRO_SEC: int := 1_000_000

  const DEFAULT_FREQ: int := 1000
  const DEFAULT_DUTY_CYCLE: int := 50

  /** Largest value of a 32-bit C `int`. */
  const INT_MAX: int := 0x7fff_ffff

  /** The settings a channel is modelled for: a positive frequency of at most
      one per nanosecond (so the period is at least 1 ns) and a duty cycle in
      percent. The module itself only ever uses the defaults. */
  predicate ValidSettings(freq: int, dc: int) {
    0 < freq <= NANO_SEC && 0 <= dc <= 100
  }

  /** `NANO_SEC / freq` (pwm.c:72): the period in whole nanoseconds, i.e. the
      largest length of which `freq` copies fit into one second. Both operands
      are positive, so C's truncating division agrees with Dafny's. */
  function RisingIntervalNs(freq: int): (r: nat)
    requires 0 < freq <= NANO_SEC
    ensures 1 <= r
    ensures r * freq <= NANO_SEC < (r + 1) * freq
  {
    DivFloor(NANO_SEC, freq)
  }

  /** `(MICRO_SEC * 10 * dc) / freq` (pwm.c:50): the high time in whole
      nanoseconds, the largest length of which `freq` copies fit into `dc`
      hundredths of a second. */
  function HighTimeNs(dc: int, freq: int): (r: nat)
    requires ValidSettings(freq, dc)
    ensures r * freq <= MICRO_SEC * 10 * dc < (r + 1) * freq
  {
    DivFloor(MICRO_SEC * 10 * dc, freq)
  }

  /** The products formed on the way never leave the range of a C `int`, so
      modelling them with unbounded integers is exact. */
  lemma ArithmeticFitsInInt(freq: int, dc: int)
    requires ValidSettings(freq, dc)
    ensures NANO_SEC <= INT_MAX
    ensures 0 <= MICRO_SEC * 10 * dc <= INT_MAX
  {
  }

  /** With the default settings the period is 1 ms and the high time half
      of it. */
  lemma DefaultTiming()
    ensures RisingIntervalNs(DEFAULT_FREQ) == 1_000_000
    ensures HighTimeNs(DEFAULT_DUTY_CYCLE, DEFAULT_FREQ) == 500_000
  {
  }

  /** The high time never exceeds the period, is zero for 0 % and is the
      whole period for 100 %. */
  lemma {:induction false} HighTimeWithinPeriod(freq: int, dc: int)
    requires ValidSettings(freq, dc)
    ensures HighTimeNs(dc, freq) <= RisingIntervalNs(freq)
    ensures dc == 0 ==> HighTimeNs(dc, freq) == 0
    ensures dc == 100 ==> HighTimeNs(dc, freq) == RisingIntervalNs(freq)
  {
    var h, t := HighTimeNs(dc, freq), RisingIntervalNs(freq);
    MulMonotone(dc, 100, MICRO_SEC * 10);
    assert h * freq < (t + 1) * freq;
    LessByFactor(h, t + 1, freq);
    if dc == 0 {
      LessByFactor(h, 1, freq);
    }
  }

  /** The high time is `dc` percent of the period, up to the rounding of
      the two divisions: `dc * t1 / 100` rounded either way. */
  lemma {:induction false} HighTimeIsDutyPercent(freq: int, dc: int)
    requires ValidSettings(freq, dc)
    ensures dc * RisingIntervalNs(freq) < 100 * (HighTimeNs(dc, freq) + 1)
    ensures 100 * HighTimeNs(dc, freq) <= dc * (RisingIntervalNs(freq) + 1)
  {
    var h, t := HighTimeNs(dc, freq), RisingIntervalNs(freq);
    // dc * t * freq <= dc * NANO_SEC == 100 * (10 * MICRO_SEC * dc) < 100 * (h + 1) * freq
    MulMonotone(t * freq, NANO_SEC, dc);
    assert (dc * t) * freq == dc * (t * freq);
    assert (100 * (h + 1)) * freq == 100 * ((h + 1) * freq);
    LessByFactor(dc * t, 100 * (h + 1), freq);
    // 100 * h * freq <= 100 * (10 * MICRO_SEC * dc) == dc * NANO_SEC <= dc * (t + 1) * freq
    MulMonotone(NANO_SEC, (t + 1) * freq, dc);
    assert (100 * h) * freq == 100 * (h * freq);
    assert (dc * (t + 1)) * freq == dc * ((t + 1) * freq);
    AtMostByFactor(100 * h, dc * (t + 1), freq);
  }
}
