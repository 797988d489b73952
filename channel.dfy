/** One PWM channel (`struct pwm_channel`) and its waveform state machine:
    `tm1` fires once per period and drives the line high, `tm2` is armed by
    it for the high time and drives the line low. */
module PwmChannel {

  import opened Timing
  import opened HrTimer
  import opened Gpio

  class Channel {
    var tm1: Timer
    var tm2: Timer
    /** The period in nanoseconds, the interval `tm1` runs at. */
    var t1: int
    // Written once when the channel is allocated and never again.
    const freq: int
    const dc: int
    const gpio: int
    /** The state of the GPIO line `gpio`. */
    var line: Line

    /** The clock reading at which `init_channel` armed `tm1`. */
    ghost var origin: int
    /** How many whole periods after `origin` `tm1` expires. */
    ghost var edges: nat

    /** The timers and the line are set up as `init_channel` leaves them. */
    ghost predicate Configured()
      reads this
    {
      && ValidSettings(freq, dc)
      && tm1.initialized && tm1.callback == RisingEdge
      && tm2.initialized && tm2.callback == FallingEdge
      && t1 == RisingIntervalNs(freq)
      && line.isOutput
    }

    /** A started channel between two timer events. The rising timer is always
        queued and its expiry stays on the grid `origin + n * t1`, however late
        its callbacks run (no drift). The falling timer is queued only in the
        high phase, armed for the high time; at 100 % it is never queued and
        the line never leaves high. */
    ghost predicate Running()
      reads this
    {
      && Configured()
      && tm1.queued && tm1.delay == t1
      && tm1.expires == origin + edges * t1
      && (tm2.queued ==> line.level == High && tm2.delay == HighTimeNs(dc, freq))
      && (dc == 100 ==> line.level == High && !tm2.queued)
    }

    /** `kmalloc` followed by the writes of `gpio`, `freq` and `dc`: the timers
        are still uninitialised memory and the line is untouched. */
    constructor (gpio: int, freq: int, dc: int)
      requires ValidSettings(freq, dc)
      ensures this.gpio == gpio && this.freq == freq && this.dc == dc
      ensures tm1 == Uninitialized && tm2 == Uninitialized && line == Unclaimed
    {
      this.gpio := gpio;
      this.freq := freq;
      this.dc := dc;
      tm1, tm2, t1 := Uninitialized, Uninitialized, 0;
      line := Unclaimed;
    }

    /** `init_channel` at clock reading `now`; `granted` is whether
        `gpio_request` succeeds, which the code does not look at. The line is
        driven high and only `tm1` is armed, one period ahead. */
    method Init(now: int, granted: bool)
      requires ValidSettings(freq, dc)
      modifies this
      ensures t1 == RisingIntervalNs(freq)
      ensures tm1 == Timer(true, RisingEdge, true, now + t1, t1)
      ensures tm2 == Timer(true, FallingEdge, false, 0, 0)
      ensures line == Line(granted, true, High)
      ensures origin == now && edges == 1
      ensures Running()
    {
      var tNs := RisingIntervalNs(freq);
      tm1 := Initialized;
      tm2 := Initialized;
      t1 := tNs;
      tm1 := WithCallback(tm1, RisingEdge);
      tm2 := WithCallback(tm2, FallingEdge);
      line := line.(requested := granted);
      line := line.(isOutput := true, level := LevelOf(1));
      tm1 := Start(tm1, now, t1);
      origin, edges := now, 1;
    }

    /** `cb1`, run by `tm1` with the timer's clock reading `now`: forwards
        `tm1` by whole periods past `now`, drives the line high and, unless
        the duty cycle is 100 %, starts `tm2` for the high time, which never
        exceeds the period. At 0 % this is a zero delay: the line still goes
        high first. */
    method Cb1(now: int) returns (r: Restart)
      requires Configured() && !tm1.queued
      modifies this`tm1, this`tm2, this`line, this`edges
      ensures r == Restart
      ensures line == old(line).(level := High)
      ensures var f := Forward(old(tm1.expires), now, t1);
              tm1 == old(tm1).(expires := f.expires) && edges == old(edges) + f.overruns
      ensures dc < 100 ==> tm2 == Start(old(tm2), now, HighTimeNs(dc, freq)) && tm2.delay <= t1
      ensures dc == 100 ==> tm2 == old(tm2)
    {
      var f := Forward(tm1.expires, now, t1);
      var ovr := f.overruns;
      tm1 := tm1.(expires := f.expires);
      edges := edges + ovr;
      line := line.(level := LevelOf(1));
      if dc < 100 {
        var tNs := HighTimeNs(dc, freq);
        HighTimeWithinPeriod(freq, dc);
        tm2 := Start(tm2, now, tNs);
      }
      r := Restart;
    }

    /** `cb2`, run by `tm2`: drives the line low and lets the timer stop. It
        changes nothing else. */
    method Cb2() returns (r: Restart)
      modifies this`line
      ensures r == NoRestart
      ensures line == old(line).(level := Low)
    {
      line := line.(level := LevelOf(0));
      r := NoRestart;
    }

    /** The timer core expiring `tm1` at `now`: it takes the timer off the
        queue, runs `cb1` and, as that asks to restart, queues the timer again
        at its forwarded expiry, which lies within one period after `now`. */
    method RisingTimerExpires(now: int)
      requires Running() && tm1.expires <= now
      modifies this`tm1, this`tm2, this`line, this`edges
      ensures Running()
      ensures line == old(line).(level := High)
      ensures dc == 100 ==> tm2 == old(tm2)
      ensures tm1.expires == Forward(old(tm1.expires), now, t1).expires
      ensures now < tm1.expires <= now + t1
      ensures tm2.queued <==> dc < 100
      ensures dc < 100 ==> tm2.expires == now + HighTimeNs(dc, freq)
      ensures dc == 0 ==> tm2.expires == now
    {
      ghost var f := Forward(tm1.expires, now, t1);
      tm1 := tm1.(queued := false);
      var r := Cb1(now);
      if r == Restart {
        tm1 := tm1.(queued := true);
      }
      assert edges * t1 == old(edges) * t1 + f.overruns * t1;
      assert f.expires == old(tm1.expires) + (f.overruns - 1) * t1 + t1;
      HighTimeWithinPeriod(freq, dc);
    }

    /** The timer core expiring `tm2` at `now`: it takes the timer off the queue and
        runs `cb2`, which does not ask for a restart. */
    method FallingTimerExpires(now: int)
      requires Running() && tm2.queued && tm2.expires <= now
      modifies this`tm2, this`line
      ensures Running()
      ensures line == old(line).(level := Low)
      ensures tm2 == old(tm2).(queued := false)
    {
      tm2 := tm2.(queued := false);
      var r := Cb2();
      assert r == NoRestart;  // so the timer stays off the queue
    }

    /** `deinit_channel`: cancels each timer that is queued, skipping one that
        is not, and frees the line. Afterwards neither timer can fire. */
    method Deinit()
      modifies this`tm1, this`tm2, this`line
      ensures !tm1.queued && !tm2.queued && !line.requested
      ensures tm1 == old(tm1).(queued := false) && tm2 == old(tm2).(queued := false)
      // the case of a timer that was not pending, spelled out: it is skipped
      ensures !old(tm1.queued) ==> tm1 == old(tm1)
      ensures !old(tm2.queued) ==> tm2 == old(tm2)
      ensures line == old(line).(requested := false)
    {
      if tm1.queued {
        tm1 := Cancel(tm1);
      }
      if tm2.queued {
        tm2 := Cancel(tm2);
      }
      line := line.(requested := false);
    }
  }
}
