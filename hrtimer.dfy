/** The kernel's high-resolution timer, as abstract state: which callback it
    runs, whether it is queued (pending), its absolute expiry and the relative
    delay it was last started with. Times are nanoseconds on the timer's
    monotonic clock. */
module HrTimer {

  import opened Arith

  /** The function pointer a timer calls on expiry. */
  datatype Callback = NoCallback | RisingEdge | FallingEdge

  /** `enum hrtimer_restart`: what a callback asks of the timer core. */
  datatype Restart = Restart | NoRestart

  datatype Timer = Timer(
    initialized: bool,
    callback: Callback,
    queued: bool,
    expires: int,
    delay: int)

  /** A timer in freshly allocated memory, before `hrtimer_init`. */
  const Uninitialized: Timer := Timer(false, NoCallback, false, 0, 0)

  /** `hrtimer_init(t, CLOCK_MONOTONIC, HRTIMER_MODE_REL)`: inactive, no
      callback yet. */
  const Initialized: Timer := Timer(true, NoCallback, false, 0, 0)

  /** `t.function = cb`. */
  function WithCallback(t: Timer, cb: Callback): Timer {
    t.(callback := cb)
  }

  /** `hrtimer_start(t, delay, HRTIMER_MODE_REL)` at clock reading `now`: a
      queued timer is first removed, then (re)queued to expire `delay` after
      `now`. */
  function Start(t: Timer, now: int, delay: int): (r: Timer)
    ensures r.queued && r.expires == now + delay && r.delay == delay
    ensures r.initialized == t.initialized && r.callback == t.callback
  {
    t.(queued := true, expires := now + delay, delay := delay)
  }

  /** `hrtimer_cancel(t)` once no callback is running: the timer is no longer
      queued. */
  function Cancel(t: Timer): (r: Timer)
    ensures !r.queued
    ensures r.(queued := t.queued) == t
    ensures !t.queued ==> r == t
  {
    t.(queued := false)
  }

  /** Starting a timer again replaces whatever start was pending: only the
      last clock reading and delay matter. */
  lemma StartReplacesPending(t: Timer, now1: int, delay1: int, now: int, delay: int)
    ensures Start(Start(t, now1, delay1), now, delay) == Start(t, now, delay)
  {
  }

  /** The result of `hrtimer_forward`: the new expiry and the overrun count. */
  datatype Forwarded = Forwarded(expires: int, overruns: nat)

  /** `hrtimer_forward(timer, now, interval)`: moves the expiry forward by the
      least whole number of intervals that puts it after `now`, and returns
      that number. An expiry already after `now` is left as it is. */
  function Forward(expires: int, now: int, interval: int): (r: Forwarded)
    requires 0 < interval
    ensures r.expires == expires + r.overruns * interval
    ensures now < r.expires
    ensures r.overruns == 0 || expires + (r.overruns - 1) * interval <= now
  {
    if now < expires then Forwarded(expires, 0)
    else
      var k := (now - expires) / interval;
      assert now - expires == k * interval + (now - expires) % interval;
      Forwarded(expires + (k + 1) * interval, k + 1)
  }

  /** The three properties in the contract of `Forward` determine its
      overrun count: no other count is least with the expiry after `now`. */
  lemma {:induction false} ForwardUnique(expires: int, now: int, interval: int, k: nat)
    requires 0 < interval
    requires now < expires + k * interval
    requires k == 0 || expires + (k - 1) * interval <= now
    ensures k == Forward(expires, now, interval).overruns
  {
    var r := Forward(expires, now, interval).overruns;
    if k < r {
      MulMonotone(k, r - 1, interval);
    } else if r < k {
      MulMonotone(r, k - 1, interval);
    }
  }

  /** A timer that fires on time, before its next interval is due, moves by
      exactly one interval. */
  lemma ForwardOnTime(expires: int, now: int, interval: int)
    requires 0 < interval
    requires expires <= now < expires + interval
    ensures Forward(expires, now, interval) == Forwarded(expires + interval, 1)
  {
    ForwardUnique(expires, now, interval, 1);
  }

  /** Drift-free re-arming: forwarding at `now1` and again at a later `now2`
      gives the same expiry, and the same total overrun count, as forwarding
      once at `now2`. The expiry stays on the grid `expires + n * interval`
      whenever the callbacks actually run. */
  lemma {:induction false} ForwardTwice(expires: int, now1: int, now2: int, interval: int)
    requires 0 < interval
    requires now1 <= now2
    ensures var f1 := Forward(expires, now1, interval);
            var f2 := Forward(f1.expires, now2, interval);
            var f := Forward(expires, now2, interval);
            f2.expires == f.expires && f1.overruns + f2.overruns == f.overruns
  {
    var f1 := Forward(expires, now1, interval);
    var f2 := Forward(f1.expires, now2, interval);
    var k := f1.overruns + f2.overruns;
    assert expires + k * interval == f2.expires by {
      assert k * interval == f1.overruns * interval + f2.overruns * interval;
    }
    if f2.overruns > 0 {
      assert expires + (k - 1) * interval == f1.expires + (f2.overruns - 1) * interval by {
        assert (k - 1) * interval == f1.overruns * interval + (f2.overruns - 1) * interval;
      }
    }
    ForwardUnique(expires, now2, interval, k);
  }
}
