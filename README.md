# Software PWM on GPIO lines — a Dafny model

This project models `pwm.c`, a Linux kernel module that generates a PWM
waveform on GPIO lines in software. Each channel has two high-resolution
timers. `tm1` fires once per period: its callback `cb1` drives the line high
and starts `tm2` for the high time. `tm2`'s callback `cb2` drives the line low.
The channels sit in a linked list keyed by gpio number. Writing a number to the
class's `export` file creates and starts a channel. Writing to `unexport` only
looks the number up.

Files and modules:

- `arith.dfy` (`Arith`): division and multiplication facts used by the proofs.
- `timing.dfy` (`Timing`): the constants `NANO_SEC`, `MICRO_SEC`,
  `DEFAULT_FREQ` and `DEFAULT_DUTY_CYCLE`, and the period and high-time
  arithmetic.
- `hrtimer.dfy` (`HrTimer`): the kernel timer as an abstract value. It records
  the callback, whether the timer is queued, its absolute expiry and its last
  relative delay. It also defines `hrtimer_start`, `hrtimer_cancel` and
  `hrtimer_forward`.
- `gpio.dfy` (`Gpio`): a GPIO line as an abstract value: claimed or not,
  output or not, and the level it drives.
- `channel.dfy` (`PwmChannel`): `struct pwm_channel` as a class. It covers
  `init_channel`, `cb1`, `cb2` and `deinit_channel`. Two further methods model
  the kernel dispatching an expiry of `tm1` or `tm2`: the timer is taken off
  the queue, the callback runs, and the timer is queued again if the callback
  asks to restart.
- `registry.dfy` (`ChannelRegistry`): the list `_channels` as a `seq<Channel>`
  field of a class. It covers `export_store` and `unexport_store`; both share
  one `Lookup` loop.

Inputs from outside the module are parameters:

- The parsed gpio number and the write length `len`.
- The clock reading `now`.
- Whether `kmalloc` succeeds (`memAvailable`).
- Whether `gpio_request` succeeds (`granted`). The code ignores this result.

`gpio`, `freq` and `dc` are `const` fields. The code writes them once, right
after allocation, and never again. So no timer callback can change the gpio
numbers that the registry keeps unique.

The channel invariant `Running()` holds after `init_channel` and after every
timer expiry. It states the following:

- `tm1` is always queued.
- `tm1`'s expiry is `origin + n * t1`, where `origin` is the time
  `init_channel` ran. Late callbacks therefore never shift the phase.
- `tm2` is queued only while the line is high.
- At 100 % duty cycle, `tm2` is never queued and the line stays high.

The model follows the code as written. In particular:

- The defaults are 1000 Hz and 50 %, so the period is 1,000,000 ns and the
  high time 500,000 ns.
- There are no period, frequency or duty-cycle setters.
- `unexport` removes nothing.
- A failed `gpio_request` does not make `export` fail.
- The list has no locking.
- `init_channel` drives the line high and arms only `tm1`. The first period is
  therefore high throughout; it is not one rising edge at start.
- `cb1` arms `tm2` whenever `dc < 100`. At `dc == 0` the line first goes high
  and `tm2` is started with a zero delay; the line is not held low.
- `tm2`'s delay counts from the time `cb1` actually runs, not from the
  scheduled edge. When a callback runs late, the falling edge moves with it.

## Model

| member | source | states |
|---|---|---|
| Timing.RisingIntervalNs | pwm.c:72 | the period `NANO_SEC / freq` is at least 1 ns and is the largest whole ns length of which `freq` copies fit in one second |
| Timing.HighTimeNs | pwm.c:50 | the high time `MICRO_SEC * 10 * dc / freq` is the largest whole ns length of which `freq` copies fit in `dc` hundredths of a second |
| Timing.HighTimeWithinPeriod | pwm.c:49-52 | for `0 <= dc <= 100` the high time never exceeds the period; it is 0 at 0 % and exactly the period at 100 % |
| Timing.HighTimeIsDutyPercent | pwm.c:50 | the high time is `dc` percent of the period up to rounding: `dc*t1 < 100*(h+1)` and `100*h <= dc*(t1+1)` |
| Timing.DefaultTiming | pwm.c:15-16 | with the default 1000 Hz and 50 % the period is 1,000,000 ns and the high time 500,000 ns |
| Timing.ArithmeticFitsInInt | pwm.c:12-13 | `NANO_SEC` and `MICRO_SEC * 10 * dc` for `0 <= dc <= 100` fit a 32-bit C `int`, so unbounded integers model the code exactly |
| HrTimer.Start | pwm.c:52 | `hrtimer_start(t, delay, HRTIMER_MODE_REL)` queues the timer to expire `delay` after the clock reading `now` at which it is called (for `tm2`, the callback's own reading), records the delay and keeps its callback |
| HrTimer.StartReplacesPending | pwm.c:52 | starting a timer again replaces a pending start: only the last clock reading and delay matter, as when `cb1` restarts a `tm2` that has not fired yet |
| HrTimer.Cancel | pwm.c:90 | `hrtimer_cancel` leaves the timer off the queue and changes nothing else; on a timer that is not queued it changes nothing |
| HrTimer.Forward | pwm.c:41 | `hrtimer_forward` moves the expiry by the least number `k` of intervals that puts it after `now`, and returns `k` |
| HrTimer.ForwardUnique | pwm.c:41 | `Forward`'s contract determines the overrun count: any `k` with that property is the one returned |
| HrTimer.ForwardOnTime | pwm.c:40-41 | a callback running before the next interval is due moves the expiry by exactly one interval, with overrun count 1 |
| HrTimer.ForwardTwice | pwm.c:40-41 | forwarding at `now1` and then at a later `now2` gives the same expiry and total overrun count as forwarding once at `now2` (drift-free re-arming) |
| PwmChannel.Channel.constructor | pwm.c:135-143 | allocation sets `gpio`, `freq` and `dc`; both timers are uninitialised and the line untouched |
| PwmChannel.Channel.Init | pwm.c:71-85 | `t1 = NANO_SEC / freq`; the line is an output driven high; `tm1` runs `cb1` and is queued to expire `t1` after `now`; `tm2` runs `cb2` and is not queued; `Running()` holds |
| PwmChannel.Channel.Cb1 | pwm.c:35-56 | runs with `tm1` off the queue; returns RESTART; the line goes high; `tm1` is forwarded past `now`; for `dc < 100`, `tm2` is started one-shot after the high time, which is at most `t1`; for `dc == 100`, `tm2` is untouched |
| PwmChannel.Channel.Cb2 | pwm.c:59-68 | returns NORESTART, drives the line low and changes nothing else |
| PwmChannel.Channel.RisingTimerExpires | pwm.c:35-56 | an expiry of `tm1` (once it is due) keeps `Running()`; afterwards the line is high, the rest of the line untouched, and `tm1` is queued again within one period after `now`; `tm2` is queued exactly when `dc < 100`, with expiry `now` at 0 %; at 100 % `tm2` is untouched |
| PwmChannel.Channel.FallingTimerExpires | pwm.c:59-68 | an expiry of `tm2` once it is due at `now` keeps `Running()`, drives the line low and leaves `tm2` off the queue |
| PwmChannel.Channel.Deinit | pwm.c:88-98 | afterwards neither timer is queued and the line is released; a timer that was not queued is left exactly as it was |
| ChannelRegistry.Registry.constructor | pwm.c:32 | the channel list starts empty, with unique gpio numbers |
| ChannelRegistry.Registry.Lookup | pwm.c:118-124 | the list walk finds the gpio exactly when some channel in the list has that gpio |
| ChannelRegistry.Registry.Export | pwm.c:106-154 | gpio numbers stay unique and existing channels are unchanged. If already present: returns `len`, list unchanged. If allocation fails: returns `-ENOMEM`, list unchanged. Otherwise: returns `len` and prepends exactly one fresh, started channel with that gpio, 1000 Hz and 50 % |
| ChannelRegistry.Registry.Unexport | pwm.c:157-185 | returns `len` whether or not the gpio is found, and changes nothing |

## Left out

- Parsing the written text with `kstrtol` (pwm.c:117, pwm.c:168) is not modelled: it is a library call. The gpio number is an input. The code ignores parse errors and passes an `int *` where a `long *` is expected (pwm.c:115-117); neither is modelled.
- Registration of the sysfs class and its attributes, `pwm_init` and `pwm_exit` (pwm.c:188-218), is kernel plumbing and is not modelled. `pwm_exit` does not empty the list, so there is no shutdown logic to model.
- `kmalloc`, `gpio_request`, `gpio_direction_output`, `gpio_set_value`, `gpio_free` and the kernel's timer queue are foreign calls. They appear only as the abstract values in `Gpio` and `HrTimer` and as boolean outcomes. What the GPIO backend does with a line it did not grant is not modelled: the model records the level the code asks for.
- Concurrency is not modelled: the code has no locking. Each store handler and each timer expiry is one atomic step. `hrtimer_active` is therefore `queued`, since no callback is ever part-way through when `deinit_channel` runs.
- The `printk` and `DEBUG` blocks and the commented-out `deinit_timers` (pwm.c:100-104) are not modelled.
- HrTimer.Forward: does not model the kernel's raising of an interval below the timer resolution. It requires a positive interval, which `t1 >= 1` always is.
- PwmChannel.Channel.constructor: freq and dc are limited to `0 < freq <= 1e9` and `0 <= dc <= 100`. This range is a modelling choice: it keeps the period at least 1 ns and the duty cycle a percentage. Nothing reachable is excluded, because the only caller writes 1000 and 50 (pwm.c:142-143).
- `deinit_channel` is modelled, but nothing in the module calls it.
