/** The list of channels (`_channels`) and the two write handlers of the
    `soft_pwm` class, `export` and `unexport`. The gpio number arrives already
    parsed. */
module ChannelRegistry {

  import opened Timing
  import opened Gpio
  import opened PwmChannel

  /** The errno `export_store` returns, negated, when allocation fails. */
  const ENOMEM: int := 12

  class Registry {
    /** The list, in order from the head: `list_add` puts a new channel first. */
    var channels: seq<Channel>

    /** No two channels drive the same gpio. */
    ghost predicate Valid()
      reads this
    {
      forall i, j :: 0 <= i < j < |channels| ==> channels[i].gpio != channels[j].gpio
    }

    /** Some channel in the list drives `gpio`. */
    ghost predicate Exported(gpio: int)
      reads this
    {
      exists i :: 0 <= i < |channels| && channels[i].gpio == gpio
    }

    /** `LIST_HEAD(_channels)`: the list starts empty. */
    constructor ()
      ensures Valid() && channels == []
    {
      channels := [];
    }

    /** The `list_for_each` search shared by both handlers: whether a
        channel for `gpio` is in the list. */
    method Lookup(gpio: int) returns (found: bool)
      ensures found <==> Exported(gpio)
    {
      found := false;
      var i := 0;
      while i < |channels|
        invariant 0 <= i <= |channels|
        invariant forall k :: 0 <= k < i ==> channels[k].gpio != gpio
      {
        if channels[i].gpio == gpio {
          found := true;
          break;
        }
        i := i + 1;
      }
    }

    /** `export_store` for the parsed `gpio`, a write of `len` bytes, at clock
        reading `now`. `memAvailable` is whether `kmalloc` succeeds and
        `granted` whether `gpio_request` does. A gpio already in the list is
        ignored; otherwise a channel with the default frequency and duty cycle
        is put at the head of the list and started. Either way the channels
        already in the list are left exactly as they were, and gpio numbers
        stay unique. */
    method Export(gpio: int, len: int, now: int, memAvailable: bool, granted: bool)
      returns (ret: int)
      requires Valid()
      modifies this
      ensures Valid()
      ensures forall c :: c in old(channels) ==> unchanged(c)
      ensures old(Exported(gpio)) ==> ret == len && channels == old(channels)
      ensures !old(Exported(gpio)) && !memAvailable ==> ret == -ENOMEM && channels == old(channels)
      ensures !old(Exported(gpio)) && memAvailable ==>
        && ret == len
        && |channels| == |old(channels)| + 1
        && channels[1..] == old(channels)
        && fresh(channels[0])
        && channels[0].gpio == gpio
        && channels[0].freq == DEFAULT_FREQ
        && channels[0].dc == DEFAULT_DUTY_CYCLE
        && channels[0].t1 == 1_000_000
        && channels[0].line == Line(granted, true, High)
        && channels[0].tm1.queued && channels[0].tm1.expires == now + 1_000_000
        && !channels[0].tm2.queued
        && channels[0].Running()
      ensures memAvailable ==> Exported(gpio)
    {
      var found := Lookup(gpio);
      if found {
        // already exported: the request is ignored
        return len;
      }
      if !memAvailable {
        return -ENOMEM;
      }
      var ch := new Channel(gpio, DEFAULT_FREQ, DEFAULT_DUTY_CYCLE);
      channels := [ch] + channels;
      ch.Init(now, granted);
      assert channels[0].gpio == gpio;
      ret := len;
    }

    /** `unexport_store` for the parsed `gpio`: it searches the list but
        removes nothing, found or not, and reports the whole write as
        consumed. */
    method Unexport(gpio: int, len: int) returns (ret: int)
      ensures ret == len
    {
      var found := Lookup(gpio);
      if !found {
        // no channel for the gpio: the request is ignored
        return len;
      }
      ret := len;
    }
  }
}
