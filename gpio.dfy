/** A GPIO line as the channel sees it: whether the channel has claimed it,
    whether it is configured as an output, and the level it drives. */
module Gpio {

  datatype Level = Low | High

  datatype Line = Line(requested: bool, isOutput: bool, level: Level)

  /** A line nobody has claimed or configured. */
  const Unclaimed: Line := Line(false, false, Low)

  /** `gpio_set_value(gpio, v)` with `v` 0 or 1. */
  function LevelOf(v: int): Level {
    if v == 0 then Low else High
  }
}
