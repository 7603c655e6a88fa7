/** The digital line abstraction the rover's code writes to: one GPIO pin as a
    plain cell holding its level. Opening a pin and setting its drive mode are
    platform calls; only the level is modelled. */
module Gpio {

  /** The two levels a digital line can carry (GpioPinValue). */
  datatype PinValue = Low | High

  /** One opened GPIO pin. */
  class GpioPin {
    /** The pin number it was opened with. */
    const number: int
    /** The level last written (for an output) or present (for an input). */
    var value: PinValue
    /** The levels written to the pin since it was opened, in order. */
    ghost var history: seq<PinValue>

    /** Opens pin `pinNumber`; its level before the first write is unknown. */
    constructor Open(pinNumber: int)
      ensures number == pinNumber && history == []
    {
      number := pinNumber;
      history := [];
    }

    /** Drives the line to `v`. */
    method Write(v: PinValue)
      modifies this`value, this`history
      ensures value == v && history == old(history) + [v]
    {
      value := v;
      history := history + [v];
    }
  }
}
