/** The older `PwmServo` at the root of the repository, a second copy of the
    servo mapping with no tests of its own. Its methods follow that copy's
    statements step by step and are proved to write what the `wotlib`
    servo writes for the same calibration. */
module LegacyServo {
  import opened Ints
  import opened FakePwm
  import Servo

  class PwmServo {
    var pin: FakePwmPin
    var min: u16
    var max: u16

    constructor (pin: FakePwmPin, min: u16, max: u16)
      ensures this.pin == pin && this.min == min && this.max == max
    {
      this.pin := pin;
      this.min := min;
      this.max := max;
    }

    /** One write, in `[min, max]` and equal to the `wotlib` servo's duty. */
    method SetPos(pos: i8)
      requires min <= max
      modifies pin
      ensures unchanged(this)
      ensures pin.duty == Servo.SetPosDuty(min, max, pos)
      ensures min <= pin.duty <= max
      ensures pin.Writes == old(pin.Writes) + [pin.duty]
    {
      var offsetPos: int := pos + 128;
      var range: u16 := max - min;
      var wide: nat := offsetPos * range / 256 + min;
      Servo.SetPosNoOverflow(min, max, pos);
      pin.SetDuty(AsU16(wide));
    }

    /** One write of the midpoint, equal to the `wotlib` servo's `center()`. */
    method Center()
      requires min + max <= U16_MAX
      modifies pin
      ensures unchanged(this)
      ensures pin.duty == Servo.CenterDuty(min, max)
      ensures pin.duty + pin.duty <= min + max <= pin.duty + pin.duty + 1
      ensures pin.Writes == old(pin.Writes) + [pin.duty]
    {
      var mid: u16 := (max + min) / 2;
      pin.SetDuty(mid);
    }
  }
}
