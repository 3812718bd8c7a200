/** `PwmThrottle` of the `wotlib` crate: drives an electronic speed
    controller through the pin it owns. As written it arms with a
    min-max-min sweep and no delays, turns off by writing 0, and scales an
    unsigned throttle onto the whole u16 duty range. */
module Throttle {
  import opened Ints
  import opened FakePwm

  /** The duty `set(duty)` writes: `duty` stretched from 0..255 onto
      0..65535 in u32 arithmetic, then cast to u16. The scale factor is
      exactly 257, so nothing is lost to the division. */
  function ScaledDuty(duty: u8): (r: u16)
    ensures r == 257 * duty
  {
    AsU16(U16_MAX * duty / U8_MAX)
  }

  /** The u32 product in `set` never overflows. */
  lemma ScaledDutyNoOverflow(duty: u8)
    ensures U16_MAX * duty <= U32_MAX
  {
  }

  /** `set(0)` withdraws the signal and `set(255)` is the top of the range. */
  lemma ScaledDutyEnds()
    ensures ScaledDuty(0) == 0
    ensures ScaledDuty(255) == U16_MAX
  {
  }

  /** A larger throttle always gives a strictly larger duty. */
  lemma ScaledDutyStrictlyIncreasing(a: u8, b: u8)
    requires a < b
    ensures ScaledDuty(a) < ScaledDuty(b)
  {
  }

  /** The throttle is recovered from the duty: dividing by 257 inverts `set`. */
  lemma ScaledDutyRoundTrip(duty: u8)
    ensures ScaledDuty(duty) / 257 == duty
    ensures ScaledDuty(duty) % 257 == 0
  {
  }

  /** The duties `arm()` writes, in order: the sweep, then `off()`. */
  function ArmSweep(armMin: u16, armMax: u16): seq<u16>
  {
    [armMin, armMax, armMin, 0]
  }

  class PwmThrottle {
    var pin: FakePwmPin
    var armMin: u16
    var armMax: u16

    constructor (pin: FakePwmPin, armMin: u16, armMax: u16)
      ensures this.pin == pin && this.armMin == armMin && this.armMax == armMax
    {
      this.pin := pin;
      this.armMin := armMin;
      this.armMax := armMax;
    }

    /** Four writes, `arm_min`, `arm_max`, `arm_min`, 0; ends as `off()` does. */
    method Arm()
      modifies pin
      ensures unchanged(this)
      ensures pin.Writes == old(pin.Writes) + ArmSweep(armMin, armMax)
      ensures pin.duty == 0
    {
      pin.SetDuty(armMin);
      pin.SetDuty(armMax);
      pin.SetDuty(armMin);
      Off();
    }

    /** One write of 0, whatever the pin held before. */
    method Off()
      modifies pin
      ensures unchanged(this)
      ensures pin.duty == 0
      ensures pin.Writes == old(pin.Writes) + [0]
    {
      pin.SetDuty(0);
    }

    /** One write of the scaled throttle; no check that `arm()` ran first,
        and the arming calibration plays no part. */
    method Set(duty: u8)
      modifies pin
      ensures unchanged(this)
      ensures pin.duty == ScaledDuty(duty)
      ensures pin.Writes == old(pin.Writes) + [pin.duty]
    {
      pin.SetDuty(ScaledDuty(duty));
    }
  }

  /** Calling `off()` again writes 0 again. */
  method RepeatedOff(throttle: PwmThrottle)
    modifies throttle.pin
    ensures throttle.pin.duty == 0
    ensures throttle.pin.Writes == old(throttle.pin.Writes) + [0, 0]
  {
    throttle.Off();
    throttle.Off();
  }
}
