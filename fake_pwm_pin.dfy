/** The PWM channel: a single duty register that the actuators own and write. */
module FakePwm {
  import opened Ints

  class FakePwmPin {
    /** The last duty value written (`current_duty`). */
    var duty: u16
    /** Every value written so far, oldest first; an observation of the
        channel, not state of the register itself. */
    ghost var Writes: seq<u16>

    /** `FakePwmPin::default()`: the register starts at 0, nothing written. */
    constructor ()
      ensures duty == 0 && Writes == []
    {
      duty := 0;
      Writes := [];
    }

    /** Reads the register back; takes no `modifies`, so it changes nothing. */
    method GetDuty() returns (d: u16)
      ensures d == duty
    {
      d := duty;
    }

    /** Overwrites the register: the last write wins. */
    method SetDuty(d: u16)
      modifies this
      ensures duty == d
      ensures Writes == old(Writes) + [d]
    {
      duty := d;
      Writes := Writes + [d];
    }
  }

  /** What `set_duty` writes, `get_duty` reads back. */
  method ReadBackAfterWrite(pin: FakePwmPin, d: u16) returns (r: u16)
    modifies pin
    ensures r == d
    ensures pin.duty == d && pin.Writes == old(pin.Writes) + [d]
  {
    pin.SetDuty(d);
    r := pin.GetDuty();
  }

  /** Writing the same value twice leaves the register as one write does. */
  method RepeatedSetDuty(pin: FakePwmPin, d: u16)
    modifies pin
    ensures pin.duty == d
    ensures pin.Writes == old(pin.Writes) + [d, d]
  {
    pin.SetDuty(d);
    pin.SetDuty(d);
  }
}
