/** `PwmServo` of the `wotlib` crate: maps a signed stick position onto the
    calibrated duty range `[min, max]` of the pin it owns. */
module Servo {
  import opened Ints
  import opened FakePwm

  /** `offset * range / 256` stays inside `[0, range]`, and below `range`
      whenever the range is not empty, because `offset` is at most 255. */
  lemma ScaleBelowRange(offset: int, range: int)
    requires 0 <= offset <= 255 && 0 <= range
    ensures 0 <= offset * range <= 255 * range
    ensures 0 <= offset * range / 256 <= range
    ensures 0 < range ==> offset * range / 256 < range
  {
  }

  /** `offset * range / 256` does not decrease when `offset` grows. */
  lemma ScaleMonotone(a: int, b: int, range: int)
    requires 0 <= a <= b && 0 <= range
    ensures a * range / 256 <= b * range / 256
  {
    assert a * range <= b * range by {
      assert (b - a) * range >= 0;
    }
  }

  /** The u32 step `offset * range / 256` of `set_pos`, floor division. */
  function Scale(offset: int, range: int): (s: int)
    requires 0 <= offset <= 255 && 0 <= range
    ensures 0 <= s <= range
    ensures 0 < range ==> s < range
    ensures offset == 0 ==> s == 0
  {
    ScaleBelowRange(offset, range);
    offset * range / 256
  }

  /** The duty `set_pos(pos)` writes: `pos` shifted into 0..255, scaled by
      `max - min` with floor division by 256, plus `min`, then cast to u16.
      The subtraction is on u16, so the caller must keep `min <= max`. */
  function SetPosDuty(min: u16, max: u16, pos: i8): (d: u16)
    requires min <= max
    ensures min <= d <= max
    ensures min < max ==> d < max
  {
    AsU16(Scale(pos + 128, max - min) + min)
  }

  /** The duty `center()` writes: the floor of the midpoint. The addition is
      on u16, so the caller must keep `max + min` within it. */
  function CenterDuty(min: u16, max: u16): (d: u16)
    requires min + max <= U16_MAX
    ensures d + d <= min + max <= d + d + 1
    ensures min <= max ==> min <= d <= max
  {
    (max + min) / 2
  }

  /** Neither u32 step of `set_pos` overflows, and its final `as u16` cast
      keeps the value intact. */
  lemma SetPosNoOverflow(min: u16, max: u16, pos: i8)
    requires min <= max
    ensures (pos + 128) * (max - min) <= U32_MAX
    ensures (pos + 128) * (max - min) / 256 + min <= U32_MAX
    ensures SetPosDuty(min, max, pos) == (pos + 128) * (max - min) / 256 + min
  {
    ScaleBelowRange(pos + 128, max - min);
  }

  /** Full deflection the other way writes exactly `min`, even when it is 0. */
  lemma SetPosBottom(min: u16, max: u16)
    requires min <= max
    ensures SetPosDuty(min, max, -128) == min
  {
  }

  /** A larger stick position never gives a smaller duty. */
  lemma SetPosMonotone(min: u16, max: u16, p: i8, q: i8)
    requires min <= max && p <= q
    ensures SetPosDuty(min, max, p) <= SetPosDuty(min, max, q)
  {
    SetPosNoOverflow(min, max, p);
    SetPosNoOverflow(min, max, q);
    ScaleMonotone(p + 128, q + 128, max - min);
  }

  /** Full deflection falls short of `max` by `range / 256` rounded up:
      with `min = 2500, max = 7500` it is 20 short, 7480. */
  lemma SetPosTopShortfall(min: u16, max: u16)
    requires min <= max
    ensures SetPosDuty(min, max, 127) == max - (max - min + 255) / 256
  {
  }

  /** Position 0 lands exactly on the midpoint `center()` writes. */
  lemma CenterMatchesSetPosZero(min: u16, max: u16)
    requires min <= max && min + max <= U16_MAX
    ensures SetPosDuty(min, max, 0) == CenterDuty(min, max)
  {
  }

  /** The duties the crate's tests expect for `min = 2500, max = 7500`. */
  lemma SetPosFixtures()
    ensures SetPosDuty(2500, 7500, -128) == 2500
    ensures SetPosDuty(2500, 7500, -64) == 3750
    ensures SetPosDuty(2500, 7500, 0) == 5000
    ensures SetPosDuty(2500, 7500, 64) == 6250
    ensures SetPosDuty(2500, 7500, 127) == 7480
  {
  }

  /** One call a control loop makes on a servo. */
  datatype Command = SetPosCall(pos: i8) | CenterCall

  /** The calibration lets `command` run without a u16 overflow. */
  predicate Admits(min: u16, max: u16, command: Command) {
    min <= max && (command.CenterCall? ==> min + max <= U16_MAX)
  }

  /** The duty one command writes. */
  function CommandDuty(min: u16, max: u16, command: Command): (d: u16)
    requires Admits(min, max, command)
    ensures min <= d <= max
  {
    match command
    case SetPosCall(pos) => SetPosDuty(min, max, pos)
    case CenterCall => CenterDuty(min, max)
  }

  /** The writes a servo makes when `commands` are issued in order: one
      write per command, and every one of them inside the calibration. */
  function Session(min: u16, max: u16, commands: seq<Command>): (writes: seq<u16>)
    requires forall i :: 0 <= i < |commands| ==> Admits(min, max, commands[i])
    ensures |writes| == |commands|
    ensures forall i :: 0 <= i < |writes| ==> min <= writes[i] <= max
    ensures forall i :: 0 <= i < |writes| ==> writes[i] == CommandDuty(min, max, commands[i])
  {
    if commands == [] then []
    else Session(min, max, commands[..|commands| - 1]) + [CommandDuty(min, max, commands[|commands| - 1])]
  }

  /** A sweep of `set_pos` calls with non-decreasing positions writes
      non-decreasing duties. */
  lemma SweepWritesAscend(min: u16, max: u16, positions: seq<i8>)
    requires min <= max
    requires forall i, j :: 0 <= i <= j < |positions| ==> positions[i] <= positions[j]
    ensures var writes := Session(min, max, seq(|positions|, i requires 0 <= i < |positions| => SetPosCall(positions[i])));
      forall i, j :: 0 <= i <= j < |writes| ==> writes[i] <= writes[j]
  {
    var commands := seq(|positions|, i requires 0 <= i < |positions| => SetPosCall(positions[i]));
    var writes := Session(min, max, commands);
    forall i, j | 0 <= i <= j < |writes|
      ensures writes[i] <= writes[j]
    {
      SetPosMonotone(min, max, positions[i], positions[j]);
    }
  }

  /** The way back down: a sweep of `set_pos` calls with non-increasing
      positions writes non-increasing duties. */
  lemma SweepWritesDescend(min: u16, max: u16, positions: seq<i8>)
    requires min <= max
    requires forall i, j :: 0 <= i <= j < |positions| ==> positions[i] >= positions[j]
    ensures var writes := Session(min, max, seq(|positions|, i requires 0 <= i < |positions| => SetPosCall(positions[i])));
      forall i, j :: 0 <= i <= j < |writes| ==> writes[i] >= writes[j]
  {
    var commands := seq(|positions|, i requires 0 <= i < |positions| => SetPosCall(positions[i]));
    var writes := Session(min, max, commands);
    forall i, j | 0 <= i <= j < |writes|
      ensures writes[i] >= writes[j]
    {
      SetPosMonotone(min, max, positions[j], positions[i]);
    }
  }

  class PwmServo {
    var pin: FakePwmPin
    var min: u16
    var max: u16

    constructor (pin: FakePwmPin, min: u16, max: u16)
      ensures this.pin == pin && this.min == min && this.max == max
    {
      this.pin := pin;
      this.min := min;
      this.max := max;
    }

    /** Every duty in `writes` lies within this servo's calibration. */
    ghost predicate WithinCalibration(writes: seq<u16>)
      reads this
    {
      forall i :: 0 <= i < |writes| ==> min <= writes[i] <= max
    }

    /** Test-only read-back of the pin's duty. */
    method GetDuty() returns (d: u16)
      ensures d == pin.duty
    {
      d := pin.GetDuty();
    }

    /** One write of the mapped position; the calibration stays as it was. */
    method SetPos(pos: i8)
      requires min <= max
      modifies pin
      ensures unchanged(this)
      ensures pin.duty == SetPosDuty(min, max, pos)
      ensures pin.Writes == old(pin.Writes) + [pin.duty]
      ensures WithinCalibration(old(pin.Writes)) ==> WithinCalibration(pin.Writes)
    {
      pin.SetDuty(SetPosDuty(min, max, pos));
    }

    /** One write of the midpoint; the calibration stays as it was. */
    method Center()
      requires min + max <= U16_MAX
      modifies pin
      ensures unchanged(this)
      ensures pin.duty == CenterDuty(min, max)
      ensures pin.Writes == old(pin.Writes) + [pin.duty]
      ensures min <= max && WithinCalibration(old(pin.Writes)) ==> WithinCalibration(pin.Writes)
    {
      pin.SetDuty(CenterDuty(min, max));
    }
  }

  /** Issues `commands` to `servo` in order, as the controller's start-up
      exercise does; the pin sees exactly the writes of `Session`. */
  method Play(servo: PwmServo, commands: seq<Command>)
    requires forall i :: 0 <= i < |commands| ==> Admits(servo.min, servo.max, commands[i])
    modifies servo.pin
    ensures servo.pin.Writes == old(servo.pin.Writes) + Session(servo.min, servo.max, commands)
    ensures |commands| > 0 ==> servo.pin.duty == Session(servo.min, servo.max, commands)[|commands| - 1]
    ensures |commands| == 0 ==> servo.pin.duty == old(servo.pin.duty)
  {
    var k := 0;
    while k < |commands|
      invariant 0 <= k <= |commands|
      invariant servo.pin.Writes == old(servo.pin.Writes) + Session(servo.min, servo.max, commands[..k])
      invariant k > 0 ==> servo.pin.duty == Session(servo.min, servo.max, commands[..k])[k - 1]
      invariant k == 0 ==> servo.pin.duty == old(servo.pin.duty)
    {
      assert commands[..k + 1][..k] == commands[..k];
      match commands[k] {
        case SetPosCall(pos) => servo.SetPos(pos);
        case CenterCall => servo.Center();
      }
      k := k + 1;
    }
    assert commands[..k] == commands;
  }

  /** Calling `center()` again writes the same value again. */
  method RepeatedCenter(servo: PwmServo)
    requires servo.min + servo.max <= U16_MAX
    modifies servo.pin
    ensures servo.pin.duty == CenterDuty(servo.min, servo.max)
    ensures servo.pin.Writes == old(servo.pin.Writes) + [servo.pin.duty, servo.pin.duty]
  {
    servo.Center();
    servo.Center();
  }

  /** The `center_sets_mid_point` test: reads back the duty after `center()`. */
  method CenterSetsMidPoint() returns (duty: u16)
    ensures duty == 5000
  {
    var fakePin := new FakePwmPin();
    var servo := new PwmServo(fakePin, 2500, 7500);
    servo.Center();
    duty := servo.GetDuty();
  }

  /** The `sets_min_and_max_positions` test: the read-backs after
      `set_pos(-128)`, `set_pos(-64)`, `set_pos(0)`, `set_pos(64)`, `set_pos(127)`. */
  method SetsMinAndMaxPositions() returns (readings: seq<u16>)
    ensures readings == [2500, 3750, 5000, 6250, 7480]
  {
    var fakePin := new FakePwmPin();
    var servo := new PwmServo(fakePin, 2500, 7500);
    var d0, d1, d2, d3, d4;
    servo.SetPos(-128);
    d0 := servo.GetDuty();
    servo.SetPos(-64);
    d1 := servo.GetDuty();
    servo.SetPos(0);
    d2 := servo.GetDuty();
    servo.SetPos(64);
    d3 := servo.GetDuty();
    servo.SetPos(127);
    d4 := servo.GetDuty();
    SetPosFixtures();
    readings := [d0, d1, d2, d3, d4];
  }

  /** The `sets_zero_if_min_is_zero` test: `set_pos(-128)` with `min = 0`. */
  method SetsZeroIfMinIsZero() returns (duty: u16)
    ensures duty == 0
  {
    var fakePin := new FakePwmPin();
    var servo := new PwmServo(fakePin, 0, 7500);
    servo.SetPos(-128);
    duty := servo.GetDuty();
    assert duty == SetPosDuty(0, 7500, -128);
    SetPosBottom(0, 7500);
  }
}
