# wot4-rs actuator layer in Dafny

This project models the actuator mapping layer of `wotlib`. Two small objects each own one PWM
output and write 16-bit duty values to it:

- `PwmServo` maps a signed stick position (`i8`) onto the calibrated duty range `[min, max]`.
  `set_pos` shifts the position into 0..255, scales it by `max - min` with floor division by 256
  and adds `min`. `center` writes the floor of `(max + min) / 2`.
- `PwmThrottle` drives an electronic speed controller. `arm` sweeps `arm_min`, `arm_max`,
  `arm_min` and then calls `off`. `off` writes 0. `set` stretches a `u8` over the whole `u16`
  range as `65535 * duty / 255`, which is exactly `257 * duty`.
- `FakePwmPin` is the channel: one duty register that `set_duty` overwrites and `get_duty`
  reads back.

The repository holds a second, older copy of the servo (`src/servo.rs`). It is modelled as its
own class, `LegacyServo.PwmServo`. Its methods follow that file's statements, and their
contracts prove that it writes exactly what the `wotlib` servo writes for the same calibration.

Layout, one module per source file:

- `ints.dfy` (`Ints`): the Rust integer types as bounded subsets of `int`, and the `as u16`
  cast written out.
- `fake_pwm_pin.dfy` (`FakePwm`): the pin class. It has the real `duty` register and a ghost
  `Writes` log of every value written. The log lets a contract say how many writes a call makes
  and in what order.
- `servo.dfy` (`Servo`): the duty functions, their lemmas, the `PwmServo` class and the crate's
  three servo tests as methods that return the values they read back. It also has `Session`,
  the writes made by a sequence of servo calls such as the controller's start-up exercise.
  `Session` carries the servo invariant: every duty ever written lies in `[min, max]`.
- `legacy_servo.dfy` (`LegacyServo`): the older servo.
- `throttle.dfy` (`Throttle`): the throttle scaling function, the arming sweep and the
  `PwmThrottle` class.

Rust's fixed-width arithmetic is explicit in the model:

- The `u16` subtraction in `set_pos` becomes the precondition `min <= max`.
- The `u16` addition in `center` becomes the precondition `min + max <= 65535`.
- Lemmas prove that the `u32` intermediates cannot overflow and that the final `as u16` casts
  never truncate.

The two servo preconditions differ. A calibration with `min + max > 65535` (for example
`min = 40000, max = 50000`) is fine for `set_pos` but overflows in `center`.

Points about the code itself that the model makes explicit:

- The throttle has no neutral calibration, no disarm operation and no delay parameter. Its
  arming delays are commented out, `off` writes 0, and `set` ignores `arm_min`/`arm_max`. The
  model has exactly these three operations.
- `Servo.CenterMatchesSetPosZero` proves that `set_pos(0)` already writes `center()`'s value
  whenever both calls are free of overflow.
- `set_pos` needs only `min <= max`. An empty range (`min == max`) writes `min` for every
  position.

## Model

| member | source | states |
|---|---|---|
| `Ints.AsU16` | wotlib/src/servo.rs:25-26 | the `as u16` cast keeps the low 16 bits, never yields more than its argument, and returns the argument unchanged exactly when the argument fits in 16 bits |
| `FakePwm.FakePwmPin.constructor` | wotlib/src/test_util/fake_pwm_pin.rs:3-6 | a default pin holds duty 0 and has seen no writes |
| `FakePwm.FakePwmPin.GetDuty` | wotlib/src/test_util/fake_pwm_pin.rs:19-21 | returns the current duty and, having no `modifies`, changes nothing |
| `FakePwm.FakePwmPin.SetDuty` | wotlib/src/test_util/fake_pwm_pin.rs:27-29 | the register becomes the written value and exactly one write is added to the log |
| `FakePwm.ReadBackAfterWrite` | wotlib/src/test_util/fake_pwm_pin.rs:19-29 | after `set_duty(d)`, `get_duty()` returns `d`; the register holds `d` and exactly one write was added |
| `FakePwm.RepeatedSetDuty` | wotlib/src/test_util/fake_pwm_pin.rs:27-29 | writing the same value twice leaves the register at that value (the last write wins) |
| `Servo.Scale` | wotlib/src/servo.rs:25 | the scaled offset `offset * range / 256` lies in `[0, range]`, strictly below `range` when the range is non-empty, and is 0 at offset 0 |
| `Servo.SetPosDuty` | wotlib/src/servo.rs:22-26 | for `min <= max` the written duty lies in `[min, max]`, and strictly below `max` when `min < max` |
| `Servo.CenterDuty` | wotlib/src/servo.rs:29-31 | the written duty is the floor of the midpoint (`2d <= min + max <= 2d + 1`) and lies in `[min, max]` when `min <= max` |
| `Servo.SetPosNoOverflow` | wotlib/src/servo.rs:23-26 | the `u32` product and sum never exceed `u32::MAX`, and the written duty equals `((pos + 128) * (max - min)) / 256 + min` exactly (the cast loses nothing) |
| `Servo.SetPosBottom` | wotlib/src/servo.rs:23-25 | `set_pos(-128)` writes exactly `min`, including `min = 0` |
| `Servo.SetPosMonotone` | wotlib/src/servo.rs:23-25 | a larger position never gives a smaller duty |
| `Servo.SetPosTopShortfall` | wotlib/src/servo.rs:23-25 | `set_pos(127)` writes `max - ceil((max - min) / 256)`, the truncation bias at full deflection |
| `Servo.CenterMatchesSetPosZero` | wotlib/src/servo.rs:22-31 | whenever both are defined, `set_pos(0)` and `center()` write the same duty |
| `Servo.SetPosFixtures` | wotlib/src/servo.rs:66-79 | with `min = 2500, max = 7500`, positions -128, -64, 0, 64, 127 give 2500, 3750, 5000, 6250, 7480 |
| `Servo.CommandDuty` | wotlib/src/servo.rs:22-31 | the duty written by either servo call lies in `[min, max]` when the calibration admits the call |
| `Servo.Session` | wotlib/src/servo.rs:21-33 | a sequence of servo calls makes exactly one write per call, the i-th write is that call's duty, and every duty ever written lies in `[min, max]` |
| `Servo.SweepWritesAscend` | controller/src/main.rs:126-131 | the upward sweep: `set_pos` calls over non-decreasing positions write non-decreasing duties |
| `Servo.SweepWritesDescend` | controller/src/main.rs:128-131 | the downward sweep (`.rev()`): `set_pos` calls over non-increasing positions write non-increasing duties |
| `Servo.Play` | controller/src/main.rs:109-137 | issuing a sequence of calls to a servo appends exactly the writes of `Session` to its pin, and leaves the register at the last of them (unchanged when there are no calls) |
| `Servo.PwmServo.constructor` | wotlib/src/servo.rs:8-12 | the servo holds the given pin and calibration |
| `Servo.PwmServo.GetDuty` | wotlib/src/servo.rs:15-18 | the test-only read-back returns the pin's current duty |
| `Servo.PwmServo.SetPos` | wotlib/src/servo.rs:22-27 | makes exactly one pin write, of `SetPosDuty(min, max, pos)`, leaves the calibration unchanged, and keeps "every write within `[min, max]`" true |
| `Servo.PwmServo.Center` | wotlib/src/servo.rs:29-32 | makes exactly one pin write, of `CenterDuty(min, max)`, leaves the calibration unchanged, and keeps "every write within `[min, max]`" true when `min <= max` |
| `Servo.RepeatedCenter` | wotlib/src/servo.rs:29-32 | two `center()` calls write `CenterDuty(min, max)` twice and leave the register at that value |
| `Servo.CenterSetsMidPoint` | wotlib/src/servo.rs:43-55 | the `center_sets_mid_point` test reads back 5000 |
| `Servo.SetsMinAndMaxPositions` | wotlib/src/servo.rs:57-80 | the `sets_min_and_max_positions` test reads back 2500, 3750, 5000, 6250, 7480 |
| `Servo.SetsZeroIfMinIsZero` | wotlib/src/servo.rs:82-93 | the `sets_zero_if_min_is_zero` test reads back 0 |
| `LegacyServo.PwmServo.constructor` | src/servo.rs:8-12 | the older servo holds the given pin and calibration |
| `LegacyServo.PwmServo.SetPos` | src/servo.rs:15-20 | makes one write, within `[min, max]`, equal to what the `wotlib` servo writes for the same calibration and position |
| `LegacyServo.PwmServo.Center` | src/servo.rs:22-25 | makes one write, the floor midpoint, equal to what the `wotlib` servo's `center()` writes |
| `Throttle.ScaledDuty` | wotlib/src/throttle.rs:43-44 | `65535 * duty / 255` cast to `u16` is exactly `257 * duty` |
| `Throttle.ScaledDutyNoOverflow` | wotlib/src/throttle.rs:43 | the `u32` product in `set` never exceeds `u32::MAX` |
| `Throttle.ScaledDutyEnds` | wotlib/src/throttle.rs:43-44 | `set(0)` writes 0 and `set(255)` writes 65535 |
| `Throttle.ScaledDutyStrictlyIncreasing` | wotlib/src/throttle.rs:43-44 | a larger throttle always writes a strictly larger duty |
| `Throttle.ScaledDutyRoundTrip` | wotlib/src/throttle.rs:43-44 | the written duty is a multiple of 257, and dividing by 257 recovers the throttle |
| `Throttle.PwmThrottle.constructor` | wotlib/src/throttle.rs:9-13 | the throttle holds the given pin and arming calibration |
| `Throttle.PwmThrottle.Arm` | wotlib/src/throttle.rs:28-36 | makes exactly four writes in order, `arm_min`, `arm_max`, `arm_min`, 0 (the sequence `ArmSweep`), ends with the pin at 0 as `off()` leaves it, and changes no calibration |
| `Throttle.PwmThrottle.Off` | wotlib/src/throttle.rs:38-40 | makes one write of 0, whatever the pin held before |
| `Throttle.PwmThrottle.Set` | wotlib/src/throttle.rs:42-45 | makes one write of `ScaledDuty(duty)`, with no armed-state precondition and no dependence on `arm_min`/`arm_max` |
| `Throttle.RepeatedOff` | wotlib/src/throttle.rs:38-40 | two `off()` calls leave the pin at 0 after writing 0 twice |

## Left out

- `FakePwmPin::enable`, `disable` and `get_max_duty` are left out: each body is `todo!()`, so there is no behaviour to model.
- The `Servo` and `Throttle` traits and the `embedded_hal::PwmPin` trait object are left out. Each actuator holds a reference to one `FakePwmPin` object, and the lifetime-bounded exclusive borrow is not modelled.
- Overflow outside the preconditions is left out. Rust panics in debug builds and wraps in release builds when `min > max` reaches `set_pos` or `min + max > 65535` reaches `center`. The model excludes those calibrations by precondition instead.
- The commented-out throttle code is dead code and is not modelled: the old `set_pos`/`center` and the `delay_ms` calls in `arm`.
- The `wotlib/src/lib.rs` module declarations are not modelled.
- Most of the controller firmware (`controller/src/main.rs`) is not modelled: clock, watchdog and PWM-slice bring-up, the LED and the delays. Only its servo call sequence is modelled, as the commands given to `Servo.Play`.
- The simulator (`sim/src/main.rs`) is not modelled: floating-point physics and rendering, unconnected to `wotlib`.
