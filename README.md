# Differential drivetrain, simulated encoder and speed controllers

A Dafny model of the control core of a two-motor robot drivetrain, written in Java for the FRC
`wpilibj` library and its test doubles:

- `Drive` (`src/drivetrain/Drivetrain.java`): the four-quadrant arcade mix `ArcadeMix`, a pure
  function over `real`; the class `Drivetrain`, which routes per-side speeds into two monitored
  gearboxes (`straight`, `rotate`, `arcade`, `stop`, `twoJoystickDrive`, `setLeftSpeed`,
  `setRightSpeed`) and reads the measured speeds back (`getLeftSpeed`, `getRightSpeed`). The
  right sink receives the negated speed, while the right encoder is told the un-negated one.
  `MonitoredGearbox` is not part of this model: the class of that name here holds only what the
  drivetrain uses, a motor sink written by `Set`, its `Encoder` (`GetEncoder`) and a velocity
  reading `GetVelocity`, which is a conversion (fixed at construction) of the encoder's rate.
  The drivetrain has no state of its own beyond its two sides.
- `Encoders` (`src/edu/wpi/first/wpilibj/Encoder.java`): the simulated quadrature encoder as a
  class with the tick count, enabled and reverse-direction flags, encoding type, distance per
  pulse, measured period and the public calibration `constant`; its getters (`GetRaw`, `Get`,
  `GetDistance`, `GetPeriod`, `GetRate`, `GetDecodingScaleFactor`, `GetStopped`,
  `GetDirection`, `IsEnabled`, `GetDistancePerPulse`, `GetEncodingType`) are functions over
  those fields, its setters are methods whose `modifies` clause names the one field they change.
  The decoding multiplier is fixed at 1 (`DecodingMultiplier`), so the encoding type never
  affects a conversion.
- `MotorControllers` (`Talon.java`, `Jaguar.java`): two speed/enabled latches. The Talon keeps
  the invariant "disabled implies speed 0" (`Talon.Valid`), because its `disable` writes 0
  before latching; the Jaguar's `disable` keeps the last speed. Apart from the constructors, no
  method sets the enabled flag to true.
- `Numerics`: Java's `Math.max`, the `(int)` cast (truncation toward zero) and division, over
  `real`/`int`.

Arithmetic on `double` is modelled as `real`. Division goes through `Numerics.Quot`, which
returns 0 for a zero divisor: `stop()` is `straight(0)` and so calls `setRate(0)`, whose period
`distancePerPulse / 0` Java turns into an infinity, after which `getRate()` reads 0; a 0 period
plays that part here. `setDistance`/`addDistance` instead require a nonzero distance per pulse and
scale, because there Java's `(int)` of an infinity would saturate to the largest `int`.

Where the code and its documentation disagree the model follows the code:

- `straight` and `rotate` call `scaleFactors`, whose definition is commented out
  (`src/drivetrain/Drivetrain.java:85-98`), so the file does not compile as shown; the model
  treats those calls as doing nothing.
- `rotate(s)` tells the right encoder `-s`, so the measured speeds are `s` and `-s`
  (`Drive.RotateScenario`), not equal; the test `testRotate` overwrites both sides with
  `setTwoSpeeds` before comparing.
- `getDirection()` returns the configured reverse-direction flag, not a sensed direction; the
  constructors with an index channel are documented to force 4X decoding but set nothing.
- The `[-1.0, 1.0]` range of speeds is documented but never enforced; `Set` stores any value.

Scenario methods (`Drive.ArcadeScenario` and its neighbours, `MotorControllers.TalonDisableScenario`,
`MotorControllers.JaguarDisableScenario`) build fresh objects as the JUnit tests do and state, as
postconditions, what the tests assert; the drivetrain fixture uses the tests' calibration constants
(1 left, 0.9 right), any nonzero distance per pulse, and gearboxes whose velocity is the encoder
rate with the constant divided out.

## Model

| member | source | states |
|---|---|---|
| `Numerics.Max` | src/drivetrain/Drivetrain.java:41 | the result is at least both arguments and is one of them |
| `Numerics.Quot` | src/edu/wpi/first/wpilibj/Encoder.java:477-479 | for a nonzero divisor the quotient times the divisor is the dividend; a zero divisor yields 0 |
| `Numerics.TruncToInt` | src/edu/wpi/first/wpilibj/Encoder.java:391-393 | the `(int)` cast rounds toward zero: for x >= 0 the result n has 0 <= n <= x < n + 1, otherwise n - 1 < x <= n <= 0 |
| `Drive.ArcadeMix` | src/drivetrain/Drivetrain.java:35-56 | left < right iff rotate > 0, left > right iff rotate < 0, left == right iff rotate == 0; rotate 0 gives (move, move); move 0 gives (-rotate, rotate); the larger output magnitude equals the larger input magnitude; inputs in [-1, 1] give outputs in [-1, 1] |
| `Drive.MonitoredGearbox.constructor` | test/drivetrain/DrivetrainTest.java:31-32 | a side, built as the tests build each gearbox around its encoder (the class itself is not in the repository), holds its encoder and velocity conversion; the sink reads 0 |
| `Drive.MonitoredGearbox.Set` | src/drivetrain/Drivetrain.java:68 | the sink holds the value written |
| `Drive.Drivetrain.constructor` | src/drivetrain/Drivetrain.java:13-16 | the drivetrain keeps the two given sides (distinct gearboxes and encoders) |
| `Drive.MonitoredGearbox.GetEncoder` | src/drivetrain/Drivetrain.java:69 | the encoder the side was built with, the one `setRate` is called on |
| `Drive.MonitoredGearbox.GetVelocity` | src/drivetrain/Drivetrain.java:101 | a reading of the encoder's rate through the side's conversion; it reads only the encoder, never the sink |
| `Drive.Drivetrain.GetLeftSpeed` | src/drivetrain/Drivetrain.java:100-102 | reads only the left encoder's rate through the left side's conversion, never a sink or a stored command; what it returns after each command is stated by the commanding methods and `Drive.MeasuredSpeedFollowsCommand` |
| `Drive.Drivetrain.GetRightSpeed` | src/drivetrain/Drivetrain.java:104-106 | reads only the right encoder's rate through the right side's conversion, never a sink or a stored command; after a command it is the (un-negated) rate the right encoder was told |
| `Drive.Drivetrain.SetLeftSpeed` | src/drivetrain/Drivetrain.java:67-70 | with distinct sides, the left sink holds s, the left encoder's period is distancePerPulse / s, and the left measured speed is the reading of the rate that encoder simulates for s; the right sink and right measured speed are unchanged |
| `Drive.Drivetrain.SetRightSpeed` | src/drivetrain/Drivetrain.java:72-75 | with distinct sides, the right sink holds -s while the right encoder is set to the rate +s; the left sink and left measured speed are unchanged |
| `Drive.Drivetrain.TwoJoystickDrive` | src/drivetrain/Drivetrain.java:62-65 | the sides are commanded with (l, r): sinks (l, -r), encoder periods for rates l and r, measured speeds read from those rates |
| `Drive.Drivetrain.Straight` | src/drivetrain/Drivetrain.java:23-27 | commanded (s, s): sinks (s, -s), both encoders told s |
| `Drive.Drivetrain.Rotate` | src/drivetrain/Drivetrain.java:29-33 | commanded (s, -s): both sinks hold s, encoders told s and -s |
| `Drive.Drivetrain.Arcade` | src/drivetrain/Drivetrain.java:35-56 | the sides are commanded with the pair `ArcadeMix(move, rotate)` |
| `Drive.Drivetrain.Stop` | src/drivetrain/Drivetrain.java:58-60 | the same as straight(0): sinks 0, both encoder rates 0, measured speeds are the readings of rate 0 |
| `Drive.MeasuredSpeedFollowsCommand` | src/drivetrain/Drivetrain.java:100-106 | once the encoders were told (l, r), each measured speed is the velocity reading of the rate its encoder simulates for l or r; the sinks play no part |
| `Drive.FixtureMeasuresCommand` | test/drivetrain/DrivetrainTest.java:27-46 | on the test fixture, whatever its nonzero distance per pulse, the measured speeds equal the public speeds the encoders were told |
| `Drive.NewTestDrivetrain` | test/drivetrain/DrivetrainTest.java:27-40 | builds the fixture: fresh, distinct encoders with period 1, enabled, the given nonzero distance per pulse on both, constant 1 on the left and 0.9 on the right, and gearboxes whose velocity divides that constant out |
| `Drive.ArcadeScenario` | test/drivetrain/DrivetrainTest.java:76-129 | for any nonzero distance per pulse, after arcade(move, rotate) the measured left speed is below the right iff rotate > 0, above iff rotate < 0, equal iff rotate == 0 |
| `Drive.StraightScenario` | test/drivetrain/DrivetrainTest.java:48-59 | for any nonzero distance per pulse, after straight(s) both sides measure s |
| `Drive.RotateScenario` | src/drivetrain/Drivetrain.java:29-33 | for any nonzero distance per pulse, after rotate(s) the sides measure s and -s |
| `Drive.StopScenario` | test/drivetrain/DrivetrainTest.java:137-146 | for any nonzero distance per pulse, after straight(s) then stop() both sides measure 0 |
| `Drive.TwoJoystickScenario` | test/drivetrain/DrivetrainTest.java:148-155 | for any nonzero distance per pulse, after twoJoystickDrive(l, r) the sides measure l and r |
| `Encoders.ClampedIncrement` | src/edu/wpi/first/wpilibj/Encoder.java:529-531 | what addTicks adds for a requested increment: 0 if it is negative, otherwise the increment; `AddTicks` states this against the old count |
| `Encoders.DistanceToTicks` | src/edu/wpi/first/wpilibj/Encoder.java:458-460 | the requested increment is d / distancePerPulse / scale truncated toward zero |
| `Encoders.RateAfterSetRate` | src/edu/wpi/first/wpilibj/Encoder.java:467-479 | after setRate(r), getRate() is r times the decoding scale factor when distance per pulse and scale are nonzero, and 0 otherwise; so with a nonzero distance per pulse it is r when the constant is 1 |
| `Encoders.DistanceWithinOneTick` | src/edu/wpi/first/wpilibj/Encoder.java:458-465 | with positive distance per pulse and scale, setDistance(d) for d >= 0 reaches a distance at most d and less than one tick's distance below it |
| `Encoders.NonPositiveDistanceAddsNothing` | src/edu/wpi/first/wpilibj/Encoder.java:458-465 | with positive distance per pulse and scale, a distance d <= 0 adds no ticks |
| `Encoders.Encoder.constructor` | src/edu/wpi/first/wpilibj/Encoder.java:72-75 | a new encoder is enabled with the given direction flag, no encoding type, count 0, constant 1, distance per pulse 0, period 0 |
| `Encoders.Encoder.WithEncoding` | src/edu/wpi/first/wpilibj/Encoder.java:126-134 | as the constructor, with the given encoding type recorded |
| `Encoders.Encoder.Start` | src/edu/wpi/first/wpilibj/Encoder.java:363-365 | the encoder is enabled and not stopped; only the enabled flag changes |
| `Encoders.Encoder.Stop` | src/edu/wpi/first/wpilibj/Encoder.java:370-372 | the encoder is disabled and stopped; only the enabled flag changes |
| `Encoders.Encoder.SetEnabled` | src/edu/wpi/first/wpilibj/Encoder.java:512-518 | IsEnabled() is the given flag and GetStopped() its negation; only the enabled flag changes |
| `Encoders.Encoder.SetReverseDirection` | src/edu/wpi/first/wpilibj/Encoder.java:508-510 | GetDirection() reports the flag just set; only that flag changes |
| `Encoders.Encoder.IsEnabled` | src/edu/wpi/first/wpilibj/Encoder.java:512-514 | the enabled flag; `Start`, `Stop` and `SetEnabled` state their effect through it |
| `Encoders.Encoder.GetStopped` | src/edu/wpi/first/wpilibj/Encoder.java:425-427 | stopped exactly when not enabled |
| `Encoders.Encoder.GetDirection` | src/edu/wpi/first/wpilibj/Encoder.java:434-436 | the configured reverse-direction flag, which `SetReverseDirection` sets |
| `Encoders.Encoder.GetRaw` | src/edu/wpi/first/wpilibj/Encoder.java:380-382 | the unscaled tick count; `Reset`, `SetTicks`, `AddTicks`, `AddDistance` and `SetDistance` state their effect through it |
| `Encoders.Encoder.GetDistance` | src/edu/wpi/first/wpilibj/Encoder.java:454-456 | ticks times scale factor times distance per pulse; `SetDistance` proves it lands within one tick below the requested distance |
| `Encoders.Encoder.GetDistancePerPulse` | src/edu/wpi/first/wpilibj/Encoder.java:497-499 | the value last given to `SetDistancePerPulse` |
| `Encoders.Encoder.GetEncodingType` | src/edu/wpi/first/wpilibj/Encoder.java:520-522 | the recorded encoding type, absent under the constructors that take none |
| `Encoders.Encoder.GetDecodingScaleFactor` | src/edu/wpi/first/wpilibj/Encoder.java:444-446 | the calibration constant times the fixed decoding multiplier 1; `SetEncodingType` proves it unchanged by the encoding type |
| `Encoders.Encoder.Get` | src/edu/wpi/first/wpilibj/Encoder.java:391-393 | the count is the raw count times the scale, truncated toward zero; it is the raw count when the scale is 1 |
| `Encoders.Encoder.GetPeriod` | src/edu/wpi/first/wpilibj/Encoder.java:413-415 | the period times the scale is the stored period (0 when the scale is 0) |
| `Encoders.Encoder.GetRate` | src/edu/wpi/first/wpilibj/Encoder.java:477-479 | the rate times the period is the distance per pulse (0 when the period is 0) |
| `Encoders.Encoder.Reset` | src/edu/wpi/first/wpilibj/Encoder.java:399-401 | afterwards getRaw(), get() and getDistance() are all 0 |
| `Encoders.Encoder.SetTicks` | src/edu/wpi/first/wpilibj/Encoder.java:535-537 | getRaw() is t and getDistance() is t times constant times distance per pulse |
| `Encoders.Encoder.AddTicks` | src/edu/wpi/first/wpilibj/Encoder.java:528-533 | a negative n leaves the raw count unchanged; otherwise it grows by exactly n |
| `Encoders.Encoder.AddDistance` | src/edu/wpi/first/wpilibj/Encoder.java:458-460 | the raw count grows by the clamped, truncated tick equivalent of d |
| `Encoders.Encoder.SetDistance` | src/edu/wpi/first/wpilibj/Encoder.java:462-465 | the raw count is the clamped tick equivalent of d; with positive distance per pulse and scale it is 0 for d <= 0, and for d >= 0 getDistance() <= d < getDistance() + one tick's distance |
| `Encoders.Encoder.SetPeriod` | src/edu/wpi/first/wpilibj/Encoder.java:539-541 | the stored period is the given one |
| `Encoders.Encoder.SetRate` | src/edu/wpi/first/wpilibj/Encoder.java:467-469 | the stored period is distancePerPulse / rate and getRate() then reports rate times the scale (0 on a zero divisor) |
| `Encoders.Encoder.SetDistancePerPulse` | src/edu/wpi/first/wpilibj/Encoder.java:493-499 | getDistancePerPulse() returns the value set |
| `Encoders.Encoder.SetEncodingType` | src/edu/wpi/first/wpilibj/Encoder.java:520-526 | the encoding type is recorded and the scale factor, get(), getDistance(), getPeriod() and getRate() are all unchanged |
| `MotorControllers.Talon.constructor` | src/edu/wpi/first/wpilibj/Talon.java:37-39 | a new Talon is enabled and reads 0 |
| `MotorControllers.Talon.InSlot` | src/edu/wpi/first/wpilibj/Talon.java:49-51 | a new Talon is enabled and reads 0 |
| `MotorControllers.Talon.Set` | src/edu/wpi/first/wpilibj/Talon.java:77-81 | while enabled get() returns the value set, unclamped; once disabled it stays 0; only the speed may change, never the enabled flag, and the new speed depends only on the flag and the argument, so a repeated set changes nothing |
| `MotorControllers.Talon.SetInGroup` | src/edu/wpi/first/wpilibj/Talon.java:65-67 | exactly the effect of Set; the sync group is ignored |
| `MotorControllers.Talon.Get` | src/edu/wpi/first/wpilibj/Talon.java:88-90 | the stored speed; 0 whenever the Talon is disabled (`Talon.Valid`) |
| `MotorControllers.Talon.PidWrite` | src/edu/wpi/first/wpilibj/Talon.java:97-99 | exactly the effect of Set |
| `MotorControllers.Talon.Disable` | src/edu/wpi/first/wpilibj/Talon.java:101-105 | the Talon is disabled and reads 0, and the invariant "disabled implies 0" holds |
| `MotorControllers.Jaguar.constructor` | src/edu/wpi/first/wpilibj/Jaguar.java:24-26 | a new Jaguar is enabled and reads 0 |
| `MotorControllers.Jaguar.InSlot` | src/edu/wpi/first/wpilibj/Jaguar.java:34-36 | a new Jaguar is enabled and reads 0 |
| `MotorControllers.Jaguar.Set` | src/edu/wpi/first/wpilibj/Jaguar.java:61-64 | while enabled get() returns the value set, unclamped; while disabled the speed is unchanged; only the speed may change, never the enabled flag |
| `MotorControllers.Jaguar.SetInGroup` | src/edu/wpi/first/wpilibj/Jaguar.java:49-51 | exactly the effect of Set |
| `MotorControllers.Jaguar.Get` | src/edu/wpi/first/wpilibj/Jaguar.java:71-73 | the stored speed, which a disabled Jaguar keeps |
| `MotorControllers.Jaguar.PidWrite` | src/edu/wpi/first/wpilibj/Jaguar.java:80-82 | exactly the effect of Set |
| `MotorControllers.Jaguar.Disable` | src/edu/wpi/first/wpilibj/Jaguar.java:87-89 | the Jaguar is disabled and still reads its last speed |
| `MotorControllers.TalonDisableScenario` | src/edu/wpi/first/wpilibj/Talon.java:101-105 | a Talon set to s reads s; after disable it reads 0, and later set, pidWrite and set-with-group leave it at 0 |
| `MotorControllers.JaguarDisableScenario` | src/edu/wpi/first/wpilibj/Jaguar.java:87-89 | a Jaguar set to s keeps reading s after disable and after later set, pidWrite and set-with-group |

## Left out

- The commented-out speed-factor equalisation (`scaleFactors`, `setLeftSpeedFactor`,
  `setRightSpeedFactor`): dead code; its two calls are modelled as doing nothing.
- `Gearbox`, `MonitoredGearbox`, `SpeedController`, `DigitalSource` and `Vars` are not part of
  this model; only the sink, encoder and velocity reading the drivetrain uses are kept, and the
  conversion from encoder rate to velocity is a parameter (the tests' fixture uses the identity).
- `Drive.ArcadeMix`: the sign properties hold over `real` but not over `double`, where rounding
  can tie the two sides (for move 1.0 and rotate 1e-17, `1.0 - 1e-17` rounds to 1.0, so both
  sides are 1.0).
- `Drive.NewTestDrivetrain`: the tests never set a distance per pulse, whose default is 0; the
  fixture instead takes any nonzero one, on the assumption that the `MonitoredGearbox` that is not
  part of this model makes the encoder report the commanded rate. With the default 0 the model
  measures 0 on both sides, where Java's `getRate()` computes 0/0, NaN. The tests give the right
  encoder calibration constant 0.9, which scales its rate; the fixture's right gearbox divides
  it out again, the assumption under which the tests expect equal sides after `straight`.
- `Encoders.Encoder.AddDistance`: requires a nonzero distance per pulse and scale factor; Java
  accepts 0 (the default distance per pulse) and saturates the `(int)` cast of the infinity.
- `Encoders.Encoder.SetDistance`: requires a nonzero distance per pulse and scale factor, for the
  same reason as `AddDistance`.
- `Drive.Drivetrain.constructor`: requires distinct gearboxes and distinct encoders for the two
  sides, which Java does not check; aliasing of the two sides is not modelled.
- Slot, channel and digital-source constructor parameters: the encoder constructors take only
  the direction flag (and the encoding type); the null checks on the encoding type and digital
  sources are excluded by the types. `EncodingType.value` is kept but affects nothing.
- `Numerics.Quot`: IEEE-754 infinities and NaN are not modelled; a zero divisor yields 0. This
  agrees with Java for `getRate()` after `setRate(0)` with a nonzero distance per pulse, but not
  for `getPeriod()` there (Java: infinity) or with a zero distance per pulse (Java: NaN).
- `Numerics.TruncToInt`: the `(int)` cast's saturation at the bounds of `int` and its mapping of
  NaN to 0 are not modelled.
- `Encoders.Encoder.AddTicks`: Java `int` overflow of the tick count is not modelled; counts are
  unbounded integers.
- Test scaffolding (random loops, `println` output, the `1e-7` tolerance).
- Concurrency: there is none; every operation is a single-threaded call.
