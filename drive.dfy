/** The drivetrain: the arcade mixing rule and the routing of per-side speeds into two
    monitored gearboxes, each a motor sink paired with an encoder. */
module Drive {
  import opened Numerics
  import opened Encoders

  /** A (left, right) pair of per-side speeds. */
  datatype WheelSpeeds = WheelSpeeds(left: real, right: real)

  /** The four-quadrant, `max`-based arcade mix of a move and a rotate value. A move of 0
      takes the outer else-branch and a rotate of 0 the inner one. Positive rotation
      makes the right side faster, negative the left; the larger output magnitude is
      the larger input magnitude, so inputs in [-1, 1] give outputs in [-1, 1]. */
  function ArcadeMix(move: real, rotate: real): (p: WheelSpeeds)
    ensures p.left < p.right <==> rotate > 0.0
    ensures p.left > p.right <==> rotate < 0.0
    ensures p.left == p.right <==> rotate == 0.0
    ensures rotate == 0.0 ==> p == WheelSpeeds(move, move)
    ensures move == 0.0 ==> p == WheelSpeeds(-rotate, rotate)
    ensures Max(Abs(p.left), Abs(p.right)) == Max(Abs(move), Abs(rotate))
    ensures -1.0 <= move <= 1.0 && -1.0 <= rotate <= 1.0 ==>
              -1.0 <= p.left <= 1.0 && -1.0 <= p.right <= 1.0
  {
    if move > 0.0 then
      if rotate > 0.0 then WheelSpeeds(move - rotate, Max(move, rotate))
      else WheelSpeeds(Max(move, -rotate), move + rotate)
    else
      if rotate > 0.0 then WheelSpeeds(-Max(-move, rotate), move + rotate)
      else WheelSpeeds(move - rotate, -Max(-move, -rotate))
  }

  /** The part of a monitored gearbox the drivetrain uses: `set` on its motor sink, its
      encoder, and a velocity reading. The reading is taken from the encoder's rate
      through a conversion fixed when the gearbox is built. */
  class MonitoredGearbox {
    /** The value last written with `Set`. */
    var sink: real
    const encoder: Encoder
    const velocityOfRate: real -> real

    constructor (encoder: Encoder, velocityOfRate: real -> real)
      ensures sink == 0.0 && this.encoder == encoder && this.velocityOfRate == velocityOfRate
    {
      sink := 0.0;
      this.encoder := encoder;
      this.velocityOfRate := velocityOfRate;
    }

    method Set(speed: real)
      modifies this`sink
      ensures sink == speed
    {
      sink := speed;
    }

    function GetEncoder(): Encoder
    {
      encoder
    }

    /** The measured velocity: a reading of the encoder, never of the sink. */
    function GetVelocity(): real
      reads encoder
    {
      velocityOfRate(encoder.GetRate())
    }
  }

  class Drivetrain {
    const leftGearbox: MonitoredGearbox
    const rightGearbox: MonitoredGearbox

    /** The two sides are separate gearboxes with separate encoders. */
    ghost predicate Valid()
    {
      leftGearbox != rightGearbox && leftGearbox.encoder != rightGearbox.encoder
    }

    constructor (leftGearbox: MonitoredGearbox, rightGearbox: MonitoredGearbox)
      requires leftGearbox != rightGearbox && leftGearbox.encoder != rightGearbox.encoder
      ensures Valid() && this.leftGearbox == leftGearbox && this.rightGearbox == rightGearbox
    {
      this.leftGearbox := leftGearbox;
      this.rightGearbox := rightGearbox;
    }

    /** The motor sinks hold what commanding (l, r) writes: l on the left, the mirrored -r
        on the right. */
    ghost predicate SinksCommanded(l: real, r: real)
      reads leftGearbox, rightGearbox
    {
      leftGearbox.sink == l && rightGearbox.sink == -r
    }

    /** Each encoder holds the period `setRate` stores for its side's un-negated speed. */
    ghost predicate EncodersCommanded(l: real, r: real)
      reads leftGearbox.encoder, rightGearbox.encoder
    {
      && leftGearbox.encoder.measuredPeriod == Quot(leftGearbox.encoder.distancePerPulse, l)
      && rightGearbox.encoder.measuredPeriod == Quot(rightGearbox.encoder.distancePerPulse, r)
    }

    /** The sides were last commanded with the public speeds (l, r). */
    ghost predicate Commanded(l: real, r: real)
      reads leftGearbox, rightGearbox, leftGearbox.encoder, rightGearbox.encoder
    {
      SinksCommanded(l, r) && EncodersCommanded(l, r)
    }

    function GetLeftSpeed(): real
      reads leftGearbox.encoder
    {
      leftGearbox.GetVelocity()
    }

    function GetRightSpeed(): real
      reads rightGearbox.encoder
    {
      rightGearbox.GetVelocity()
    }

    method SetLeftSpeed(speed: real)
      requires Valid()
      modifies leftGearbox`sink, leftGearbox.encoder`measuredPeriod
      ensures leftGearbox.sink == speed
      ensures leftGearbox.encoder.measuredPeriod == Quot(leftGearbox.encoder.distancePerPulse, speed)
      ensures GetLeftSpeed() == leftGearbox.velocityOfRate(leftGearbox.encoder.RateAfterSet(speed))
      ensures rightGearbox.sink == old(rightGearbox.sink) && GetRightSpeed() == old(GetRightSpeed())
    {
      leftGearbox.Set(speed);
      leftGearbox.GetEncoder().SetRate(speed);
    }

    /** The right sink is mounted mirrored and receives -speed; its encoder gets +speed. */
    method SetRightSpeed(speed: real)
      requires Valid()
      modifies rightGearbox`sink, rightGearbox.encoder`measuredPeriod
      ensures rightGearbox.sink == -speed
      ensures rightGearbox.encoder.measuredPeriod == Quot(rightGearbox.encoder.distancePerPulse, speed)
      ensures GetRightSpeed() == rightGearbox.velocityOfRate(rightGearbox.encoder.RateAfterSet(speed))
      ensures leftGearbox.sink == old(leftGearbox.sink) && GetLeftSpeed() == old(GetLeftSpeed())
    {
      rightGearbox.Set(-speed);
      rightGearbox.GetEncoder().SetRate(speed);
    }

    method TwoJoystickDrive(leftSpeed: real, rightSpeed: real)
      requires Valid()
      modifies leftGearbox`sink, leftGearbox.encoder`measuredPeriod
      modifies rightGearbox`sink, rightGearbox.encoder`measuredPeriod
      ensures Commanded(leftSpeed, rightSpeed)
      ensures GetLeftSpeed() == leftGearbox.velocityOfRate(leftGearbox.encoder.RateAfterSet(leftSpeed))
      ensures GetRightSpeed() == rightGearbox.velocityOfRate(rightGearbox.encoder.RateAfterSet(rightSpeed))
    {
      SetLeftSpeed(leftSpeed);
      SetRightSpeed(rightSpeed);
    }

    /** Both sides at `speed`: the sinks read (speed, -speed). The speed-factor
        equalisation step that follows in the source is inert and omitted. */
    method Straight(speed: real)
      requires Valid()
      modifies leftGearbox`sink, leftGearbox.encoder`measuredPeriod
      modifies rightGearbox`sink, rightGearbox.encoder`measuredPeriod
      ensures Commanded(speed, speed)
      ensures leftGearbox.sink == speed && rightGearbox.sink == -speed
      ensures GetLeftSpeed() == leftGearbox.velocityOfRate(leftGearbox.encoder.RateAfterSet(speed))
      ensures GetRightSpeed() == rightGearbox.velocityOfRate(rightGearbox.encoder.RateAfterSet(speed))
    {
      SetLeftSpeed(speed);
      SetRightSpeed(speed);
    }

    /** Left at `speed`, right at `-speed`: both sinks read `speed`, the encoders are
        told (speed, -speed). */
    method Rotate(speed: real)
      requires Valid()
      modifies leftGearbox`sink, leftGearbox.encoder`measuredPeriod
      modifies rightGearbox`sink, rightGearbox.encoder`measuredPeriod
      ensures Commanded(speed, -speed)
      ensures leftGearbox.sink == speed && rightGearbox.sink == speed
      ensures GetLeftSpeed() == leftGearbox.velocityOfRate(leftGearbox.encoder.RateAfterSet(speed))
      ensures GetRightSpeed() == rightGearbox.velocityOfRate(rightGearbox.encoder.RateAfterSet(-speed))
    {
      SetLeftSpeed(speed);
      SetRightSpeed(-speed);
    }

    /** Mixes (move, rotate) with `ArcadeMix` and drives the two sides with the result. */
    method Arcade(moveValue: real, rotateValue: real)
      requires Valid()
      modifies leftGearbox`sink, leftGearbox.encoder`measuredPeriod
      modifies rightGearbox`sink, rightGearbox.encoder`measuredPeriod
      ensures Commanded(ArcadeMix(moveValue, rotateValue).left, ArcadeMix(moveValue, rotateValue).right)
      ensures GetLeftSpeed() == leftGearbox.velocityOfRate(
                leftGearbox.encoder.RateAfterSet(ArcadeMix(moveValue, rotateValue).left))
      ensures GetRightSpeed() == rightGearbox.velocityOfRate(
                rightGearbox.encoder.RateAfterSet(ArcadeMix(moveValue, rotateValue).right))
    {
      var mix := ArcadeMix(moveValue, rotateValue);
      TwoJoystickDrive(mix.left, mix.right);
    }

    /** `Straight(0)`: both sinks at 0 and both encoders report a rate of 0. */
    method Stop()
      requires Valid()
      modifies leftGearbox`sink, leftGearbox.encoder`measuredPeriod
      modifies rightGearbox`sink, rightGearbox.encoder`measuredPeriod
      ensures Commanded(0.0, 0.0)
      ensures leftGearbox.encoder.GetRate() == 0.0 && rightGearbox.encoder.GetRate() == 0.0
      ensures GetLeftSpeed() == leftGearbox.velocityOfRate(0.0)
      ensures GetRightSpeed() == rightGearbox.velocityOfRate(0.0)
    {
      Straight(0.0);
    }
  }

  /** Once the encoders were told (l, r), each measured speed is the reading of the rate
      its encoder simulates for that side's public speed, whatever the sinks hold. */
  lemma {:induction false} MeasuredSpeedFollowsCommand(d: Drivetrain, l: real, r: real)
    requires d.EncodersCommanded(l, r)
    ensures d.GetLeftSpeed() == d.leftGearbox.velocityOfRate(d.leftGearbox.encoder.RateAfterSet(l))
    ensures d.GetRightSpeed() == d.rightGearbox.velocityOfRate(d.rightGearbox.encoder.RateAfterSet(r))
  {
    var le := d.leftGearbox.encoder;
    var re := d.rightGearbox.encoder;
    RateAfterSetRate(le.distancePerPulse, l, le.GetDecodingScaleFactor());
    assert le.GetRate() == le.RateAfterSet(l);
    RateAfterSetRate(re.distancePerPulse, r, re.GetDecodingScaleFactor());
    assert re.GetRate() == re.RateAfterSet(r);
  }

  /** The calibration constant the drivetrain tests give the right encoder. */
  const RightTestConstant: real := 0.9

  /** The fixture of the drivetrain tests: separate encoders with a nonzero distance per
      pulse, calibration constant 1 on the left and `RightTestConstant` on the right, and
      gearboxes whose velocity is the encoder rate with the calibration constant divided
      out. */
  ghost predicate IsTestFixture(d: Drivetrain)
    reads d.leftGearbox.encoder, d.rightGearbox.encoder
  {
    && d.Valid()
    && d.leftGearbox.encoder.distancePerPulse != 0.0 && d.leftGearbox.encoder.constant == 1.0
    && d.rightGearbox.encoder.distancePerPulse != 0.0
    && d.rightGearbox.encoder.constant == RightTestConstant
    && (forall x :: d.leftGearbox.velocityOfRate(x) == x)
    && (forall x :: d.rightGearbox.velocityOfRate(x) == x / RightTestConstant)
  }

  /** On the test fixture the measured speeds are the public speeds the encoders were told. */
  lemma FixtureMeasuresCommand(d: Drivetrain, l: real, r: real)
    requires IsTestFixture(d) && d.EncodersCommanded(l, r)
    ensures d.GetLeftSpeed() == l && d.GetRightSpeed() == r
  {
    MeasuredSpeedFollowsCommand(d, l, r);
  }

  /** The drivetrain tests' set-up: two fresh encoders, the right one with calibration
      constant `RightTestConstant`, on fresh gearboxes, then period 1 and enabled. The tests
      never set a distance per pulse; the fixture is built for any nonzero one, and the
      scenarios below hold whichever is chosen. */
  method NewTestDrivetrain(distancePerPulse: real) returns (d: Drivetrain)
    requires distancePerPulse != 0.0
    ensures IsTestFixture(d)
    ensures d.leftGearbox.encoder.distancePerPulse == distancePerPulse
    ensures d.rightGearbox.encoder.distancePerPulse == distancePerPulse
    ensures fresh(d.leftGearbox) && fresh(d.rightGearbox)
    ensures fresh(d.leftGearbox.encoder) && fresh(d.rightGearbox.encoder)
  {
    var e1 := new Encoder(false);
    var e2 := new Encoder(false);
    e2.constant := RightTestConstant;
    e1.SetDistancePerPulse(distancePerPulse);
    e2.SetDistancePerPulse(distancePerPulse);
    var a := new MonitoredGearbox(e1, (x: real) => x);
    var b := new MonitoredGearbox(e2, (x: real) => x / RightTestConstant);
    d := new Drivetrain(a, b);
    e1.SetPeriod(1.0);
    e2.SetPeriod(1.0);
    e1.SetEnabled(true);
    e2.SetEnabled(true);
  }

  /** Arcade drive turns toward the rotation: the measured left speed is below the
      right exactly when rotate > 0, above it exactly when rotate < 0. */
  method ArcadeScenario(move: real, rotate: real, distancePerPulse: real)
      returns (leftSpeed: real, rightSpeed: real)
    requires distancePerPulse != 0.0
    ensures leftSpeed < rightSpeed <==> rotate > 0.0
    ensures leftSpeed > rightSpeed <==> rotate < 0.0
    ensures leftSpeed == rightSpeed <==> rotate == 0.0
  {
    var d := NewTestDrivetrain(distancePerPulse);
    d.Arcade(move, rotate);
    var mix := ArcadeMix(move, rotate);
    assert IsTestFixture(d);
    FixtureMeasuresCommand(d, mix.left, mix.right);
    leftSpeed := d.GetLeftSpeed();
    rightSpeed := d.GetRightSpeed();
  }

  /** After `Straight(s)` both sides measure s. */
  method StraightScenario(s: real, distancePerPulse: real)
      returns (leftSpeed: real, rightSpeed: real)
    requires distancePerPulse != 0.0
    ensures leftSpeed == s && rightSpeed == s
  {
    var d := NewTestDrivetrain(distancePerPulse);
    d.Straight(s);
    assert IsTestFixture(d);
    FixtureMeasuresCommand(d, s, s);
    leftSpeed := d.GetLeftSpeed();
    rightSpeed := d.GetRightSpeed();
  }

  /** After `Rotate(s)` the sides measure s and -s: opposite, not equal. */
  method RotateScenario(s: real, distancePerPulse: real)
      returns (leftSpeed: real, rightSpeed: real)
    requires distancePerPulse != 0.0
    ensures leftSpeed == s && rightSpeed == -s
  {
    var d := NewTestDrivetrain(distancePerPulse);
    d.Rotate(s);
    assert IsTestFixture(d);
    FixtureMeasuresCommand(d, s, -s);
    leftSpeed := d.GetLeftSpeed();
    rightSpeed := d.GetRightSpeed();
  }

  /** After any `Straight(s)`, `Stop()` leaves both sides measuring 0. */
  method StopScenario(s: real, distancePerPulse: real)
      returns (leftSpeed: real, rightSpeed: real)
    requires distancePerPulse != 0.0
    ensures leftSpeed == 0.0 && rightSpeed == 0.0
  {
    var d := NewTestDrivetrain(distancePerPulse);
    d.Straight(s);
    d.Stop();
    assert IsTestFixture(d);
    FixtureMeasuresCommand(d, 0.0, 0.0);
    leftSpeed := d.GetLeftSpeed();
    rightSpeed := d.GetRightSpeed();
  }

  /** After `TwoJoystickDrive(l, r)` the sides measure l and r. */
  method TwoJoystickScenario(l: real, r: real, distancePerPulse: real)
      returns (leftSpeed: real, rightSpeed: real)
    requires distancePerPulse != 0.0
    ensures leftSpeed == l && rightSpeed == r
  {
    var d := NewTestDrivetrain(distancePerPulse);
    d.TwoJoystickDrive(l, r);
    assert IsTestFixture(d);
    FixtureMeasuresCommand(d, l, r);
    leftSpeed := d.GetLeftSpeed();
    rightSpeed := d.GetRightSpeed();
  }
}
