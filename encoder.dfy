/** The simulated quadrature encoder of `edu.wpi.first.wpilibj.Encoder`: a raw tick
    count, an enabled flag, a direction flag, a distance per pulse and a measured
    period, with the conversions between counts, distance, period and rate. */
module Encoders {
  import opened Numerics

  /** The decoding types 1X, 2X and 4X; the model keeps the integer each one stands for. */
  datatype EncodingType = K1X | K2X | K4X
  {
    function Value(): int
    {
      match this
      case K1X => 0
      case K2X => 1
      case K4X => 2
    }
  }

  /** A reference that may be null: the encoding type is null under the constructors
      that do not take one. */
  datatype Option<T> = None | Some(value: T)

  /** The multiplier the decoding type would contribute; the class fixes it at 1 and
      no method changes it. */
  const DecodingMultiplier: real := 1.0

  /** The tick increment `addDistance` requests for a distance d: d over the distance per
      pulse over the scale, truncated toward zero (before `addTicks` clamps it). */
  function DistanceToTicks(d: real, distancePerPulse: real, scale: real): (n: int)
    requires distancePerPulse != 0.0 && scale != 0.0
    ensures TruncatesTo(d / distancePerPulse / scale, n)
  {
    TruncToInt(d / distancePerPulse / scale)
  }

  /** What `addTicks` adds to the count for a requested increment: negative requests add nothing. */
  function ClampedIncrement(ticks: int): nat
  {
    if ticks < 0 then 0 else ticks
  }

  /** The rate `getRate` reports once `setRate(rate)` has stored the period
      distancePerPulse / rate, for every input: the rate scaled by the decoding scale
      factor, or 0 where a division by zero intervenes. */
  lemma RateAfterSetRate(distancePerPulse: real, rate: real, scale: real)
    ensures Quot(distancePerPulse, Quot(Quot(distancePerPulse, rate), scale))
         == if distancePerPulse != 0.0 && scale != 0.0 then rate * scale else 0.0
  {
  }

  /** With a positive distance per pulse and scale, a non-negative distance is reached
      from below to within one tick's distance. */
  lemma DistanceWithinOneTick(d: real, distancePerPulse: real, scale: real)
    requires distancePerPulse > 0.0 && scale > 0.0 && d >= 0.0
    ensures var n := ClampedIncrement(DistanceToTicks(d, distancePerPulse, scale));
            n as real * scale * distancePerPulse <= d < (n as real + 1.0) * scale * distancePerPulse
  {
    var x := d / distancePerPulse / scale;
    var step := scale * distancePerPulse;
    assert x * step == d by {
      assert (d / distancePerPulse) * distancePerPulse == d;
      assert x * scale == d / distancePerPulse;
    }
    assert x >= 0.0;
    var n := DistanceToTicks(d, distancePerPulse, scale);
    assert ClampedIncrement(n) == n;
    calc {
      n as real * scale * distancePerPulse;
    ==
      n as real * step;
    <=  { assert n as real <= x; }
      x * step;
    ==
      d;
    }
    calc {
      d;
    ==
      x * step;
    <   { assert x < n as real + 1.0; }
      (n as real + 1.0) * step;
    ==
      (n as real + 1.0) * scale * distancePerPulse;
    }
  }

  /** With a positive distance per pulse and scale, a non-positive distance adds no ticks. */
  lemma NonPositiveDistanceAddsNothing(d: real, distancePerPulse: real, scale: real)
    requires distancePerPulse > 0.0 && scale > 0.0 && d <= 0.0
    ensures ClampedIncrement(DistanceToTicks(d, distancePerPulse, scale)) == 0
  {
  }

  class Encoder {
    /** Public per-device calibration multiplier (default 1, 0.9 in the drivetrain tests). */
    var constant: real
    var enabled: bool
    var ticksCountValue: int
    var encodingType: Option<EncodingType>
    var distancePerPulse: real
    var reverseDirection: bool
    var measuredPeriod: real

    /** The constructors that take channels or digital sources but no encoding type;
        the channel numbers and sources play no part. */
    constructor (reverseDirection: bool)
      ensures enabled && this.reverseDirection == reverseDirection
      ensures ticksCountValue == 0 && encodingType == None
      ensures constant == 1.0 && distancePerPulse == 0.0 && measuredPeriod == 0.0
    {
      constant := 1.0;
      ticksCountValue := 0;
      encodingType := None;
      distancePerPulse := 0.0;
      measuredPeriod := 0.0;
      enabled := true;
      this.reverseDirection := reverseDirection;
    }

    /** The constructors that are given an encoding type, which cannot be null here. */
    constructor WithEncoding(reverseDirection: bool, encodingType: EncodingType)
      ensures enabled && this.reverseDirection == reverseDirection
      ensures ticksCountValue == 0 && this.encodingType == Some(encodingType)
      ensures constant == 1.0 && distancePerPulse == 0.0 && measuredPeriod == 0.0
    {
      constant := 1.0;
      ticksCountValue := 0;
      this.encodingType := Some(encodingType);
      distancePerPulse := 0.0;
      measuredPeriod := 0.0;
      enabled := true;
      this.reverseDirection := reverseDirection;
    }

    method Start()
      modifies this`enabled
      ensures enabled && !GetStopped()
    {
      SetEnabled(true);
    }

    method Stop()
      modifies this`enabled
      ensures !enabled && GetStopped()
    {
      SetEnabled(false);
    }

    function IsEnabled(): bool
      reads this
    {
      enabled
    }

    method SetEnabled(enabled: bool)
      modifies this`enabled
      ensures IsEnabled() == enabled && GetStopped() == !enabled
    {
      this.enabled := enabled;
    }

    /** An encoder counts as stopped exactly when it is disabled. */
    function GetStopped(): bool
      reads this
    {
      !IsEnabled()
    }

    /** Reports the configured reverse-direction flag, not a sensed direction. */
    function GetDirection(): bool
      reads this
    {
      reverseDirection
    }

    method SetReverseDirection(reverseDirection: bool)
      modifies this`reverseDirection
      ensures GetDirection() == reverseDirection
    {
      this.reverseDirection := reverseDirection;
    }

    function GetRaw(): int
      reads this
    {
      ticksCountValue
    }

    /** The calibration constant times the fixed decoding multiplier. */
    function GetDecodingScaleFactor(): real
      reads this
    {
      constant * DecodingMultiplier
    }

    /** The count scaled by the decoding scale factor, truncated toward zero. */
    function Get(): (n: int)
      reads this
      ensures TruncatesTo(GetRaw() as real * GetDecodingScaleFactor(), n)
      ensures GetDecodingScaleFactor() == 1.0 ==> n == GetRaw()
    {
      TruncToInt(GetRaw() as real * GetDecodingScaleFactor())
    }

    /** The distance since the last reset: ticks times scale times distance per pulse. */
    function GetDistance(): real
      reads this
    {
      GetRaw() as real * GetDecodingScaleFactor() * distancePerPulse
    }

    /** The stored period divided by the decoding scale factor. */
    function GetPeriod(): (p: real)
      reads this
      ensures GetDecodingScaleFactor() != 0.0 ==> p * GetDecodingScaleFactor() == measuredPeriod
      ensures GetDecodingScaleFactor() == 0.0 ==> p == 0.0
    {
      Quot(measuredPeriod, GetDecodingScaleFactor())
    }

    /** Distance per pulse over the scaled period. */
    function GetRate(): (r: real)
      reads this
      ensures GetPeriod() != 0.0 ==> r * GetPeriod() == distancePerPulse
      ensures GetPeriod() == 0.0 ==> r == 0.0
    {
      Quot(distancePerPulse, GetPeriod())
    }

    /** What `GetRate` reports after `SetRate(rate)` on this encoder. */
    ghost function RateAfterSet(rate: real): real
      reads this
    {
      if distancePerPulse != 0.0 && GetDecodingScaleFactor() != 0.0
      then rate * GetDecodingScaleFactor() else 0.0
    }

    method Reset()
      modifies this`ticksCountValue
      ensures GetRaw() == 0 && Get() == 0 && GetDistance() == 0.0
    {
      ticksCountValue := 0;
    }

    method SetTicks(ticks: int)
      modifies this`ticksCountValue
      ensures GetRaw() == ticks
      ensures GetDistance() == ticks as real * constant * distancePerPulse
    {
      this.ticksCountValue := ticks;
    }

    /** Adds a non-negative number of ticks; a negative request is ignored. */
    method AddTicks(ticks: int)
      modifies this`ticksCountValue
      ensures ticks < 0 ==> GetRaw() == old(GetRaw())
      ensures ticks >= 0 ==> GetRaw() == old(GetRaw()) + ticks
    {
      var increment := ticks;
      if increment < 0 {
        increment := 0;
      }
      SetTicks(ticksCountValue + increment);
    }

    method AddDistance(d: real)
      requires distancePerPulse != 0.0 && GetDecodingScaleFactor() != 0.0
      modifies this`ticksCountValue
      ensures GetRaw() == old(GetRaw())
        + ClampedIncrement(DistanceToTicks(d, distancePerPulse, GetDecodingScaleFactor()))
    {
      AddTicks(TruncToInt(d / distancePerPulse / GetDecodingScaleFactor()));
    }

    method SetDistance(d: real)
      requires distancePerPulse != 0.0 && GetDecodingScaleFactor() != 0.0
      modifies this`ticksCountValue
      ensures GetRaw() == ClampedIncrement(DistanceToTicks(d, distancePerPulse, GetDecodingScaleFactor()))
      ensures distancePerPulse > 0.0 && GetDecodingScaleFactor() > 0.0 && d <= 0.0 ==> GetRaw() == 0
      ensures distancePerPulse > 0.0 && GetDecodingScaleFactor() > 0.0 && d >= 0.0 ==>
        GetDistance() <= d < GetDistance() + GetDecodingScaleFactor() * distancePerPulse
    {
      Reset();
      AddDistance(d);
      if distancePerPulse > 0.0 && GetDecodingScaleFactor() > 0.0 {
        if d <= 0.0 {
          NonPositiveDistanceAddsNothing(d, distancePerPulse, GetDecodingScaleFactor());
        }
        if d >= 0.0 {
          DistanceWithinOneTick(d, distancePerPulse, GetDecodingScaleFactor());
        }
      }
    }

    method SetPeriod(period: real)
      modifies this`measuredPeriod
      ensures measuredPeriod == period
    {
      measuredPeriod := period;
    }

    /** Stores the period that makes `GetRate` report `rate` (scaled by the decoding factor). */
    method SetRate(rate: real)
      modifies this`measuredPeriod
      ensures measuredPeriod == Quot(distancePerPulse, rate)
      ensures GetRate() == RateAfterSet(rate)
    {
      SetPeriod(Quot(distancePerPulse, rate));
      RateAfterSetRate(distancePerPulse, rate, GetDecodingScaleFactor());
    }

    method SetDistancePerPulse(distancePerPulse: real)
      modifies this`distancePerPulse
      ensures GetDistancePerPulse() == distancePerPulse
    {
      this.distancePerPulse := distancePerPulse;
    }

    function GetDistancePerPulse(): real
      reads this
    {
      distancePerPulse
    }

    function GetEncodingType(): Option<EncodingType>
      reads this
    {
      encodingType
    }

    /** Records the encoding type; no conversion depends on it. */
    method SetEncodingType(encodingType: EncodingType)
      modifies this`encodingType
      ensures GetEncodingType() == Some(encodingType)
      ensures GetDecodingScaleFactor() == old(GetDecodingScaleFactor())
      ensures Get() == old(Get()) && GetDistance() == old(GetDistance())
      ensures GetPeriod() == old(GetPeriod()) && GetRate() == old(GetRate())
    {
      this.encodingType := Some(encodingType);
    }
  }
}
