/** The two simulated PWM speed controllers, `Talon` and `Jaguar`. Each holds a speed
    and an enabled latch; `set` writes the speed only while enabled, and nothing
    enables a controller again once `disable` has run. They differ in `disable`:
    the Talon writes 0 before latching, the Jaguar keeps its last speed. */
module MotorControllers {

  /** Java's `byte`, the type of the ignored synchronisation group. */
  type Byte = b: int | -128 <= b < 128

  class Talon {
    var speed: real
    var enabled: bool

    /** A disabled Talon reads 0: `Disable` clears the speed while still enabled. */
    ghost predicate Valid()
      reads this
    {
      !enabled ==> speed == 0.0
    }

    /** The constructor on a PWM channel of the default module; the channel plays no part. */
    constructor (channel: int)
      ensures Valid() && enabled && Get() == 0.0
    {
      speed := 0.0;
      enabled := true;
    }

    /** The constructor on a slot and channel; neither plays a part. */
    constructor InSlot(slot: int, channel: int)
      ensures Valid() && enabled && Get() == 0.0
    {
      speed := 0.0;
      enabled := true;
    }

    /** Stores the speed, unclamped, while enabled; otherwise does nothing. */
    method Set(speed: real)
      requires Valid()
      modifies this`speed
      ensures Valid()
      ensures old(enabled) ==> Get() == speed
      ensures !old(enabled) ==> Get() == old(Get()) == 0.0
    {
      if enabled {
        this.speed := speed;
      }
    }

    /** The deprecated form with a synchronisation group, which is ignored. */
    method SetInGroup(speed: real, syncGroup: Byte)
      requires Valid()
      modifies this`speed
      ensures Valid()
      ensures old(enabled) ==> Get() == speed
      ensures !old(enabled) ==> Get() == old(Get()) == 0.0
    {
      Set(speed);
    }

    function Get(): real
      reads this
    {
      speed
    }

    method PidWrite(output: real)
      requires Valid()
      modifies this`speed
      ensures Valid()
      ensures old(enabled) ==> Get() == output
      ensures !old(enabled) ==> Get() == old(Get()) == 0.0
    {
      Set(output);
    }

    method Disable()
      requires Valid()
      modifies this
      ensures Valid() && !enabled && Get() == 0.0
    {
      Set(0.0);
      enabled := false;
    }
  }

  class Jaguar {
    var enabled: bool
    var speed: real

    /** The constructor on a PWM channel of the default module; the channel plays no part. */
    constructor (channel: int)
      ensures enabled && Get() == 0.0
    {
      enabled := true;
      speed := 0.0;
    }

    /** The constructor on a slot and channel; neither plays a part. */
    constructor InSlot(slot: int, channel: int)
      ensures enabled && Get() == 0.0
    {
      enabled := true;
      speed := 0.0;
    }

    /** Stores the speed, unclamped, while enabled; otherwise does nothing. */
    method Set(speed: real)
      modifies this`speed
      ensures Get() == if enabled then speed else old(Get())
    {
      if enabled {
        this.speed := speed;
      }
    }

    /** The deprecated form with a synchronisation group, which is ignored. */
    method SetInGroup(speed: real, syncGroup: Byte)
      modifies this`speed
      ensures Get() == if enabled then speed else old(Get())
    {
      Set(speed);
    }

    function Get(): real
      reads this
    {
      speed
    }

    method PidWrite(output: real)
      modifies this`speed
      ensures Get() == if enabled then output else old(Get())
    {
      Set(output);
    }

    /** Latches the controller off and keeps the last speed. */
    method Disable()
      modifies this`enabled
      ensures !enabled && Get() == old(Get())
    {
      enabled := false;
    }
  }

  /** A Talon commanded with `s`, disabled, then commanded again by `set` and
      `pidWrite`: it reads `s` before the disable and 0 from then on. */
  method TalonDisableScenario(s: real, later: real) returns (beforeDisable: real, afterDisable: real, afterSet: real)
    ensures beforeDisable == s
    ensures afterDisable == 0.0 && afterSet == 0.0
  {
    var talon := new Talon(1);
    talon.Set(s);
    beforeDisable := talon.Get();
    talon.Disable();
    afterDisable := talon.Get();
    talon.Set(later);
    talon.PidWrite(later);
    talon.SetInGroup(later, 0);
    afterSet := talon.Get();
  }

  /** The same sequence on a Jaguar: it goes on reading `s` after the disable. */
  method JaguarDisableScenario(s: real, later: real) returns (beforeDisable: real, afterDisable: real, afterSet: real)
    ensures beforeDisable == s
    ensures afterDisable == s && afterSet == s
  {
    var jaguar := new Jaguar(1);
    jaguar.Set(s);
    beforeDisable := jaguar.Get();
    jaguar.Disable();
    afterDisable := jaguar.Get();
    jaguar.Set(later);
    jaguar.PidWrite(later);
    jaguar.SetInGroup(later, 0);
    afterSet := jaguar.Get();
  }
}
