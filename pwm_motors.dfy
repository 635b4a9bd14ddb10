/** The two-wheel PWM motor controller (`src/hardware/motors.py`): a clamped speed and
    turn direction mixed into normalised wheel commands, PWM duty cycles proportional to
    the wheel magnitudes, and an emergency stop that disables the motor shield. The GPIO
    pins are sinks: duty-cycle changes and enable-pin writes are appended to logs. */
module PwmMotors {
  import opened Common
  import opened Drive

  /** One pair of duty-cycle changes, left then right. */
  datatype Duty = Duty(left: real, right: real)

  /** The wheel commands for a speed and a turn direction, both first clamped to `[-1, 1]`:
      left = speed + direction, right = speed - direction, then normalised. */
  function WheelCommands(speed: real, direction: real): (w: (real, real))
    ensures -1.0 <= w.0 <= 1.0 && -1.0 <= w.1 <= 1.0
    ensures -1.0 <= speed <= 1.0 && -1.0 <= direction <= 1.0 && AbsReal(speed) + AbsReal(direction) <= 1.0 ==>
      w == (speed + direction, speed - direction)
  {
    var s := ClampReal(speed, -1.0, 1.0);
    var d := ClampReal(direction, -1.0, 1.0);
    Normalise(s + d, s - d)
  }

  /** Going straight drives both wheels equally; a pure turn drives them in opposite senses. */
  lemma WheelCommandsSymmetry(speed: real, direction: real)
    requires -1.0 <= speed <= 1.0 && -1.0 <= direction <= 1.0
    ensures WheelCommands(speed, 0.0) == (speed, speed)
    ensures WheelCommands(0.0, direction) == (direction, -direction)
  {
  }

  /** `abs(wheel) * max_speed`. */
  function DutyOf(wheel: real, maxSpeed: real): (duty: real)
    ensures 0.0 <= maxSpeed ==> 0.0 <= duty
    ensures 0.0 <= maxSpeed && -1.0 <= wheel <= 1.0 ==> duty <= maxSpeed
  {
    var a := AbsReal(wheel);
    assert 0.0 <= maxSpeed && a <= 1.0 ==> a * maxSpeed <= 1.0 * maxSpeed;
    a * maxSpeed
  }

  class MotorController {
    const maxSpeed: real
    const gpioAvailable: bool
    var enabled: bool
    var emergencyStopped: bool
    var currentSpeed: real
    var currentDirection: real
    /** Duty-cycle changes written to the two PWM channels. */
    var duties: seq<Duty>
    /** Writes to the shield's enable pin: `true` for high. */
    var enableWrites: seq<bool>

    /** Starts enabled unless GPIO is present and its set-up fails; on a successful set-up
        the shield is enabled. */
    constructor (maxSpeed: real, gpioAvailable: bool, gpioSetupSucceeds: bool)
      ensures this.maxSpeed == maxSpeed && this.gpioAvailable == gpioAvailable
      ensures enabled == (!gpioAvailable || gpioSetupSucceeds)
      ensures !emergencyStopped && currentSpeed == 0.0 && currentDirection == 0.0
      ensures duties == []
      ensures enableWrites == if gpioAvailable && gpioSetupSucceeds then [true] else []
    {
      this.maxSpeed := maxSpeed;
      this.gpioAvailable := gpioAvailable;
      currentSpeed := 0.0;
      currentDirection := 0.0;
      emergencyStopped := false;
      duties := [];
      if gpioAvailable && gpioSetupSucceeds {
        enabled := true;
        enableWrites := [true];
      } else {
        enabled := !gpioAvailable;
        enableWrites := [];
      }
    }

    /** `is_healthy`. */
    predicate IsHealthy()
      reads this
    {
      !emergencyStopped && enabled
    }

    /** `_set_motor_speeds`: without GPIO nothing is written; otherwise each channel gets
        the duty of its wheel. */
    method SetMotorSpeeds(leftSpeed: real, rightSpeed: real)
      modifies this
      ensures duties == old(duties) + if gpioAvailable then [Duty(DutyOf(leftSpeed, maxSpeed), DutyOf(rightSpeed, maxSpeed))] else []
      ensures enableWrites == old(enableWrites) && enabled == old(enabled) && emergencyStopped == old(emergencyStopped)
      ensures currentSpeed == old(currentSpeed) && currentDirection == old(currentDirection)
    {
      if !gpioAvailable {
        return;
      }
      var leftDuty := DutyOf(leftSpeed, maxSpeed);
      var rightDuty := DutyOf(rightSpeed, maxSpeed);
      duties := duties + [Duty(leftDuty, rightDuty)];
    }

    /** `set_velocity`: ignored during an emergency stop or when disabled; otherwise the
        clamped inputs are recorded and the wheels driven. */
    method SetVelocity(speed: real, direction: real)
      modifies this
      ensures !old(IsHealthy()) ==> unchanged(this)
      ensures old(IsHealthy()) ==>
        currentSpeed == ClampReal(speed, -1.0, 1.0) && currentDirection == ClampReal(direction, -1.0, 1.0) &&
        var w := WheelCommands(speed, direction);
        duties == old(duties) + if gpioAvailable then [Duty(DutyOf(w.0, maxSpeed), DutyOf(w.1, maxSpeed))] else []
      ensures enableWrites == old(enableWrites) && enabled == old(enabled) && emergencyStopped == old(emergencyStopped)
    {
      if emergencyStopped {
        return;
      }
      if !enabled {
        return;
      }
      var s := ClampReal(speed, -1.0, 1.0);
      var d := ClampReal(direction, -1.0, 1.0);
      var w := Normalise(s + d, s - d);
      currentSpeed := s;
      currentDirection := d;
      SetMotorSpeeds(w.0, w.1);
    }

    /** `stop`: speed and direction zero, both channels at zero duty. */
    method Stop()
      modifies this
      ensures currentSpeed == 0.0 && currentDirection == 0.0
      ensures duties == old(duties) + if gpioAvailable then [Duty(0.0, 0.0)] else []
      ensures enableWrites == old(enableWrites) && enabled == old(enabled) && emergencyStopped == old(emergencyStopped)
    {
      currentSpeed := 0.0;
      currentDirection := 0.0;
      SetMotorSpeeds(0.0, 0.0);
    }

    /** `emergency_stop`: latches the flag, stops, and pulls the enable pin low. */
    method EmergencyStop()
      modifies this
      ensures emergencyStopped && !IsHealthy()
      ensures currentSpeed == 0.0 && currentDirection == 0.0
      ensures duties == old(duties) + if gpioAvailable then [Duty(0.0, 0.0)] else []
      ensures enableWrites == old(enableWrites) + if gpioAvailable then [false] else []
      ensures enabled == old(enabled)
    {
      emergencyStopped := true;
      Stop();
      if gpioAvailable {
        enableWrites := enableWrites + [false];
      }
    }

    /** `reset_emergency_stop`: only a latched stop is reset, re-enabling the shield. */
    method ResetEmergencyStop()
      modifies this
      ensures !emergencyStopped && IsHealthy() == enabled
      ensures enableWrites == old(enableWrites) + if old(emergencyStopped) && gpioAvailable then [true] else []
      ensures duties == old(duties) && enabled == old(enabled)
      ensures currentSpeed == old(currentSpeed) && currentDirection == old(currentDirection)
    {
      if emergencyStopped {
        emergencyStopped := false;
        if gpioAvailable {
          enableWrites := enableWrites + [true];
        }
      }
    }
  }
}
