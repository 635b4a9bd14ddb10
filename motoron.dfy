/** The three-channel Motoron motor controller (`src/core/motors.py`): per-motor speed
    commands clamped to the configured maximum and optionally reversed, a latched
    emergency stop that suppresses commands, and differential drive on motors 1 and 2.
    The I2C controller is a sink: every command it receives is appended to `sent`. */
module Motoron {
  import opened Common
  import opened Drive

  /** What the controller is sent: a reinitialisation (reset, CRC off, timeout and the
      per-motor acceleration limits) or a speed for one motor. */
  datatype Command = Initialize | SetSpeed(motor: int, speed: int)

  predicate IsMotor(id: int)
  {
    id == 1 || id == 2 || id == 3
  }

  /** `max(-max_speed, min(max_speed, speed))`. */
  function ClampSpeed(speed: int, maxSpeed: int): (r: int)
    ensures 0 <= maxSpeed ==> -maxSpeed <= r <= maxSpeed
    ensures -maxSpeed <= speed <= maxSpeed ==> r == speed
    ensures 0 <= maxSpeed < speed ==> r == maxSpeed
    ensures 0 <= maxSpeed && speed < -maxSpeed ==> r == -maxSpeed
  {
    var upper := if maxSpeed < speed then maxSpeed else speed;
    if upper < -maxSpeed then -maxSpeed else upper
  }

  /** The speed a motor is given: clamped, then negated for a reversed motor. */
  function Applied(speed: int, maxSpeed: int, reversed: bool): int
  {
    var s := ClampSpeed(speed, maxSpeed);
    if reversed then -s else s
  }

  /** The stored speed never exceeds the maximum in magnitude, and reversal only flips the sign. */
  lemma AppliedBound(speed: int, maxSpeed: int, reversed: bool)
    requires 0 <= maxSpeed
    ensures -maxSpeed <= Applied(speed, maxSpeed, reversed) <= maxSpeed
    ensures Applied(speed, maxSpeed, true) == -Applied(speed, maxSpeed, false)
    ensures -maxSpeed <= speed <= maxSpeed ==> Applied(speed, maxSpeed, false) == speed
  {
  }

  /** The speed table after one `set_speed`: unknown ids and an active emergency stop leave
      it alone; otherwise only the addressed entry changes. */
  function SpeedStep(speeds: map<int, int>, emergency: bool, maxSpeed: int, reversed: seq<bool>, id: int, speed: int): map<int, int>
    requires |reversed| == 3
  {
    if !IsMotor(id) || emergency then speeds
    else speeds[id := Applied(speed, maxSpeed, reversed[id - 1])]
  }

  /** What `set_speed` sends to the controller. */
  function SpeedCommands(emergency: bool, maxSpeed: int, reversed: seq<bool>, id: int, speed: int): seq<Command>
    requires |reversed| == 3
  {
    if !IsMotor(id) || emergency then [] else [SetSpeed(id, Applied(speed, maxSpeed, reversed[id - 1]))]
  }

  /** The speed table after a sequence of `set_speed` calls, in order. */
  function SpeedsAfter(speeds: map<int, int>, emergency: bool, maxSpeed: int, reversed: seq<bool>, cmds: seq<(int, int)>): map<int, int>
    requires |reversed| == 3
  {
    if |cmds| == 0 then speeds
    else
      var last := cmds[|cmds| - 1];
      SpeedStep(SpeedsAfter(speeds, emergency, maxSpeed, reversed, cmds[..|cmds| - 1]), emergency, maxSpeed, reversed, last.0, last.1)
  }

  /** The controller commands a sequence of `set_speed` calls sends, in order. */
  function CommandsAfter(emergency: bool, maxSpeed: int, reversed: seq<bool>, cmds: seq<(int, int)>): seq<Command>
    requires |reversed| == 3
  {
    if |cmds| == 0 then []
    else
      var last := cmds[|cmds| - 1];
      CommandsAfter(emergency, maxSpeed, reversed, cmds[..|cmds| - 1]) + SpeedCommands(emergency, maxSpeed, reversed, last.0, last.1)
  }

  /** While the emergency stop is latched no sequence of speed commands changes anything. */
  lemma {:induction false} EmergencySuppresses(speeds: map<int, int>, maxSpeed: int, reversed: seq<bool>, cmds: seq<(int, int)>)
    requires |reversed| == 3
    ensures SpeedsAfter(speeds, true, maxSpeed, reversed, cmds) == speeds
    ensures CommandsAfter(true, maxSpeed, reversed, cmds) == []
  {
    if |cmds| > 0 {
      EmergencySuppresses(speeds, maxSpeed, reversed, cmds[..|cmds| - 1]);
    }
  }

  /** The speed table for motors 1 to 3 exactly, each within the maximum magnitude. */
  ghost predicate SpeedTable(speeds: map<int, int>, maxSpeed: int)
  {
    speeds.Keys == {1, 2, 3} &&
    forall id :: id in speeds ==> (0 <= maxSpeed ==> -maxSpeed <= speeds[id] <= maxSpeed)
  }

  /** Speed commands keep the table's motors and its bound. */
  lemma {:induction false} SpeedsAfterKeepsTable(speeds: map<int, int>, emergency: bool, maxSpeed: int, reversed: seq<bool>, cmds: seq<(int, int)>)
    requires |reversed| == 3 && SpeedTable(speeds, maxSpeed)
    ensures SpeedTable(SpeedsAfter(speeds, emergency, maxSpeed, reversed, cmds), maxSpeed)
  {
    if |cmds| > 0 {
      SpeedsAfterKeepsTable(speeds, emergency, maxSpeed, reversed, cmds[..|cmds| - 1]);
      var last := cmds[|cmds| - 1];
      if IsMotor(last.0) && 0 <= maxSpeed {
        AppliedBound(last.1, maxSpeed, reversed[last.0 - 1]);
      }
    }
  }

  lemma {:induction false} AfterSnoc(speeds: map<int, int>, emergency: bool, maxSpeed: int, reversed: seq<bool>, cmds: seq<(int, int)>, i: nat)
    requires |reversed| == 3 && i < |cmds|
    ensures SpeedsAfter(speeds, emergency, maxSpeed, reversed, cmds[..i + 1]) ==
      SpeedStep(SpeedsAfter(speeds, emergency, maxSpeed, reversed, cmds[..i]), emergency, maxSpeed, reversed, cmds[i].0, cmds[i].1)
    ensures CommandsAfter(emergency, maxSpeed, reversed, cmds[..i + 1]) ==
      CommandsAfter(emergency, maxSpeed, reversed, cmds[..i]) + SpeedCommands(emergency, maxSpeed, reversed, cmds[i].0, cmds[i].1)
  {
    assert cmds[..i + 1][..i] == cmds[..i];
  }

  /** A normalised wheel command as a motor speed: `int(w * max_speed)`, which stays within
      the maximum and so never needs the clamp. */
  function ToMotorSpeed(w: real, maxSpeed: int): (r: int)
    requires -1.0 <= w <= 1.0
    ensures 0 <= maxSpeed ==> -maxSpeed <= r <= maxSpeed && ClampSpeed(r, maxSpeed) == r
  {
    var m := maxSpeed as real;
    var v := w * m;
    assert 0 <= maxSpeed ==> -m <= v <= m by {
      if 0 <= maxSpeed {
        if 0.0 <= w {
          assert w * m <= 1.0 * m;
        } else {
          assert (-w) * m <= 1.0 * m;
        }
      }
    }
    Truncate(v)
  }

  /** `set_velocity`'s wheel speeds: left = linear - angular, right = linear + angular,
      normalised, scaled by the maximum and truncated. */
  function WheelSpeeds(linear: real, angular: real, maxSpeed: int): (r: (int, int))
    ensures 0 <= maxSpeed ==> -maxSpeed <= r.0 <= maxSpeed && -maxSpeed <= r.1 <= maxSpeed
  {
    var w := Normalise(linear - angular, linear + angular);
    (ToMotorSpeed(w.0, maxSpeed), ToMotorSpeed(w.1, maxSpeed))
  }

  /** Zero speed for motors 1 to `n`, in order. */
  function ZeroCommands(n: nat): seq<Command>
  {
    if n == 0 then [] else ZeroCommands(n - 1) + [SetSpeed(n, 0)]
  }

  lemma ZeroCommandsAll()
    ensures ZeroCommands(3) == [SetSpeed(1, 0), SetSpeed(2, 0), SetSpeed(3, 0)]
  {
    assert ZeroCommands(1) == [SetSpeed(1, 0)];
    assert ZeroCommands(2) == [SetSpeed(1, 0), SetSpeed(2, 0)];
  }

  class MotorController {
    const maxSpeed: int
    /** `motor_config[id]['reversed']` for motors 1, 2, 3. */
    const reversed: seq<bool>
    var emergencyStopActive: bool
    var currentSpeeds: map<int, int>
    var sent: seq<Command>

    ghost predicate Valid()
      reads this
    {
      |reversed| == 3 && SpeedTable(currentSpeeds, maxSpeed)
    }

    /** All speeds zero, no emergency stop, the controller initialised once. */
    constructor (maxSpeed: int, reversed1: bool, reversed2: bool, reversed3: bool)
      ensures Valid()
      ensures this.maxSpeed == maxSpeed && reversed == [reversed1, reversed2, reversed3]
      ensures !emergencyStopActive && currentSpeeds == map[1 := 0, 2 := 0, 3 := 0]
      ensures sent == [Initialize]
    {
      this.maxSpeed := maxSpeed;
      reversed := [reversed1, reversed2, reversed3];
      emergencyStopActive := false;
      currentSpeeds := map[1 := 0, 2 := 0, 3 := 0];
      sent := [Initialize];
    }

    /** `set_speed`: ignored for an unknown motor or during an emergency stop; otherwise the
        clamped, possibly reversed speed is sent and stored for that motor only. */
    method SetMotorSpeed(motorId: int, speed: int)
      requires Valid()
      modifies this
      ensures Valid()
      ensures currentSpeeds == SpeedStep(old(currentSpeeds), emergencyStopActive, maxSpeed, reversed, motorId, speed)
      ensures sent == old(sent) + SpeedCommands(emergencyStopActive, maxSpeed, reversed, motorId, speed)
      ensures emergencyStopActive == old(emergencyStopActive)
    {
      if !IsMotor(motorId) {
        return;
      }
      if emergencyStopActive {
        return;
      }
      var s := ClampSpeed(speed, maxSpeed);
      if reversed[motorId - 1] {
        s := -s;
      }
      if 0 <= maxSpeed {
        AppliedBound(speed, maxSpeed, reversed[motorId - 1]);
      }
      sent := sent + [SetSpeed(motorId, s)];
      currentSpeeds := currentSpeeds[motorId := s];
    }

    /** `set_all_speeds`: the same as one `set_speed` per entry, in order. */
    method SetAllSpeeds(speeds: seq<(int, int)>)
      requires Valid()
      modifies this
      ensures Valid()
      ensures currentSpeeds == SpeedsAfter(old(currentSpeeds), emergencyStopActive, maxSpeed, reversed, speeds)
      ensures sent == old(sent) + CommandsAfter(emergencyStopActive, maxSpeed, reversed, speeds)
      ensures emergencyStopActive == old(emergencyStopActive)
    {
      var i := 0;
      while i < |speeds|
        invariant 0 <= i <= |speeds| && Valid()
        invariant emergencyStopActive == old(emergencyStopActive)
        invariant currentSpeeds == SpeedsAfter(old(currentSpeeds), emergencyStopActive, maxSpeed, reversed, speeds[..i])
        invariant sent == old(sent) + CommandsAfter(emergencyStopActive, maxSpeed, reversed, speeds[..i])
      {
        AfterSnoc(old(currentSpeeds), emergencyStopActive, maxSpeed, reversed, speeds, i);
        SetMotorSpeed(speeds[i].0, speeds[i].1);
        i := i + 1;
      }
      assert speeds[..i] == speeds;
    }

    /** `set_velocity`: the two drive wheels get the normalised differential speeds; motor 3
        is not commanded. */
    method SetVelocity(linearSpeed: real, angularSpeed: real)
      requires Valid()
      modifies this
      ensures Valid()
      ensures var (l, r) := WheelSpeeds(linearSpeed, angularSpeed, maxSpeed);
        currentSpeeds == SpeedStep(SpeedStep(old(currentSpeeds), emergencyStopActive, maxSpeed, reversed, 1, l),
                                   emergencyStopActive, maxSpeed, reversed, 2, r) &&
        sent == old(sent) + SpeedCommands(emergencyStopActive, maxSpeed, reversed, 1, l)
                          + SpeedCommands(emergencyStopActive, maxSpeed, reversed, 2, r)
      ensures currentSpeeds[3] == old(currentSpeeds)[3]
      ensures emergencyStopActive == old(emergencyStopActive)
    {
      var leftSpeed := linearSpeed - angularSpeed;
      var rightSpeed := linearSpeed + angularSpeed;
      var w := Normalise(leftSpeed, rightSpeed);
      var leftMotorSpeed := ToMotorSpeed(w.0, maxSpeed);
      var rightMotorSpeed := ToMotorSpeed(w.1, maxSpeed);
      SetMotorSpeed(1, leftMotorSpeed);
      SetMotorSpeed(2, rightMotorSpeed);
    }

    /** Sends zero to motors 1, 2 and 3 in turn and stores it. */
    method ZeroAll()
      requires Valid()
      modifies this
      ensures Valid()
      ensures currentSpeeds == map[1 := 0, 2 := 0, 3 := 0]
      ensures sent == old(sent) + [SetSpeed(1, 0), SetSpeed(2, 0), SetSpeed(3, 0)]
      ensures emergencyStopActive == old(emergencyStopActive)
    {
      for motorId := 1 to 4
        invariant Valid() && emergencyStopActive == old(emergencyStopActive)
        invariant forall id :: 0 < id < motorId ==> currentSpeeds[id] == 0
        invariant forall id :: motorId <= id <= 3 ==> currentSpeeds[id] == old(currentSpeeds)[id]
        invariant sent == old(sent) + ZeroCommands(motorId - 1)
      {
        sent := sent + [SetSpeed(motorId, 0)];
        currentSpeeds := currentSpeeds[motorId := 0];
      }
      ZeroCommandsAll();
      assert currentSpeeds.Keys == {1, 2, 3};
    }

    /** `stop`: all three motors to zero; the emergency latch is untouched. */
    method Stop()
      requires Valid()
      modifies this
      ensures Valid()
      ensures currentSpeeds == map[1 := 0, 2 := 0, 3 := 0]
      ensures sent == old(sent) + [SetSpeed(1, 0), SetSpeed(2, 0), SetSpeed(3, 0)]
      ensures emergencyStopActive == old(emergencyStopActive)
    {
      ZeroAll();
    }

    /** `emergency_stop`: latches the flag, then all three motors to zero. */
    method EmergencyStop()
      requires Valid()
      modifies this
      ensures Valid() && emergencyStopActive
      ensures currentSpeeds == map[1 := 0, 2 := 0, 3 := 0]
      ensures sent == old(sent) + [SetSpeed(1, 0), SetSpeed(2, 0), SetSpeed(3, 0)]
    {
      emergencyStopActive := true;
      ZeroAll();
    }

    /** `reset_emergency_stop`: clears the latch and reinitialises the controller. */
    method ResetEmergencyStop()
      requires Valid()
      modifies this
      ensures Valid() && !emergencyStopActive
      ensures currentSpeeds == old(currentSpeeds) && sent == old(sent) + [Initialize]
    {
      emergencyStopActive := false;
      sent := sent + [Initialize];
    }
  }
}
