/** The safety monitor (`SafetySystem`): a rate-limited safety check that clears and
    rebuilds an ordered list of violations from four checks, and a latched emergency
    stop. Sensor readings are parameters; a reading that cannot be taken is `None` and
    counts as a failed check. */
module Safety {
  import opened Common

  datatype Violation = ExcessiveTilt | LowBattery | ObstacleNear | HardwareFailure

  function ViolationName(v: Violation): string
  {
    match v
    case ExcessiveTilt => "excessive_tilt"
    case LowBattery => "low_battery"
    case ObstacleNear => "obstacle_detected"
    case HardwareFailure => "hardware_failure"
  }

  /** The position of a violation in the fixed reporting order. */
  function Rank(v: Violation): nat
  {
    match v
    case ExcessiveTilt => 0
    case LowBattery => 1
    case ObstacleNear => 2
    case HardwareFailure => 3
  }

  /** What the hardware reports during one check; `None` where the query raises. The
      hardware check asks the sensors only after the motors report healthy. */
  datatype Readings = Readings(
    tilt: Option<real>,
    batteryVoltage: Option<real>,
    distances: Option<seq<(string, real)>>,
    motorsHealthy: Option<bool>,
    sensorCommunication: Option<bool>)

  /** Obstacles this close stop the robot outright. */
  const EmergencyDistance := 0.1

  predicate TiltSafe(tilt: Option<real>, maxTiltAngle: real)
  {
    tilt.Some? && !(AbsReal(tilt.value) > maxTiltAngle)
  }

  predicate BatterySafe(voltage: Option<real>, threshold: real)
  {
    voltage.Some? && !(voltage.value < threshold)
  }

  predicate ObstacleSafe(distances: Option<seq<(string, real)>>)
  {
    distances.Some? && forall i :: 0 <= i < |distances.value| ==> !(distances.value[i].1 < EmergencyDistance)
  }

  predicate HardwareSafe(motorsHealthy: Option<bool>, sensorCommunication: Option<bool>)
  {
    motorsHealthy == Some(true) && sensorCommunication == Some(true)
  }

  /** The violations of one full check, in the fixed order tilt, battery, obstacle, hardware. */
  function Violations(r: Readings, maxTiltAngle: real, batteryLowThreshold: real): seq<Violation>
  {
    (if TiltSafe(r.tilt, maxTiltAngle) then [] else [ExcessiveTilt]) +
    (if BatterySafe(r.batteryVoltage, batteryLowThreshold) then [] else [LowBattery]) +
    (if ObstacleSafe(r.distances) then [] else [ObstacleNear]) +
    (if HardwareSafe(r.motorsHealthy, r.sensorCommunication) then [] else [HardwareFailure])
  }

  /** A violation is reported exactly when its check fails. */
  lemma ViolationIffCheckFails(r: Readings, maxTiltAngle: real, batteryLowThreshold: real)
    ensures var vs := Violations(r, maxTiltAngle, batteryLowThreshold);
      (ExcessiveTilt in vs <==> !TiltSafe(r.tilt, maxTiltAngle)) &&
      (LowBattery in vs <==> !BatterySafe(r.batteryVoltage, batteryLowThreshold)) &&
      (ObstacleNear in vs <==> !ObstacleSafe(r.distances)) &&
      (HardwareFailure in vs <==> !HardwareSafe(r.motorsHealthy, r.sensorCommunication))
  {
  }

  /** The list is in strictly increasing reporting order, so it holds no repeats. */
  lemma ViolationsOrdered(r: Readings, maxTiltAngle: real, batteryLowThreshold: real)
    ensures var vs := Violations(r, maxTiltAngle, batteryLowThreshold);
      |vs| <= 4 && forall i, j :: 0 <= i < j < |vs| ==> Rank(vs[i]) < Rank(vs[j])
  {
  }

  /** Any failed reading is a violation: a robot whose sensors cannot be read is not safe. */
  lemma UnreadableIsUnsafe(r: Readings, maxTiltAngle: real, batteryLowThreshold: real)
    requires r.tilt.None? || r.batteryVoltage.None? || r.distances.None? || r.motorsHealthy.None?
    ensures Violations(r, maxTiltAngle, batteryLowThreshold) != []
  {
  }

  /** The list of strings `is_safe` builds: the name of each violation, in order. */
  function ViolationNames(vs: seq<Violation>): seq<string>
  {
    seq(|vs|, i requires 0 <= i < |vs| => ViolationName(vs[i]))
  }

  /** Different violations have different names. */
  lemma ViolationNameInjective(a: Violation, b: Violation)
    requires a != b
    ensures ViolationName(a) != ViolationName(b)
  {
    assert ViolationName(a)[0] != ViolationName(b)[0];
  }

  /** A name is in the list exactly when its violation is. */
  lemma NameListed(vs: seq<Violation>, v: Violation)
    ensures ViolationName(v) in ViolationNames(vs) <==> v in vs
  {
    var names := ViolationNames(vs);
    if ViolationName(v) in names {
      var i :| 0 <= i < |names| && names[i] == ViolationName(v);
      if vs[i] != v {
        ViolationNameInjective(vs[i], v);
      }
    }
    if v in vs {
      var i :| 0 <= i < |vs| && vs[i] == v;
      assert names[i] == ViolationName(v);
    }
  }

  /** The strings `is_safe` reports: each name appears exactly when its check fails, in the
      order tilt, battery, obstacle, hardware, and none twice. */
  lemma ReportedNames(r: Readings, maxTiltAngle: real, batteryLowThreshold: real)
    ensures var names := ViolationNames(Violations(r, maxTiltAngle, batteryLowThreshold));
      ("excessive_tilt" in names <==> !TiltSafe(r.tilt, maxTiltAngle)) &&
      ("low_battery" in names <==> !BatterySafe(r.batteryVoltage, batteryLowThreshold)) &&
      ("obstacle_detected" in names <==> !ObstacleSafe(r.distances)) &&
      ("hardware_failure" in names <==> !HardwareSafe(r.motorsHealthy, r.sensorCommunication)) &&
      |names| <= 4 && forall i, j :: 0 <= i < j < |names| ==> names[i] != names[j]
  {
    var vs := Violations(r, maxTiltAngle, batteryLowThreshold);
    ViolationIffCheckFails(r, maxTiltAngle, batteryLowThreshold);
    ViolationsOrdered(r, maxTiltAngle, batteryLowThreshold);
    NameListed(vs, ExcessiveTilt);
    NameListed(vs, LowBattery);
    NameListed(vs, ObstacleNear);
    NameListed(vs, HardwareFailure);
    forall i, j | 0 <= i < j < |vs|
      ensures ViolationNames(vs)[i] != ViolationNames(vs)[j]
    {
      ViolationNameInjective(vs[i], vs[j]);
    }
  }

  class SafetySystem {
    const maxTiltAngle: real
    const batteryLowThreshold: real
    const checkInterval: real
    var isEmergencyStop: bool
    var safetyViolations: seq<Violation>
    var lastSafetyCheck: real
    /** The registered emergency callback, by identity. */
    var emergencyCallback: Option<nat>
    /** The emergency callbacks invoked so far. */
    var callbackInvocations: seq<nat>

    /** No stop, no violations, last check at `now`, a 100 ms interval. */
    constructor (maxTiltAngle: real, batteryLowThreshold: real, now: real)
      ensures this.maxTiltAngle == maxTiltAngle && this.batteryLowThreshold == batteryLowThreshold
      ensures checkInterval == 0.1 && lastSafetyCheck == now
      ensures !isEmergencyStop && safetyViolations == [] && emergencyCallback == None && callbackInvocations == []
    {
      this.maxTiltAngle := maxTiltAngle;
      this.batteryLowThreshold := batteryLowThreshold;
      checkInterval := 0.1;
      isEmergencyStop := false;
      safetyViolations := [];
      lastSafetyCheck := now;
      emergencyCallback := None;
      callbackInvocations := [];
    }

    /** `_check_obstacle_safety`: fails at the first reading closer than 10 cm, or when the
        distances cannot be read. */
    method CheckObstacleSafety(distances: Option<seq<(string, real)>>) returns (ok: bool)
      ensures ok == ObstacleSafe(distances)
    {
      if distances.None? {
        return false;
      }
      var items := distances.value;
      var i := 0;
      while i < |items|
        invariant 0 <= i <= |items|
        invariant forall k :: 0 <= k < i ==> !(items[k].1 < EmergencyDistance)
      {
        if items[i].1 < EmergencyDistance {
          return false;
        }
        i := i + 1;
      }
      return true;
    }

    /** `is_safe`: within the check interval the last verdict stands and nothing changes;
        otherwise the check time is recorded and the violations cleared; an active emergency
        stop is unsafe without running the checks; otherwise the four checks append their
        violations in order and the result is whether there are none. */
    method IsSafe(now: real, r: Readings) returns (safe: bool)
      modifies this
      ensures now - old(lastSafetyCheck) < checkInterval ==>
        unchanged(this) && safe == (!isEmergencyStop && safetyViolations == [])
      ensures !(now - old(lastSafetyCheck) < checkInterval) ==>
        lastSafetyCheck == now && isEmergencyStop == old(isEmergencyStop) &&
        safetyViolations == (if isEmergencyStop then [] else Violations(r, maxTiltAngle, batteryLowThreshold)) &&
        safe == (!isEmergencyStop && safetyViolations == [])
      ensures emergencyCallback == old(emergencyCallback) && callbackInvocations == old(callbackInvocations)
    {
      if now - lastSafetyCheck < checkInterval {
        return !isEmergencyStop && |safetyViolations| == 0;
      }
      lastSafetyCheck := now;
      safetyViolations := [];
      if isEmergencyStop {
        return false;
      }
      if !TiltSafe(r.tilt, maxTiltAngle) {
        safetyViolations := safetyViolations + [ExcessiveTilt];
      }
      if !BatterySafe(r.batteryVoltage, batteryLowThreshold) {
        safetyViolations := safetyViolations + [LowBattery];
      }
      var obstacleOk := CheckObstacleSafety(r.distances);
      if !obstacleOk {
        safetyViolations := safetyViolations + [ObstacleNear];
      }
      if !HardwareSafe(r.motorsHealthy, r.sensorCommunication) {
        safetyViolations := safetyViolations + [HardwareFailure];
      }
      return |safetyViolations| == 0;
    }

    /** `set_emergency_callback`. */
    method SetEmergencyCallback(callback: nat)
      modifies this
      ensures emergencyCallback == Some(callback)
      ensures isEmergencyStop == old(isEmergencyStop) && safetyViolations == old(safetyViolations)
      ensures lastSafetyCheck == old(lastSafetyCheck) && callbackInvocations == old(callbackInvocations)
    {
      emergencyCallback := Some(callback);
    }

    /** `trigger_emergency_stop`: latches the stop and invokes the callback, if any. */
    method TriggerEmergencyStop(reason: string)
      modifies this
      ensures isEmergencyStop
      ensures callbackInvocations == old(callbackInvocations) + if emergencyCallback.Some? then [emergencyCallback.value] else []
      ensures safetyViolations == old(safetyViolations) && lastSafetyCheck == old(lastSafetyCheck)
      ensures emergencyCallback == old(emergencyCallback)
    {
      isEmergencyStop := true;
      if emergencyCallback.Some? {
        callbackInvocations := callbackInvocations + [emergencyCallback.value];
      }
    }

    /** `reset_emergency_stop`: only a latched stop is reset, and then the violations are
        cleared too. */
    method ResetEmergencyStop()
      modifies this
      ensures !isEmergencyStop
      ensures safetyViolations == if old(isEmergencyStop) then [] else old(safetyViolations)
      ensures lastSafetyCheck == old(lastSafetyCheck) && emergencyCallback == old(emergencyCallback)
      ensures callbackInvocations == old(callbackInvocations)
    {
      if isEmergencyStop {
        isEmergencyStop := false;
        safetyViolations := [];
      }
    }
  }
}
