/** The navigation loop (`NavigationSystem`): each update reads the distance sensors,
    runs the timed stop-turn-resume obstacle avoidance or else the waypoint/patrol
    behaviour, and turns the resulting mode into a motor command. The clock and the
    sensor readings are parameters; the motors are a sink of commands. */
module Navigation {
  import opened Common

  datatype Mode = Stop | Forward | Backward | TurnLeft | TurnRight | ObstacleAvoidance

  /** What the navigation loop asks of the drive motors. */
  datatype MotorCommand = StopMotors | Velocity(speed: real, direction: real)

  /** `distances.get(key, default)`. */
  function Get(distances: map<string, real>, key: string, default: real): real
  {
    if key in distances then distances[key] else default
  }

  /** The readings used when the sensors cannot be read: every direction clear at 1 m. */
  const SafeDefaults: map<string, real> := map["front" := 1.0, "left" := 1.0, "right" := 1.0, "back" := 1.0]

  /** `_obstacle_detected`: something is closer ahead than the configured distance; a
      missing front reading counts as 1 m. */
  predicate ObstacleDetected(distances: map<string, real>, obstacleDistance: real)
  {
    Get(distances, "front", 1.0) < obstacleDistance
  }

  /** The avoidance manoeuvre by time since it started: stop for the first second, turn
      toward the clearer side for the next, then resume forward at half speed. */
  function AvoidanceMove(elapsed: real, distances: map<string, real>, maxSpeed: real, turnSpeed: real): (r: (Mode, real))
    ensures r.0 != ObstacleAvoidance
    ensures r.0 == Stop <==> elapsed < 1.0
    ensures r.0 == Stop ==> r.1 == 0.0
    ensures (r.0 == TurnLeft || r.0 == TurnRight) <==> 1.0 <= elapsed < 2.0
    ensures r.0 == TurnLeft <==> 1.0 <= elapsed < 2.0 && Get(distances, "left", 0.5) > Get(distances, "right", 0.5)
    ensures (r.0 == TurnLeft || r.0 == TurnRight) ==> r.1 == turnSpeed
    ensures r.0 == Forward <==> 2.0 <= elapsed
    ensures r.0 == Forward ==> r.1 == maxSpeed * 0.5
  {
    if elapsed < 1.0 then (Stop, 0.0)
    else if elapsed < 2.0 then
      (if Get(distances, "left", 0.5) > Get(distances, "right", 0.5) then TurnLeft else TurnRight, turnSpeed)
    else (Forward, maxSpeed * 0.5)
  }

  /** The command `_update_motors` issues for a mode; obstacle avoidance issues none. */
  function CommandFor(mode: Mode, speed: real): (c: Option<MotorCommand>)
    ensures c.None? <==> mode == ObstacleAvoidance
    ensures mode == Forward ==> c == Some(Velocity(speed, 0.0))
    ensures mode == Backward ==> c == Some(Velocity(-speed, 0.0))
    ensures mode == TurnLeft ==> c == Some(Velocity(0.0, speed))
    ensures mode == TurnRight ==> c == Some(Velocity(0.0, -speed))
    ensures mode == Stop ==> c == Some(StopMotors)
  {
    match mode
    case Stop => Some(StopMotors)
    case Forward => Some(Velocity(speed, 0.0))
    case Backward => Some(Velocity(-speed, 0.0))
    case TurnLeft => Some(Velocity(0.0, speed))
    case TurnRight => Some(Velocity(0.0, -speed))
    case ObstacleAvoidance => None
  }

  function CommandsFor(mode: Mode, speed: real): seq<MotorCommand>
  {
    var c := CommandFor(mode, speed);
    if c.Some? then [c.value] else []
  }

  /** A manoeuvre that has just begun always starts by stopping. */
  lemma AvoidanceStartsWithStop(distances: map<string, real>, maxSpeed: real, turnSpeed: real)
    ensures AvoidanceMove(0.0, distances, maxSpeed, turnSpeed) == (Stop, 0.0)
  {
  }

  /** Ties between the sides turn right. */
  lemma TiesTurnRight(elapsed: real, distances: map<string, real>, maxSpeed: real, turnSpeed: real)
    requires 1.0 <= elapsed < 2.0 && Get(distances, "left", 0.5) == Get(distances, "right", 0.5)
    ensures AvoidanceMove(elapsed, distances, maxSpeed, turnSpeed) == (TurnRight, turnSpeed)
  {
  }

  class NavigationSystem {
    const maxSpeed: real
    const turnSpeed: real
    const obstacleDistance: real
    var currentMode: Mode
    var currentSpeed: real
    var waypoints: seq<(real, real)>
    var currentWaypointIndex: nat
    var avoidanceStartTime: real
    /** The callback registered for requesting robot state changes, by identity. */
    var stateCallback: Option<nat>
    /** Commands sent to the motors, in order. */
    var commands: seq<MotorCommand>

    /** Every step ends in a concrete driving mode, never in obstacle avoidance itself. */
    ghost predicate Valid()
      reads this
    {
      currentMode != ObstacleAvoidance
    }

    /** Stopped, no waypoints, no callback. */
    constructor (maxSpeed: real, turnSpeed: real, obstacleDistance: real)
      ensures Valid()
      ensures this.maxSpeed == maxSpeed && this.turnSpeed == turnSpeed && this.obstacleDistance == obstacleDistance
      ensures currentMode == Stop && currentSpeed == 0.0 && waypoints == [] && currentWaypointIndex == 0
      ensures avoidanceStartTime == 0.0 && stateCallback == None && commands == []
    {
      this.maxSpeed := maxSpeed;
      this.turnSpeed := turnSpeed;
      this.obstacleDistance := obstacleDistance;
      currentMode := Stop;
      currentSpeed := 0.0;
      waypoints := [];
      currentWaypointIndex := 0;
      avoidanceStartTime := 0.0;
      stateCallback := None;
      commands := [];
    }

    /** `_handle_obstacle_avoidance`: entering avoidance records `started` as its start; the
        manoeuvre is then chosen by the time elapsed at `now`. */
    method HandleObstacleAvoidance(distances: map<string, real>, started: real, now: real)
      modifies this
      ensures avoidanceStartTime == if old(currentMode) != ObstacleAvoidance then started else old(avoidanceStartTime)
      ensures (currentMode, currentSpeed) == AvoidanceMove(now - avoidanceStartTime, distances, maxSpeed, turnSpeed)
      ensures Valid()
      ensures waypoints == old(waypoints) && currentWaypointIndex == old(currentWaypointIndex)
      ensures commands == old(commands) && stateCallback == old(stateCallback)
    {
      if currentMode != ObstacleAvoidance {
        currentMode := ObstacleAvoidance;
        avoidanceStartTime := started;
      }
      var elapsedTime := now - avoidanceStartTime;
      if elapsedTime < 1.0 {
        currentMode := Stop;
        currentSpeed := 0.0;
      } else if elapsedTime < 2.0 {
        var leftDistance := Get(distances, "left", 0.5);
        var rightDistance := Get(distances, "right", 0.5);
        if leftDistance > rightDistance {
          currentMode := TurnLeft;
        } else {
          currentMode := TurnRight;
        }
        currentSpeed := turnSpeed;
      } else {
        currentMode := Forward;
        currentSpeed := maxSpeed * 0.5;
      }
    }

    /** `_navigate_to_waypoint`: past the last waypoint the robot stops (its speed is kept);
        otherwise it drives forward at full speed. The index is never advanced. */
    method NavigateToWaypoint()
      modifies this
      ensures currentWaypointIndex >= |waypoints| ==> currentMode == Stop && currentSpeed == old(currentSpeed)
      ensures currentWaypointIndex < |waypoints| ==> currentMode == Forward && currentSpeed == maxSpeed
      ensures waypoints == old(waypoints) && currentWaypointIndex == old(currentWaypointIndex)
      ensures avoidanceStartTime == old(avoidanceStartTime) && commands == old(commands) && stateCallback == old(stateCallback)
    {
      if currentWaypointIndex >= |waypoints| {
        currentMode := Stop;
        return;
      }
      var target := waypoints[currentWaypointIndex];
      currentMode := Forward;
      currentSpeed := maxSpeed;
    }

    /** `_patrol_behavior`: forward at 70% of full speed. */
    method PatrolBehavior()
      modifies this
      ensures currentMode == Forward && currentSpeed == maxSpeed * 0.7
      ensures waypoints == old(waypoints) && currentWaypointIndex == old(currentWaypointIndex)
      ensures avoidanceStartTime == old(avoidanceStartTime) && commands == old(commands) && stateCallback == old(stateCallback)
    {
      currentMode := Forward;
      currentSpeed := maxSpeed * 0.7;
    }

    /** `_execute_navigation`: waypoints if there are any, patrol otherwise. */
    method ExecuteNavigation()
      modifies this
      ensures Valid()
      ensures |waypoints| == 0 ==> currentMode == Forward && currentSpeed == maxSpeed * 0.7
      ensures 0 < |waypoints| && currentWaypointIndex >= |waypoints| ==> currentMode == Stop && currentSpeed == old(currentSpeed)
      ensures 0 < |waypoints| && currentWaypointIndex < |waypoints| ==> currentMode == Forward && currentSpeed == maxSpeed
      ensures waypoints == old(waypoints) && currentWaypointIndex == old(currentWaypointIndex)
      ensures avoidanceStartTime == old(avoidanceStartTime) && commands == old(commands) && stateCallback == old(stateCallback)
    {
      if |waypoints| > 0 {
        NavigateToWaypoint();
      } else {
        PatrolBehavior();
      }
    }

    /** `_update_motors`: one command for the current mode, none in obstacle avoidance. */
    method UpdateMotors()
      modifies this
      ensures commands == old(commands) + CommandsFor(currentMode, currentSpeed)
      ensures currentMode == old(currentMode) && currentSpeed == old(currentSpeed)
      ensures waypoints == old(waypoints) && currentWaypointIndex == old(currentWaypointIndex)
      ensures avoidanceStartTime == old(avoidanceStartTime) && stateCallback == old(stateCallback)
    {
      if currentMode == Stop {
        commands := commands + [StopMotors];
      } else if currentMode == Forward {
        commands := commands + [Velocity(currentSpeed, 0.0)];
      } else if currentMode == Backward {
        commands := commands + [Velocity(-currentSpeed, 0.0)];
      } else if currentMode == TurnLeft {
        commands := commands + [Velocity(0.0, currentSpeed)];
      } else if currentMode == TurnRight {
        commands := commands + [Velocity(0.0, -currentSpeed)];
      }
    }

    /** `update`: sensor readings (`None` when they cannot be read, giving the safe
        defaults), then avoidance or navigation, then one motor command. Because no step
        stays in obstacle avoidance, every step with an obstacle restarts the manoeuvre at
        `started`. */
    method Update(readings: Option<map<string, real>>, started: real, now: real)
      requires Valid()
      modifies this
      ensures Valid()
      ensures var distances := if readings.Some? then readings.value else SafeDefaults;
        if ObstacleDetected(distances, obstacleDistance) then
          avoidanceStartTime == started &&
          (currentMode, currentSpeed) == AvoidanceMove(now - started, distances, maxSpeed, turnSpeed)
        else
          avoidanceStartTime == old(avoidanceStartTime) &&
          (|waypoints| == 0 ==> currentMode == Forward && currentSpeed == maxSpeed * 0.7) &&
          (0 < |waypoints| <= currentWaypointIndex ==> currentMode == Stop && currentSpeed == old(currentSpeed)) &&
          (currentWaypointIndex < |waypoints| ==> currentMode == Forward && currentSpeed == maxSpeed)
      ensures commands == old(commands) + CommandsFor(currentMode, currentSpeed)
      ensures |commands| == |old(commands)| + 1
      ensures waypoints == old(waypoints) && currentWaypointIndex == old(currentWaypointIndex)
      ensures stateCallback == old(stateCallback)
    {
      var distances := if readings.Some? then readings.value else SafeDefaults;
      if ObstacleDetected(distances, obstacleDistance) {
        HandleObstacleAvoidance(distances, started, now);
      } else {
        ExecuteNavigation();
      }
      UpdateMotors();
    }

    /** `_stop_motors`: the motors are stopped, then the mode and speed. */
    method StopMotorsNow()
      modifies this
      ensures Valid() && currentMode == Stop && currentSpeed == 0.0
      ensures commands == old(commands) + [StopMotors]
      ensures waypoints == old(waypoints) && currentWaypointIndex == old(currentWaypointIndex)
      ensures avoidanceStartTime == old(avoidanceStartTime) && stateCallback == old(stateCallback)
    {
      commands := commands + [StopMotors];
      currentMode := Stop;
      currentSpeed := 0.0;
    }

    /** `set_waypoints`: the list is replaced and navigation restarts from its first entry. */
    method SetWaypoints(newWaypoints: seq<(real, real)>)
      modifies this
      ensures waypoints == newWaypoints && currentWaypointIndex == 0
      ensures currentMode == old(currentMode) && currentSpeed == old(currentSpeed)
      ensures avoidanceStartTime == old(avoidanceStartTime) && commands == old(commands) && stateCallback == old(stateCallback)
    {
      waypoints := newWaypoints;
      currentWaypointIndex := 0;
    }

    /** `set_state_callback`. */
    method SetStateCallback(callback: nat)
      modifies this
      ensures stateCallback == Some(callback)
      ensures currentMode == old(currentMode) && currentSpeed == old(currentSpeed)
      ensures waypoints == old(waypoints) && currentWaypointIndex == old(currentWaypointIndex)
      ensures avoidanceStartTime == old(avoidanceStartTime) && commands == old(commands)
    {
      stateCallback := Some(callback);
    }
  }
}
