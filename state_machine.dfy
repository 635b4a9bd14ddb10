/** The robot's operational state machine: five states, a fixed table of the transitions
    a request may make, a forced `set_state` that bypasses the table, and per-state
    callbacks invoked on entry. */
module States {
  import opened Common

  datatype RobotState = Idle | ManualControl | Autonomous | EmergencyStop | LowPower

  /** The enum's string value. */
  function Name(s: RobotState): string
  {
    match s
    case Idle => "idle"
    case ManualControl => "manual_control"
    case Autonomous => "autonomous"
    case EmergencyStop => "emergency_stop"
    case LowPower => "low_power"
  }

  /** `RobotState(name)`: the state with that value, `None` where Python raises `ValueError`. */
  function Parse(name: string): (r: Option<RobotState>)
    ensures r.Some? ==> Name(r.value) == name
  {
    if name == "idle" then Some(Idle)
    else if name == "manual_control" then Some(ManualControl)
    else if name == "autonomous" then Some(Autonomous)
    else if name == "emergency_stop" then Some(EmergencyStop)
    else if name == "low_power" then Some(LowPower)
    else None
  }

  /** Every state's name parses back to the state, so a name is valid iff it is some state's name. */
  lemma ParseName(s: RobotState)
    ensures Parse(Name(s)) == Some(s)
  {
  }

  lemma ParseIffName(name: string)
    ensures Parse(name).Some? <==> exists s :: Name(s) == name
  {
    if exists s :: Name(s) == name {
      var s :| Name(s) == name;
      ParseName(s);
    }
  }

  /** The states a request may move to from each state. */
  function ValidTransitions(s: RobotState): seq<RobotState>
  {
    match s
    case Idle => [ManualControl, Autonomous, EmergencyStop]
    case ManualControl => [Idle, EmergencyStop, LowPower]
    case Autonomous => [Idle, EmergencyStop, LowPower]
    case EmergencyStop => [Idle]
    case LowPower => [Idle, EmergencyStop]
  }

  /** A request from `from` to `to` succeeds: staying put, or a listed transition. */
  predicate Accepts(from: RobotState, to: RobotState)
  {
    to == from || to in ValidTransitions(from)
  }

  /** The emergency stop can be left, by request, only for idle. */
  lemma EmergencyStopLeadsOnlyToIdle(to: RobotState)
    ensures Accepts(EmergencyStop, to) <==> to == EmergencyStop || to == Idle
  {
  }

  /** Low power is reachable by request from manual control and autonomous only. */
  lemma LowPowerEntry(from: RobotState)
    ensures from != LowPower ==> (Accepts(from, LowPower) <==> from == ManualControl || from == Autonomous)
  {
  }

  /** Every state can request the emergency stop, and every state but idle can request idle;
      no state lists itself. */
  lemma TableShape(s: RobotState)
    ensures Accepts(s, EmergencyStop) && Accepts(s, Idle)
    ensures s !in ValidTransitions(s)
  {
  }

  /** One callback invocation: the callback's identity, the new state's name and the
      previous state's name, if any. */
  datatype Invocation = Invocation(callback: nat, state: string, previous: Option<string>)

  function NameOf(s: Option<RobotState>): Option<string>
  {
    if s.Some? then Some(Name(s.value)) else None
  }

  class StateMachine {
    var current: RobotState
    var previous: Option<RobotState>
    /** Registered callbacks by state name; a callback is known by its identity. */
    var callbacks: map<string, nat>
    /** The callbacks invoked so far, in order. */
    var invoked: seq<Invocation>

    /** Starts in the configured default state, with no previous state and no callbacks. */
    constructor (defaultState: string)
      requires Parse(defaultState).Some?
      ensures current == Parse(defaultState).value && previous == None
      ensures callbacks == map[] && invoked == []
    {
      current := Parse(defaultState).value;
      previous := None;
      callbacks := map[];
      invoked := [];
    }

    /** `update`: no automatic transition fires; the current state's name is returned. */
    method Update() returns (name: string)
      ensures Parse(name) == Some(current)
    {
      name := Name(current);
    }

    /** `register_state_callback`: the latest registration for a state replaces earlier ones. */
    method RegisterStateCallback(state: string, callback: nat)
      modifies this
      ensures callbacks == old(callbacks)[state := callback]
      ensures current == old(current) && previous == old(previous) && invoked == old(invoked)
    {
      callbacks := callbacks[state := callback];
    }

    /** `_notify_state_change`: only the callback registered for the current state runs. */
    method NotifyStateChange()
      modifies this
      ensures Name(current) in callbacks ==>
        invoked == old(invoked) + [Invocation(callbacks[Name(current)], Name(current), NameOf(previous))]
      ensures Name(current) !in callbacks ==> invoked == old(invoked)
      ensures current == old(current) && previous == old(previous) && callbacks == old(callbacks)
    {
      var state := Name(current);
      if state in callbacks {
        invoked := invoked + [Invocation(callbacks[state], state, NameOf(previous))];
      }
    }

    /** `_transition_to`: staying put succeeds silently; a listed transition records the old
        state as previous and notifies; anything else fails and changes nothing. */
    method TransitionTo(target: RobotState) returns (ok: bool)
      modifies this
      ensures ok == Accepts(old(current), target)
      ensures !ok || target == old(current) ==> unchanged(this)
      ensures ok && target != old(current) ==>
        current == target && previous == Some(old(current)) && callbacks == old(callbacks) &&
        invoked == old(invoked) + (if Name(target) in callbacks
                                   then [Invocation(callbacks[Name(target)], Name(target), Some(Name(old(current))))]
                                   else [])
    {
      if target == current {
        return true;
      }
      if target in ValidTransitions(current) {
        previous := Some(current);
        current := target;
        NotifyStateChange();
        return true;
      }
      return false;
    }

    /** `request_state_change`: an unknown name fails and changes nothing; a known one is a
        transition attempt. */
    method RequestStateChange(newState: string) returns (ok: bool)
      modifies this
      ensures Parse(newState).None? ==> !ok && unchanged(this)
      ensures Parse(newState).Some? ==> ok == Accepts(old(current), Parse(newState).value)
      ensures ok && Parse(newState).value != old(current) ==>
        var target := Parse(newState).value;
        current == target && previous == Some(old(current)) &&
        invoked == old(invoked) + (if Name(target) in callbacks
                                   then [Invocation(callbacks[Name(target)], Name(target), Some(Name(old(current))))]
                                   else [])
      ensures !ok || Parse(newState).value == old(current) ==> unchanged(this)
      ensures callbacks == old(callbacks)
    {
      var target := Parse(newState);
      if target.None? {
        return false;
      }
      ok := TransitionTo(target.value);
    }

    /** `set_state`: any known name becomes current regardless of the table, and the old
        state becomes previous even when the two are equal; an unknown name changes nothing. */
    method SetState(newState: string)
      modifies this
      ensures Parse(newState).None? ==> unchanged(this)
      ensures Parse(newState).Some? ==>
        current == Parse(newState).value && previous == Some(old(current)) && callbacks == old(callbacks) &&
        invoked == old(invoked) + (if newState in callbacks
                                   then [Invocation(callbacks[newState], newState, Some(Name(old(current))))]
                                   else [])
    {
      var target := Parse(newState);
      if target.None? {
        return;
      }
      previous := Some(current);
      current := target.value;
      NotifyStateChange();
    }
  }
}
