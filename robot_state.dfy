/** The robot behaviour state (robot_state.h) and its single file-static holder
    (robot_state.c). */
module RobotStates {

  /** RobotState_t, in declaration order. */
  datatype RobotState = Idle | Scan | Decide | Move | Reverse | Alert

  /** StateToStr of main.c: the name the firmware prints for a state. */
  function StateToStr(s: RobotState): (name: string)
    ensures 4 <= |name| <= 7
  {
    match s
    case Idle => "IDLE"
    case Scan => "SCAN"
    case Decide => "DECIDE"
    case Move => "MOVE"
    case Alert => "ALERT"
    case Reverse => "REVERSE"
  }

  /** Different states print different names, so a name identifies its state;
      every name is upper-case letters only. */
  lemma StateToStrInjective(a: RobotState, b: RobotState)
    ensures StateToStr(a) == StateToStr(b) <==> a == b
    ensures forall i :: 0 <= i < |StateToStr(a)| ==> 'A' <= StateToStr(a)[i] <= 'Z'
  {
  }

  /** The file-static `currentState` of robot_state.c with its accessors. */
  class StateStore {
    var current: RobotState

    /** Static initialisation: the state starts as Idle. */
    constructor ()
      ensures current == Idle
    {
      current := Idle;
    }

    /** RobotState_Init: resets the state to Idle. */
    method Init()
      modifies this
      ensures current == Idle
    {
      current := Idle;
    }

    /** RobotState_Set: stores the given state. */
    method Set(s: RobotState)
      modifies this
      ensures current == s
    {
      current := s;
    }

    /** RobotState_Get: returns the stored state and changes nothing. */
    method Get() returns (s: RobotState)
      ensures s == current
    {
      s := current;
    }
  }

  /** A client of the accessors: a Get after Set(s) returns s, and a second Get
      returns the same value as the first. */
  method SetThenGet(store: StateStore, s: RobotState) returns (r1: RobotState, r2: RobotState)
    modifies store
    ensures r1 == s && r2 == s
  {
    store.Set(s);
    r1 := store.Get();
    r2 := store.Get();
  }
}
