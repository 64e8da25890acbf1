/**
 * `Simulation` of simulation/simulation.py, reduced to what the learner
 * drives: the two wheel velocities and the last known action. Rendering,
 * the physics of `updateRobot` and the frame capture are not modelled.
 */
module Simulation {
  import opened SlowDrive

  class Simulation {
    var currentAction: string
    var leftWheelVelocity: int
    var rightWheelVelocity: int
    const resetThreshold: int

    /** `__init__` followed by `init`: "STOP" and both wheels still. */
    constructor ()
      ensures currentAction == "STOP" && leftWheelVelocity == 0 && rightWheelVelocity == 0
      ensures resetThreshold == 30
    {
      resetThreshold := 30;
      currentAction := "STOP";
      leftWheelVelocity, rightWheelVelocity := 0, 0;
    }

    /** `set_motors`: the first two values become the wheel velocities, nothing else changes. */
    method SetMotors(values: seq<int>)
      requires |values| >= 2
      modifies this`leftWheelVelocity, this`rightWheelVelocity
      ensures leftWheelVelocity == values[0] && rightWheelVelocity == values[1]
    {
      leftWheelVelocity := values[0];
      rightWheelVelocity := values[1];
    }

    /** `perform_action`: as in robot_metal.py, with the wheels of the simulated robot. */
    method PerformAction(action: string)
      modifies this`currentAction, this`leftWheelVelocity, this`rightWheelVelocity
      ensures [leftWheelVelocity, rightWheelVelocity] == SlowMotors(action)
      ensures currentAction == NextAction(old(currentAction), action)
      ensures old(currentAction) in Known ==> currentAction in Known
    {
      if action == "LEFT" {
        SetMotors([0, 50]);
        currentAction := action;
        return;
      }
      if action == "RIGHT" {
        SetMotors([50, 0]);
        currentAction := action;
        return;
      }
      if action == "FORWARD" {
        SetMotors([50, 50]);
        currentAction := action;
        return;
      }
      if action == "STOP" {
        SetMotors([0, 0]);
        currentAction := "STOP";
        return;
      }
      SetMotors([0, 0]);
    }
  }
}
