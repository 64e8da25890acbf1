/**
 * `Metal` of robot_metal.py: the real robot as the learner sees it, a
 * robot.py `ThymioController` plus the last known action. The camera is not
 * modelled.
 */
module RobotMetal {
  import ThymioLegacy
  import opened SlowDrive

  class Metal {
    const controller: ThymioLegacy.Controller
    var currentAction: string

    /** `__init__`: a fresh controller and "STOP". */
    constructor ()
      ensures fresh(controller)
      ensures currentAction == "STOP" && controller.motorValues == [0, 0]
      ensures currentAction in Known
    {
      controller := new ThymioLegacy.Controller();
      currentAction := "STOP";
    }

    /** `set_motors`: passed through to the controller. */
    method SetMotors(values: seq<int>)
      modifies controller`motorValues, controller`motorWrites
      ensures controller.motorValues == values
      ensures controller.motorWrites == old(controller.motorWrites) + [values]
    {
      controller.SetMotors(values);
    }

    /**
     * `perform_action`: one command from the slow table; a known action is
     * remembered, an unknown one leaves `current_action` alone, so
     * `current_action` stays one of the four known actions.
     */
    method PerformAction(action: string)
      modifies this`currentAction, controller`motorValues, controller`motorWrites
      ensures controller.motorValues == SlowMotors(action)
      ensures controller.motorWrites == old(controller.motorWrites) + [SlowMotors(action)]
      ensures currentAction == NextAction(old(currentAction), action)
      ensures old(currentAction) in Known ==> currentAction in Known
    {
      if action == "LEFT" {
        SetMotors([0, 50]);
        currentAction := action;
        return;
      }
      if action == "RIGHT" {
        SetMotors([50, 0]);
        currentAction := action;
        return;
      }
      if action == "FORWARD" {
        SetMotors([50, 50]);
        currentAction := action;
        return;
      }
      if action == "STOP" {
        SetMotors([0, 0]);
        currentAction := "STOP";
        return;
      }
      SetMotors([0, 0]);
    }
  }
}
