/**
 * `ThymioController`, the host-side mirror of a Thymio robot: the motor and
 * LED lists the background thread pushes to the robot, the sensor lists it
 * reads back, and the action and exploration logic. robot/robot2.py,
 * robot2.py and archive/robot.py share `set_motors`, `set_led`, `stop`,
 * `perform_action`, `explore` and `detect_surface` line for line and differ
 * only in their constructors, so one class with three named constructors
 * models all three. Their `detect_surface` repeats the left-side tape test
 * (`Surface.DetectAsWritten`); the class classifies with the sixth test on
 * the right sensor (`Surface.Detect`), as _test.py does.
 */
module Thymio {
  import opened Wrappers
  import opened Surface

  /** The Aseba program sent to the robot (the program text is not modelled). */
  datatype Program = AvoiderProgram | SeekerProgram

  const MaxSpeed: int := 500

  /** The four actions `perform_action` knows. */
  const ActionLeft: string := "LEFT"
  const ActionRight: string := "RIGHT"
  const ActionForward: string := "FORWARD"
  const ActionStop: string := "STOP"

  /** The speed `perform_action` uses, kept within the motor range. */
  function Clamp(speed: int): (s: int)
    ensures -MaxSpeed <= s <= MaxSpeed
    ensures -MaxSpeed <= speed <= MaxSpeed ==> s == speed
    ensures speed > MaxSpeed ==> s == MaxSpeed
    ensures speed < -MaxSpeed ==> s == -MaxSpeed
  {
    if speed > MaxSpeed then MaxSpeed else if speed < -MaxSpeed then -MaxSpeed else speed
  }

  /** The motor pair for an action at an already clamped speed. */
  function ActionMotors(action: string, s: int): seq<int>
  {
    if action == ActionLeft then [0, s]
    else if action == ActionRight then [s, 0]
    else if action == ActionForward then [s, s]
    else [0, 0]
  }

  /**
   * `perform_action` drives at most at full speed, and only the three moves
   * at a non-zero speed turn a wheel: STOP and every unknown action stop both.
   */
  lemma ActionMotorsBounded(action: string, speed: int)
    ensures var m := ActionMotors(action, Clamp(speed));
            |m| == 2 && -MaxSpeed <= m[0] <= MaxSpeed && -MaxSpeed <= m[1] <= MaxSpeed
    ensures ActionMotors(action, Clamp(speed)) != [0, 0] <==> action in {ActionLeft, ActionRight, ActionForward} && Clamp(speed) != 0
  {
  }

  /** An action name with the speed it is asked for. */
  datatype Command = Command(action: string, speed: int)

  /** The action and speed `explore` picks for a surface label. */
  function ExploreCommand(where: string): Command
  {
    if where == SafeZone then Command(ActionStop, 100)
    else if where == SafeZoneLeft then Command(ActionLeft, 50)
    else if where == SafeZoneRight then Command(ActionRight, 50)
    else if where == BlackTape then Command(ActionLeft, 250)
    else if where == BlackTapeLeft then Command(ActionRight, 150)
    else if where == BlackTapeRight then Command(ActionLeft, 150)
    else Command(ActionForward, 500)
  }

  function ExploreMotors(where: string): seq<int>
  {
    var c := ExploreCommand(where);
    ActionMotors(c.action, Clamp(c.speed))
  }

  /**
   * The where-to-motor table of `explore`, one row per label. With the
   * classifier as the controllers write it, the right-side tape turn
   * [0, 150] is never commanded: a dark right sensor alone drives straight on.
   */
  lemma ExploreTable(left: int, right: int)
    ensures var m := ExploreMotors(Detect(left, right));
            m == match Detect(left, right)
              case "safe-zone" => [0, 0]
              case "safe-zone-left" => [0, 50]
              case "safe-zone-right" => [50, 0]
              case "black-tape" => [0, 250]
              case "black-tape-left" => [150, 0]
              case "black-tape-right" => [0, 150]
              case _ => [500, 500]
    ensures ExploreMotors(DetectAsWritten(left, right)) != [0, 150]
    ensures Detect(left, right) == BlackTapeRight ==> ExploreMotors(DetectAsWritten(left, right)) == [500, 500]
  {
    AsWrittenLosesRightTape(left, right);
  }

  class Controller {
    var motorValues: seq<int>
    /** Every list passed to `set_motors`, oldest first. */
    ghost var motorWrites: seq<seq<int>>
    var ledValues: seq<int>
    var running: bool
    var isSafe: bool
    /** The Aseba program chosen at construction; archive/robot.py has none. */
    var program: Option<Program>
    /** The robot type robot/robot2.py records; the other two controllers have none. */
    var robotType: Option<string>
    /** The readings the background thread copies from the robot; empty before the first copy (None in the source). */
    var horizontalSensors: seq<int>
    var groundSensors: seq<int>

    /** `__init__(robot_type)` of robot/robot2.py: the SEEKER program for "SEEKER", otherwise the AVOIDER one. */
    constructor ForRobotType(robotType: string)
      ensures motorValues == [0, 0] && ledValues == [0, 0, 255] && running && !isSafe
      ensures program == Some(if robotType == "SEEKER" then SeekerProgram else AvoiderProgram)
      ensures this.robotType == Some(robotType)
      ensures horizontalSensors == [] && groundSensors == [] && motorWrites == []
    {
      motorValues, ledValues, running := [0, 0], [0, 0, 255], true;
      horizontalSensors, groundSensors := [], [];
      motorWrites := [];
      if robotType == "SEEKER" {
        program := Some(SeekerProgram);
      } else {
        program := Some(AvoiderProgram);
      }
      this.robotType := Some(robotType);
      isSafe := false;
    }

    /** `__init__(program=AVOIDER)` of robot2.py. */
    constructor WithProgram(p: Program)
      ensures motorValues == [0, 0] && ledValues == [0, 0, 255] && running && !isSafe
      ensures program == Some(p) && robotType == None
      ensures horizontalSensors == [] && groundSensors == [] && motorWrites == []
    {
      motorValues, ledValues, running := [0, 0], [0, 0, 255], true;
      horizontalSensors, groundSensors := [], [];
      motorWrites := [];
      program := Some(p);
      robotType := None;
      isSafe := false;
    }

    /** `__init__()` of archive/robot.py: starts out safe, LEDs off, no program. */
    constructor Archived()
      ensures motorValues == [0, 0] && ledValues == [0, 0, 0] && running && isSafe
      ensures program == None && robotType == None
      ensures horizontalSensors == [] && groundSensors == [] && motorWrites == []
    {
      isSafe := true;
      motorValues, ledValues, running := [0, 0], [0, 0, 0], true;
      horizontalSensors, groundSensors := [], [];
      motorWrites := [];
      program := None;
      robotType := None;
    }

    /** The background thread's copy of the seven proximity and two ground readings. */
    method Sense(h: seq<int>, g: seq<int>)
      requires |h| == 7 && |g| == 2
      modifies this`horizontalSensors, this`groundSensors
      ensures horizontalSensors == h && groundSensors == g
    {
      horizontalSensors := h;
      groundSensors := g;
    }

    /** `set_motors`: the list is replaced wholesale. */
    method SetMotors(values: seq<int>)
      modifies this`motorValues, this`motorWrites
      ensures motorValues == values
      ensures motorWrites == old(motorWrites) + [values]
    {
      motorValues := values;
      motorWrites := motorWrites + [values];
    }

    /** `set_led`: the list is replaced wholesale. */
    method SetLed(values: seq<int>)
      modifies this`ledValues
      ensures ledValues == values
    {
      ledValues := values;
    }

    /** `stop`: the control loop's flag is cleared (joining the thread is not modelled). */
    method Stop()
      modifies this`running
      ensures !running
    {
      running := false;
    }

    /**
     * `perform_action`: clamp the speed, then one motor command. The LEDs and
     * everything else stay as they were.
     */
    method PerformAction(action: string, speed: int)
      modifies this`motorValues, this`motorWrites
      ensures motorValues == ActionMotors(action, Clamp(speed))
      ensures motorWrites == old(motorWrites) + [motorValues]
    {
      var s := speed;
      if s > 500 {
        s := 500;
      } else if s < -500 {
        s := -500;
      }
      if action == "LEFT" {
        SetMotors([0, s]);
        return;
      }
      if action == "RIGHT" {
        SetMotors([s, 0]);
        return;
      }
      if action == "FORWARD" {
        SetMotors([s, s]);
        return;
      }
      if action == "STOP" {
        SetMotors([0, 0]);
      } else {
        SetMotors([0, 0]);
      }
    }

    /** `detect_surface` on the current ground readings, with its sixth test reading the right sensor. */
    function DetectSurface(): string
      reads this
      requires |groundSensors| >= 2
    {
      Detect(groundSensors[0], groundSensors[1])
    }

    /** `explore`: classify the ground, then one `perform_action` chosen by the where. */
    method Explore()
      requires |groundSensors| >= 2
      modifies this`motorValues, this`motorWrites
      ensures motorValues == ExploreMotors(Detect(groundSensors[0], groundSensors[1]))
      ensures motorWrites == old(motorWrites) + [motorValues]
    {
      var whereami := DetectSurface();
      if whereami == "safe-zone" {
        PerformAction("STOP", 100);
      } else if whereami == "safe-zone-left" {
        PerformAction("LEFT", 50);
      } else if whereami == "safe-zone-right" {
        PerformAction("RIGHT", 50);
      } else if whereami == "black-tape" {
        PerformAction("LEFT", 250);
      } else if whereami == "black-tape-left" {
        PerformAction("RIGHT", 150);
      } else if whereami == "black-tape-right" {
        PerformAction("LEFT", 150);
      } else {
        PerformAction("FORWARD", 500);
      }
    }
  }
}
