/**
 * `behaviouralModule.react` of BehaviouralModule.py: a sequence of rules
 * that each may assign `motor_speed`, later assignments overwriting earlier
 * ones. The sensor vector has nine readings: front 0-4, back 5-6 and
 * ground 7-8. `camera.robot_in_view()` and the numpy random draws are
 * parameters.
 */
module React {
  import opened Wrappers
  import opened Sensors

  datatype Thresholds = Thresholds(robot: int, blackLine: int, safeZone: int, surface: int)

  /** The default thresholds of `__init__`. */
  const DefaultThresholds: Thresholds := Thresholds(1200, 40, 1200, 400)

  /** The random draws one call may consume: turn side, camera side, the two random wheel speeds. */
  datatype Draws = Draws(turn: real, side: real, randLeft: int, randRight: int)

  function Front(sensors: seq<int>): seq<int> requires |sensors| == 9 { sensors[..5] }
  function Back(sensors: seq<int>): seq<int> requires |sensors| == 9 { sensors[5..7] }
  function Ground(sensors: seq<int>): seq<int> requires |sensors| == 9 { sensors[7..] }

  /** A later assignment wins; a section that assigns nothing leaves the previous pair. */
  function Then(prev: (int, int), section: Option<(int, int)>): (int, int)
  {
    match section
    case Some(p) => p
    case None => prev
  }

  /** What the avoider's line section assigns, if anything. */
  function AvoiderLine(max: int, th: Thresholds, sensors: seq<int>, d: Draws): Option<(int, int)>
    requires |sensors| == 9
  {
    var ground := Ground(sensors);
    if AllBelow(ground, th.blackLine) then
      if AnyAbove(Back(sensors), th.robot) then
        Some(if d.turn < 0.5 then (max, (-max) / 2) else ((-max) / 2, max))
      else Some((max, -max))
    else if ground[0] < th.blackLine then Some((max / 2, 0))
    else if ground[1] < th.blackLine then Some((0, max / 2))
    else None
  }

  /** The avoider's safe-zone rule: both ground readings non-zero and no signal means stop. */
  function AvoiderSafe(sensors: seq<int>, signal: bool): Option<(int, int)>
    requires |sensors| == 9
  {
    if AllNonzero(Ground(sensors)) && !signal then Some((0, 0)) else None
  }

  /** What the avoider's camera and robot section assigns. */
  function AvoiderRobots(max: int, th: Thresholds, sensors: seq<int>, inView: bool, d: Draws): Option<(int, int)>
    requires |sensors| == 9
  {
    if inView then
      Some(if d.side < 0.5 then (max / 4, 0) else (0, max / 4))
    else if AnyAbove(sensors, th.robot) then
      var k := ArgMin(Front(sensors));
      if k == 0 then Some((0, -max))
      else if k == 4 then Some((-max, 0))
      else Some((-max, max))
    else Some((max, max))
  }

  /** What the seeker's line section assigns, if anything. */
  function SeekerLine(max: int, th: Thresholds, sensors: seq<int>): Option<(int, int)>
    requires |sensors| == 9
  {
    var ground := Ground(sensors);
    if AllBelow(ground, th.blackLine) then Some((-max, max))
    else if ground[0] < th.blackLine then Some((max, 0))
    else if ground[1] < th.blackLine then Some((0, max))
    else None
  }

  /** What the seeker's camera section assigns: nothing in view, the random pair otherwise. */
  function SeekerCamera(inView: bool, d: Draws): Option<(int, int)>
  {
    if inView then None else Some((d.randLeft, d.randRight))
  }

  /** `motor_speed` after one `react`, starting from `prev`: the sections in source order. */
  function ReactMotors(prev: (int, int), max: int, th: Thresholds, sensors: seq<int>, inView: bool, signal: bool,
                       robotType: string, d: Draws): (int, int)
    requires |sensors| == 9
  {
    if robotType == "avoider" then
      Then(Then(Then(prev, AvoiderLine(max, th, sensors, d)), AvoiderSafe(sensors, signal)),
           AvoiderRobots(max, th, sensors, inView, d))
    else
      Then(Then(prev, SeekerLine(max, th, sensors)), SeekerCamera(inView, d))
  }

  /**
   * For the avoider the camera and robot section always has the last word:
   * the line and safe-zone commands are overwritten, so the result depends
   * neither on the previous command nor on the signal.
   */
  lemma AvoiderLastWord(prev: (int, int), prev': (int, int), max: int, th: Thresholds, sensors: seq<int>,
                        inView: bool, signal: bool, signal': bool, d: Draws)
    requires |sensors| == 9
    ensures ReactMotors(prev, max, th, sensors, inView, signal, "avoider", d)
            == ReactMotors(prev', max, th, sensors, inView, signal', "avoider", d)
    ensures inView ==> ReactMotors(prev, max, th, sensors, inView, signal, "avoider", d)
                       == if d.side < 0.5 then (max / 4, 0) else (0, max / 4)
    ensures !inView && !AnyAbove(sensors, th.robot) ==> ReactMotors(prev, max, th, sensors, inView, signal, "avoider", d) == (max, max)
  {
  }

  /**
   * The avoider out of camera view with a reading above the robot threshold
   * turns away from the weakest front reading (the first when several tie):
   * sharp right when it is the first, sharp left when it is the last, and a
   * 180-degree turn when it is one of the three in the middle.
   */
  lemma AvoiderTurnsFromWeakest(prev: (int, int), max: int, th: Thresholds, sensors: seq<int>, signal: bool, d: Draws)
    requires |sensors| == 9 && AnyAbove(sensors, th.robot)
    ensures var m := ReactMotors(prev, max, th, sensors, false, signal, "avoider", d);
            && ((forall j :: 0 <= j < 5 ==> sensors[0] <= sensors[j]) ==> m == (0, -max))
            && ((forall j :: 0 <= j < 4 ==> sensors[4] < sensors[j]) ==> m == (-max, 0))
            && (!(forall j :: 0 <= j < 5 ==> sensors[0] <= sensors[j]) && !(forall j :: 0 <= j < 4 ==> sensors[4] < sensors[j])
                ==> m == (-max, max))
  {
    var front := Front(sensors);
    assert forall j :: 0 <= j < 5 ==> front[j] == sensors[j];
    if forall j :: 0 <= j < 5 ==> sensors[0] <= sensors[j] {
      ArgMinUnique(front, 0);
    }
    if forall j :: 0 <= j < 4 ==> sensors[4] < sensors[j] {
      ArgMinUnique(front, 4);
    }
  }

  /**
   * The seeker in camera view keeps the line command, or the previous one if
   * no line rule fires; out of view it drives at the two random speeds, which
   * lie in [0, max) whenever the draws of `randint(0, max)` do.
   */
  lemma SeekerKeepsOrWanders(prev: (int, int), max: int, th: Thresholds, sensors: seq<int>, signal: bool, d: Draws)
    requires |sensors| == 9
    ensures var m := ReactMotors(prev, max, th, sensors, true, signal, "seeker", d);
            var g := Ground(sensors);
            && (AllBelow(g, th.blackLine) ==> m == (-max, max))
            && (!AllBelow(g, th.blackLine) && g[0] < th.blackLine ==> m == (max, 0))
            && (!AllBelow(g, th.blackLine) && g[0] >= th.blackLine && g[1] < th.blackLine ==> m == (0, max))
            && (g[0] >= th.blackLine && g[1] >= th.blackLine ==> m == prev)
    ensures 0 <= d.randLeft < max && 0 <= d.randRight < max ==>
            var m := ReactMotors(prev, max, th, sensors, false, signal, "seeker", d);
            0 <= m.0 < max && 0 <= m.1 < max
  {
    var g := Ground(sensors);
    if g[0] >= th.blackLine && g[1] >= th.blackLine {
      assert !AllBelow(g, th.blackLine) by {
        assert g[0] >= th.blackLine;
      }
    }
  }

  class BehaviouralModule {
    const maxSpeed: int
    const thresholds: Thresholds
    var motorSpeed: (int, int)

    /** `__init__`: the motors start at (0, 0). */
    constructor (maxSpeed: int, thresholds: Thresholds)
      ensures this.maxSpeed == maxSpeed && this.thresholds == thresholds
      ensures motorSpeed == (0, 0)
    {
      this.maxSpeed := maxSpeed;
      this.thresholds := thresholds;
      motorSpeed := (0, 0);
    }

    /** `get_motor_speed`: the pair most recently set. */
    function GetMotorSpeed(): (int, int)
      reads this
    {
      motorSpeed
    }

    /** `set_motor_speed`. */
    method SetMotorSpeed(left: int, right: int)
      modifies this`motorSpeed
      ensures GetMotorSpeed() == (left, right)
    {
      motorSpeed := (left, right);
    }

    /** `react`: the rules in source order, each assignment overwriting the one before. */
    method React(sensors: seq<int>, inView: bool, signal: bool, robotType: string, d: Draws)
      requires |sensors| == 9
      modifies this`motorSpeed
      ensures motorSpeed == ReactMotors(old(motorSpeed), maxSpeed, thresholds, sensors, inView, signal, robotType, d)
    {
      var front, back, ground := sensors[..5], sensors[5..7], sensors[7..];
      var max := maxSpeed;
      if robotType == "avoider" {
        if AllBelow(ground, thresholds.blackLine) {
          if AnyAbove(back, thresholds.robot) {
            if d.turn < 0.5 {
              SetMotorSpeed(max, (-max) / 2);
            } else {
              SetMotorSpeed((-max) / 2, max);
            }
          } else {
            SetMotorSpeed(max, -max);
          }
        } else if ground[0] < thresholds.blackLine {
          SetMotorSpeed(max / 2, 0);
        } else if ground[1] < thresholds.blackLine {
          SetMotorSpeed(0, max / 2);
        }
        if AllNonzero(ground) && !signal {
          SetMotorSpeed(0, 0);
        }
        if inView {
          if d.side < 0.5 {
            SetMotorSpeed(max / 4, 0);
          } else {
            SetMotorSpeed(0, max / 4);
          }
        } else if AnyAbove(sensors, thresholds.robot) {
          if ArgMin(front) == 0 {
            SetMotorSpeed(0, -max);
          } else if ArgMin(front) == 4 {
            SetMotorSpeed(-max, 0);
          } else {
            SetMotorSpeed(-max, max);
          }
        } else {
          SetMotorSpeed(max, max);
        }
      } else {
        if AllBelow(ground, thresholds.blackLine) {
          SetMotorSpeed(-max, max);
        } else if ground[0] < thresholds.blackLine {
          SetMotorSpeed(max, 0);
        } else if ground[1] < thresholds.blackLine {
          SetMotorSpeed(0, max);
        }
        if !inView {
          SetMotorSpeed(d.randLeft, d.randRight);
        }
      }
    }
  }
}
