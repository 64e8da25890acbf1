/**
 * `behaviouralModule` of robot/BehaviouralModule.py: one `update` per tick
 * of the behaviour loop in robot/main.py. Four avoidance rules are tried in
 * order and the first that fires issues its command and returns; otherwise
 * the AVOIDER cruises and the SEEKER steers towards what the camera sees.
 * The clock, the camera's centroid and the random draw are parameters; the
 * sleeps and the LEDs are not modelled.
 */
module Behaviour {
  import opened Wrappers
  import opened Sensors
  import Thymio

  /** `max_speed`, the four thresholds and the image height the rules use. */
  datatype Settings = Settings(maxSpeed: int, robot: int, blackLine: int, safeZone: int, front: int, height: int)

  /** The defaults of `__init__`. */
  const Defaults: Settings := Settings(80, 1200, 150, 800, 2000, 616)

  const RandomTimeout: real := 4.0
  const CollisionTimeout: real := 2.0

  /**
   * What one tick does: the motor commands in the order they are issued,
   * whether an avoidance rule fired (which stamps the collision time and
   * clears `is_safe`) and whether the SEEKER took a random nudge (which
   * stamps the random time).
   */
  datatype Decision = Decision(commands: seq<seq<int>>, collided: bool, nudged: bool)

  /** The first five proximity readings, as many as there are. */
  function FrontOf(horizontal: seq<int>): (front: seq<int>)
    ensures |front| == if |horizontal| < 5 then |horizontal| else 5
    ensures forall i :: 0 <= i < |front| ==> front[i] == horizontal[i]
  {
    if |horizontal| < 5 then horizontal else horizontal[..5]
  }

  /** Python's `int` of a real: truncation toward zero. */
  function Trunc(x: real): (n: int)
    ensures x >= 0.0 ==> n as real <= x < n as real + 1.0
    ensures x < 0.0 ==> n as real - 1.0 < x <= n as real
  {
    if x >= 0.0 then x.Floor else -((-x).Floor)
  }

  /** The steering speed `sp` for a centroid column: the offset from mid-height, scaled to `max_speed`. */
  function SteerSpeed(s: Settings, result: int): int
    requires s.height / 2 != 0
  {
    var half := s.height / 2;
    Trunc(Scaled(if result - half >= 0 then result - half else half - result, half, s.maxSpeed))
  }

  /** `offset / half * max` in exact arithmetic. */
  function Scaled(offset: int, half: int, max: int): real
    requires half != 0
  {
    offset as real / half as real * max as real
  }

  /** The command of the first avoidance rule that fires, if any. */
  function Avoidance(s: Settings, front: seq<int>, ground: seq<int>): Option<seq<int>>
    requires |ground| == 2
  {
    var max := s.maxSpeed;
    if AnyAbove(front, s.front) then Some([max, -max])
    else if AllBelow(ground, s.blackLine) then Some([max / 2, (-max) / 2])
    else if ground[0] < s.blackLine then Some([max / 2, (-max) / 2])
    else if ground[1] < s.blackLine then Some([(-max) / 2, max / 2])
    else None
  }

  /** The commands of a tick in which no avoidance rule fires. */
  function Cruise(s: Settings, robotType: string, ground: seq<int>, now: real, lastCollision: real, lastRandom: real,
                  result: int, draw: real): Decision
    requires robotType == "AVOIDER" || s.height / 2 != 0
  {
    var max := s.maxSpeed;
    if robotType == "AVOIDER" then
      var pause := if AllAbove(ground, s.safeZone) then [[0, 0], [max, max]] else [];
      var cruise := if now - lastCollision > CollisionTimeout then [max, max] else [max / 2, max / 2];
      Decision(pause + [cruise], false, false)
    else
      var half := s.height / 2;
      var sp := SteerSpeed(s, result);
      var nudge := result == 0 && now - lastRandom > RandomTimeout;
      var steer :=
        if result == 0 then (if nudge then [if draw < 0.5 then [0, max] else [max, 0]] else [])
        else if result < half then [[0, sp]]
        else if result > half then [[sp, 0]]
        else [[max, max]];
      Decision(steer + [[max, max]], false, nudge)
  }

  /** One tick of `update`. */
  function Decide(s: Settings, robotType: string, front: seq<int>, ground: seq<int>, now: real,
                  lastCollision: real, lastRandom: real, result: int, draw: real): Decision
    requires |ground| == 2
    requires robotType == "AVOIDER" || s.height / 2 != 0
  {
    match Avoidance(s, front, ground)
    case Some(c) => Decision([c], true, false)
    case None => Cruise(s, robotType, ground, now, lastCollision, lastRandom, result, draw)
  }

  /**
   * Something blocking the front comes first: the robot spins on the spot,
   * stamps the collision time and does nothing else, even on a black line.
   */
  lemma BlockedPreemptsAll(s: Settings, robotType: string, front: seq<int>, ground: seq<int>, now: real,
                           lastCollision: real, lastRandom: real, result: int, draw: real)
    requires |ground| == 2
    requires robotType == "AVOIDER" || s.height / 2 != 0
    requires exists i :: 0 <= i < |front| && front[i] > s.front
    ensures Decide(s, robotType, front, ground, now, lastCollision, lastRandom, result, draw)
            == Decision([[s.maxSpeed, -s.maxSpeed]], true, false)
  {
  }

  /**
   * With the front clear the line rules decide: both readings dark or only
   * the left one dark turn right on the spot, only the right one dark turns
   * left, and each of them stamps the collision time.
   */
  lemma LineRules(s: Settings, robotType: string, front: seq<int>, ground: seq<int>, now: real,
                  lastCollision: real, lastRandom: real, result: int, draw: real)
    requires |ground| == 2
    requires robotType == "AVOIDER" || s.height / 2 != 0
    requires forall i :: 0 <= i < |front| ==> front[i] <= s.front
    ensures var d := Decide(s, robotType, front, ground, now, lastCollision, lastRandom, result, draw);
            var max := s.maxSpeed;
            && (ground[0] < s.blackLine ==> d == Decision([[max / 2, (-max) / 2]], true, false))
            && (ground[0] >= s.blackLine && ground[1] < s.blackLine ==> d == Decision([[(-max) / 2, max / 2]], true, false))
            && (ground[0] >= s.blackLine && ground[1] >= s.blackLine ==> !d.collided)
  {
    if ground[0] >= s.blackLine {
      assert !AllBelow(ground, s.blackLine) by {
        assert ground[0] >= s.blackLine;
      }
    }
  }

  /** The collision time is stamped exactly when an avoidance rule fires. */
  lemma CollidedIffAvoiding(s: Settings, robotType: string, front: seq<int>, ground: seq<int>, now: real,
                            lastCollision: real, lastRandom: real, result: int, draw: real)
    requires |ground| == 2
    requires robotType == "AVOIDER" || s.height / 2 != 0
    ensures Decide(s, robotType, front, ground, now, lastCollision, lastRandom, result, draw).collided
            <==> Avoidance(s, front, ground).Some?
  {
  }

  /**
   * The random time is stamped exactly on a SEEKER tick that avoids nothing,
   * sees nothing and has waited more than four seconds since the last nudge.
   */
  lemma NudgedIffIdleSeeker(s: Settings, robotType: string, front: seq<int>, ground: seq<int>, now: real,
                            lastCollision: real, lastRandom: real, result: int, draw: real)
    requires |ground| == 2
    requires robotType == "AVOIDER" || s.height / 2 != 0
    ensures Decide(s, robotType, front, ground, now, lastCollision, lastRandom, result, draw).nudged
            <==> Avoidance(s, front, ground).None? && robotType != "AVOIDER" && result == 0 && now - lastRandom > RandomTimeout
  {
  }

  /**
   * An AVOIDER tick without avoidance ends at full speed once the last
   * collision is more than two seconds old and at half speed before that;
   * the safe zone adds a stop and a restart in front of it.
   */
  lemma AvoiderCruises(s: Settings, front: seq<int>, ground: seq<int>, now: real,
                       lastCollision: real, lastRandom: real, result: int, draw: real)
    requires |ground| == 2 && Avoidance(s, front, ground).None?
    ensures var d := Decide(s, "AVOIDER", front, ground, now, lastCollision, lastRandom, result, draw);
            var max := s.maxSpeed;
            && d.commands[|d.commands| - 1] == (if now - lastCollision > CollisionTimeout then [max, max] else [max / 2, max / 2])
            && |d.commands| == (if ground[0] > s.safeZone && ground[1] > s.safeZone then 3 else 1)
            && !d.collided && !d.nudged
  {
    if !(ground[0] > s.safeZone && ground[1] > s.safeZone) {
      assert !AllAbove(ground, s.safeZone);
    }
  }

  /** A SEEKER tick without avoidance always ends at full speed, whatever the camera reports. */
  lemma SeekerEndsAtFullSpeed(s: Settings, front: seq<int>, ground: seq<int>, now: real,
                              lastCollision: real, lastRandom: real, result: int, draw: real, robotType: string)
    requires |ground| == 2 && s.height / 2 != 0 && robotType != "AVOIDER"
    requires Avoidance(s, front, ground).None?
    ensures var d := Decide(s, robotType, front, ground, now, lastCollision, lastRandom, result, draw);
            1 <= |d.commands| <= 2 && d.commands[|d.commands| - 1] == [s.maxSpeed, s.maxSpeed]
  {
  }

  /**
   * The steering speed stays within `max_speed` while the centroid column is
   * at most the image height. `process_image` returns an x coordinate of an
   * image 820 wide, so the right part of the image asks for more.
   */
  lemma SteerSpeedBounded(s: Settings, result: int)
    requires s.height >= 2 && s.maxSpeed >= 0 && 0 <= result <= 2 * (s.height / 2)
    ensures 0 <= SteerSpeed(s, result) <= s.maxSpeed
  {
    var half := s.height / 2;
    var offset := if result - half >= 0 then result - half else half - result;
    assert 0 <= offset <= half;
    ScaledWithin(offset, half, s.maxSpeed);
    TruncWithin(Scaled(offset, half, s.maxSpeed), s.maxSpeed);
  }

  /** An offset no larger than `half` scales to at most `max`. */
  lemma ScaledWithin(offset: int, half: int, max: int)
    requires 0 <= offset <= half && half > 0 && max >= 0
    ensures 0.0 <= Scaled(offset, half, max) <= max as real
  {
    var ratio := offset as real / half as real;
    assert 0.0 <= ratio <= 1.0 by {
      RatioWithinOne(offset as real, half as real);
    }
    RatioScale(ratio, max as real);
  }

  lemma TruncWithin(x: real, m: int)
    requires 0.0 <= x <= m as real
    ensures 0 <= Trunc(x) <= m
  {
  }

  lemma RatioWithinOne(a: real, b: real)
    requires 0.0 <= a <= b && b > 0.0
    ensures 0.0 <= a / b <= 1.0
  {
    assert a / b * b == a;
  }

  lemma RatioScale(r: real, m: real)
    requires 0.0 <= r <= 1.0 && m >= 0.0
    ensures 0.0 <= r * m <= m
  {
    assert r * m <= 1.0 * m;
  }

  /** With the default settings the last column of the image, 819, gives 132 > 80. */
  lemma SteerSpeedOvershoots()
    ensures SteerSpeed(Defaults, 819) == 132 > Defaults.maxSpeed
  {
    assert (819 - 308) as real / 308 as real * 80 as real == 40880.0 / 308.0;
  }

  /**
   * As written, `update` sets `is_safe` through `controller`, a name the
   * module never defines, so every tick raises a NameError at its first
   * `is_safe` write: an avoidance tick after its one command, any other tick
   * before issuing any.
   */
  datatype AsWrittenTick = Raised(issued: seq<seq<int>>)

  function AsWrittenUpdate(s: Settings, front: seq<int>, ground: seq<int>): AsWrittenTick
    requires |ground| == 2
  {
    match Avoidance(s, front, ground)
    case Some(c) => Raised([c])
    case None => Raised([])
  }

  /**
   * A clear tick shows it: as written the AVOIDER issues nothing and raises,
   * while with `controller` read as the module's own `thymio` it drives on.
   */
  lemma ClearTickRaises(s: Settings, front: seq<int>, ground: seq<int>, now: real, lastCollision: real)
    requires |ground| == 2 && Avoidance(s, front, ground).None?
    ensures AsWrittenUpdate(s, front, ground) == Raised([])
    ensures |Decide(s, "AVOIDER", front, ground, now, lastCollision, 0.0, 0, 0.0).commands| >= 1
  {
  }

  /** The tick of robot/main.py with the default avoider settings, a clear view and grey ground. */
  lemma GreyGroundExample()
    ensures AsWrittenUpdate(Defaults, [0, 0, 0, 0, 0], [500, 500]) == Raised([])
    ensures Decide(Defaults, "AVOIDER", [0, 0, 0, 0, 0], [500, 500], 10.0, 0.0, 0.0, 0, 0.0)
            == Decision([[80, 80]], false, false)
  {
    var ground: seq<int> := [500, 500];
    assert ground[0] >= 150;
    assert !AllAbove(ground, 800) by {
      assert ground[0] <= 800;
    }
  }

  class BehaviouralModule {
    const thymio: Thymio.Controller
    const settings: Settings
    const robotType: string
    var lastCollisionTime: real
    var lastRandom: real

    /** `__init__`: record the robot type on the controller, clear both timers and stop the motors. */
    constructor (thymio: Thymio.Controller, settings: Settings, robotType: string)
      modifies thymio`robotType, thymio`motorValues, thymio`motorWrites
      ensures this.thymio == thymio && this.settings == settings && this.robotType == robotType
      ensures thymio.robotType == Some(robotType)
      ensures lastCollisionTime == 0.0 && lastRandom == 0.0
      ensures thymio.motorValues == [0, 0]
      ensures thymio.motorWrites == old(thymio.motorWrites) + [[0, 0]]
    {
      this.thymio := thymio;
      this.settings := settings;
      this.robotType := robotType;
      lastCollisionTime, lastRandom := 0.0, 0.0;
      new;
      thymio.robotType := Some(robotType);
      thymio.SetMotors([0, 0]);
    }

    /** `set_motor_speed`: one motor command to the controller. */
    method SetMotorSpeed(left: int, right: int)
      modifies thymio`motorValues, thymio`motorWrites
      ensures thymio.motorValues == [left, right]
      ensures thymio.motorWrites == old(thymio.motorWrites) + [[left, right]]
    {
      thymio.SetMotors([left, right]);
    }

    /**
     * `update`, with `controller` read as `self.thymio`: the commands of
     * `Decide` in order, the timers stamped with `now` where it says, and
     * `is_safe` cleared exactly on an avoidance tick.
     */
    method Update(now: real, result: int, draw: real)
      requires |thymio.groundSensors| == 2
      requires robotType == "AVOIDER" || settings.height / 2 != 0
      modifies this`lastCollisionTime, this`lastRandom, thymio`motorValues, thymio`motorWrites, thymio`isSafe
      ensures var d := Decide(settings, robotType, FrontOf(thymio.horizontalSensors), thymio.groundSensors, now,
                              old(lastCollisionTime), old(lastRandom), result, draw);
              && thymio.motorWrites == old(thymio.motorWrites) + d.commands
              && |d.commands| > 0 && thymio.motorValues == d.commands[|d.commands| - 1]
              && lastCollisionTime == (if d.collided then now else old(lastCollisionTime))
              && lastRandom == (if d.nudged then now else old(lastRandom))
              && thymio.isSafe == !d.collided
    {
      var front := FrontOf(thymio.horizontalSensors);
      var ground := thymio.groundSensors;
      var max := settings.maxSpeed;
      if AnyAbove(front, settings.front) {
        SetMotorSpeed(max, -max);
        lastCollisionTime := now;
        thymio.isSafe := false;
        return;
      }
      if AllBelow(ground, settings.blackLine) {
        SetMotorSpeed(max / 2, (-max) / 2);
        lastCollisionTime := now;
        thymio.isSafe := false;
        return;
      }
      if ground[0] < settings.blackLine {
        SetMotorSpeed(max / 2, (-max) / 2);
        lastCollisionTime := now;
        thymio.isSafe := false;
        return;
      }
      if ground[1] < settings.blackLine {
        SetMotorSpeed((-max) / 2, max / 2);
        lastCollisionTime := now;
        thymio.isSafe := false;
        return;
      }
      CruiseTick(now, result, draw);
    }

    /** The part of `update` after the four avoidance rules, which reached it without firing. */
    method CruiseTick(now: real, result: int, draw: real)
      requires |thymio.groundSensors| == 2
      requires robotType == "AVOIDER" || settings.height / 2 != 0
      modifies this`lastRandom, thymio`motorValues, thymio`motorWrites, thymio`isSafe
      ensures var d := Cruise(settings, robotType, thymio.groundSensors, now, lastCollisionTime, old(lastRandom), result, draw);
              && thymio.motorWrites == old(thymio.motorWrites) + d.commands
              && |d.commands| > 0 && thymio.motorValues == d.commands[|d.commands| - 1]
              && lastRandom == (if d.nudged then now else old(lastRandom))
              && thymio.isSafe
    {
      var ground := thymio.groundSensors;
      var max := settings.maxSpeed;
      if AllAbove(ground, settings.safeZone) && robotType == "AVOIDER" {
        thymio.isSafe := true;
        SetMotorSpeed(0, 0);
        SetMotorSpeed(max, max);
      }
      thymio.isSafe := true;
      if robotType == "AVOIDER" {
        if now - lastCollisionTime > CollisionTimeout {
          SetMotorSpeed(max, max);
        } else {
          SetMotorSpeed(max / 2, max / 2);
        }
      } else {
        var half := settings.height / 2;
        var sp := SteerSpeed(settings, result);
        if result == 0 {
          if now - lastRandom > RandomTimeout {
            lastRandom := now;
            if draw < 0.5 {
              SetMotorSpeed(0, max);
            } else {
              SetMotorSpeed(max, 0);
            }
          }
        } else if result < half {
          SetMotorSpeed(0, sp);
        } else if result > half {
          SetMotorSpeed(sp, 0);
        } else {
          SetMotorSpeed(max, max);
        }
        SetMotorSpeed(max, max);
      }
    }
  }
}
