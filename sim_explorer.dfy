/**
 * `AvoiderRobot.explore_environment` of Q-Learning-Sim.py: one strict
 * if/elif chain over a 9-reading sensor vector (front 0-4, back 5-6,
 * ground 7-8) that stores one motor pair. The pose, the kinematics of
 * `move` and the noisy compass are not modelled.
 */
module SimExplorer {
  import opened Sensors

  const BaseSpeed: int := 500
  const RobotThreshold: int := 100
  const LineLevel: int := 40

  /** The pair the chain stores for a sensor vector. */
  function ExploreSpeeds(sensors: seq<int>): (int, int)
    requires |sensors| == 9
  {
    var front, ground := sensors[..5], sensors[7..];
    if AllBelow(ground, LineLevel) then (-BaseSpeed, BaseSpeed)
    else if ground[0] < LineLevel then (200, 0)
    else if ground[1] < LineLevel then (0, 200)
    else if AnyAbove(sensors, RobotThreshold) then (BaseSpeed, BaseSpeed)
    else if ArgMin(front) == 0 then (0, -BaseSpeed)
    else if ArgMin(front) == 4 then (-BaseSpeed, 0)
    else (-BaseSpeed, BaseSpeed)
  }

  /** Every component the chain can store is one of -500, 0, 200 and 500. */
  lemma ExploreSpeedsRange(sensors: seq<int>)
    requires |sensors| == 9
    ensures ExploreSpeeds(sensors).0 in {-500, 0, 200, 500} && ExploreSpeeds(sensors).1 in {-500, 0, 200, 500}
  {
  }

  /**
   * The line rules come first: a dark ground reading decides the pair
   * whatever the proximity sensors read, left and right alike.
   */
  lemma LinePreemptsRobots(sensors: seq<int>)
    requires |sensors| == 9
    ensures sensors[7] < LineLevel && sensors[8] < LineLevel ==> ExploreSpeeds(sensors) == (-500, 500)
    ensures sensors[7] < LineLevel && sensors[8] >= LineLevel ==> ExploreSpeeds(sensors) == (200, 0)
    ensures sensors[7] >= LineLevel && sensors[8] < LineLevel ==> ExploreSpeeds(sensors) == (0, 200)
  {
    var ground := sensors[7..];
    assert ground[0] == sensors[7] && ground[1] == sensors[8];
  }

  /** No line and some reading above the robot threshold: full speed ahead. */
  lemma RobotSeenGoesForward(sensors: seq<int>)
    requires |sensors| == 9 && sensors[7] >= LineLevel && sensors[8] >= LineLevel
    ensures AnyAbove(sensors, RobotThreshold) ==> ExploreSpeeds(sensors) == (500, 500)
  {
    var ground := sensors[7..];
    assert ground[0] == sensors[7] && ground[1] == sensors[8];
  }

  /**
   * No line and nothing above the threshold: the pair is chosen by where the
   * weakest front reading is, the first one counting when several tie.
   */
  lemma QuietChoosesByWeakestFront(sensors: seq<int>)
    requires |sensors| == 9 && sensors[7] >= LineLevel && sensors[8] >= LineLevel
    requires !AnyAbove(sensors, RobotThreshold)
    ensures ExploreSpeeds(sensors) == (0, -500) <==> forall j :: 0 <= j < 5 ==> sensors[0] <= sensors[j]
    ensures ExploreSpeeds(sensors) == (-500, 0)
            <==> !(forall j :: 0 <= j < 5 ==> sensors[0] <= sensors[j]) && forall j :: 0 <= j < 4 ==> sensors[4] < sensors[j]
    ensures ExploreSpeeds(sensors) == (-500, 500)
            <==> !(forall j :: 0 <= j < 5 ==> sensors[0] <= sensors[j]) && !(forall j :: 0 <= j < 4 ==> sensors[4] < sensors[j])
  {
    var front, ground := sensors[..5], sensors[7..];
    assert ground[0] == sensors[7] && ground[1] == sensors[8];
    assert forall j :: 0 <= j < 5 ==> front[j] == sensors[j];
    if forall j :: 0 <= j < 5 ==> sensors[0] <= sensors[j] {
      ArgMinUnique(front, 0);
    }
    if forall j :: 0 <= j < 4 ==> sensors[4] < sensors[j] {
      ArgMinUnique(front, 4);
    }
  }

  class AvoiderRobot {
    var leftMotorSpeed: int
    var rightMotorSpeed: int

    /** `__init__`: both motors start still. */
    constructor ()
      ensures leftMotorSpeed == 0 && rightMotorSpeed == 0
    {
      leftMotorSpeed, rightMotorSpeed := 0, 0;
    }

    /** `getMotorspeeds`. */
    function MotorSpeeds(): (int, int)
      reads this
    {
      (leftMotorSpeed, rightMotorSpeed)
    }

    /** `set_motor_speeds`: `getMotorspeeds` then returns exactly this pair. */
    method SetMotorSpeeds(left: int, right: int)
      modifies this
      ensures MotorSpeeds() == (left, right)
    {
      leftMotorSpeed := left;
      rightMotorSpeed := right;
    }

    /** `explore_environment`: exactly one branch of the chain stores its pair. */
    method ExploreEnvironment(sensors: seq<int>, camera: int)
      requires |sensors| == 9
      modifies this
      ensures MotorSpeeds() == ExploreSpeeds(sensors)
    {
      var front, ground := sensors[..5], sensors[7..];
      if AllBelow(ground, 40) {
        SetMotorSpeeds(-500, 500);
      } else if ground[0] < 40 {
        SetMotorSpeeds(200, 0);
      } else if ground[1] < 40 {
        SetMotorSpeeds(0, 200);
      } else if AnyAbove(sensors, 100) {
        SetMotorSpeeds(500, 500);
      } else if ArgMin(front) == 0 {
        SetMotorSpeeds(0, -500);
      } else if ArgMin(front) == 4 {
        SetMotorSpeeds(-500, 0);
      } else {
        SetMotorSpeeds(-500, 500);
      }
    }
  }
}
