/**
 * The action-to-wheel table shared by `Metal.perform_action` (robot_metal.py)
 * and `Simulation.perform_action` (simulation/simulation.py): a fixed slow
 * speed of 50, the action remembered as `current_action` when it is known.
 */
module SlowDrive {

  const Known: seq<string> := ["STOP", "LEFT", "RIGHT", "FORWARD"]

  /** The wheel pair for an action; an unknown action stops both wheels. */
  function SlowMotors(action: string): seq<int>
  {
    if action == "LEFT" then [0, 50]
    else if action == "RIGHT" then [50, 0]
    else if action == "FORWARD" then [50, 50]
    else [0, 0]
  }

  /** The action remembered after `perform_action`: a known one replaces the old, an unknown one is ignored. */
  function NextAction(current: string, action: string): (next: string)
    ensures next in Known <== current in Known
  {
    if action in Known then action else current
  }

  /**
   * Only the three moves turn a wheel, and never backwards; and the
   * remembered action always reports what the wheels do when the last
   * request was known.
   */
  lemma SlowMotorsTable(current: string, action: string)
    ensures SlowMotors(action) != [0, 0] <==> action in {"LEFT", "RIGHT", "FORWARD"}
    ensures forall i :: 0 <= i < 2 ==> 0 <= SlowMotors(action)[i] <= 50
    ensures action in Known ==> SlowMotors(NextAction(current, action)) == SlowMotors(action)
    ensures action !in Known ==> NextAction(current, action) == current && SlowMotors(action) == [0, 0]
  {
  }
}
