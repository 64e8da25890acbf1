/**
 * The older `ThymioController` of robot.py and thymio.py (the two files
 * agree line for line on everything modelled here). Its `perform_action`
 * writes fixed turning speeds, but the tests are separate `if`s and the
 * last one has an `else`: every action other than STOP also reaches the
 * "Invalid action!" branch, so the motors always end at [0, 0].
 */
module ThymioLegacy {

  /** The command each action writes before the final if/else runs. */
  function FirstWrite(action: string): seq<seq<int>>
  {
    if action == "LEFT" then [[50, -50]]
    else if action == "RIGHT" then [[-50, 50]]
    else if action == "FORWARD" then [[50, 50]]
    else []
  }

  /** Every list `perform_action` passes to `set_motors`, in order, as the code is written. */
  function AsWrittenWrites(action: string): seq<seq<int>>
  {
    FirstWrite(action) + [[0, 0]]
  }

  /** The command of an `if`/`elif` chain, which the four tests were evidently meant to be. */
  function IntendedMotors(action: string): seq<int>
  {
    if action == "LEFT" then [50, -50]
    else if action == "RIGHT" then [-50, 50]
    else if action == "FORWARD" then [50, 50]
    else [0, 0]
  }

  /**
   * As written, the last command is always [0, 0]; a move is written first
   * and then overwritten, and STOP is the only action that writes once.
   */
  lemma AsWrittenAlwaysStops(action: string)
    ensures var w := AsWrittenWrites(action);
            |w| >= 1 && w[|w| - 1] == [0, 0]
    ensures |AsWrittenWrites(action)| == 1 <==> action !in {"LEFT", "RIGHT", "FORWARD"}
    ensures action in {"LEFT", "RIGHT", "FORWARD"} ==> AsWrittenWrites(action)[0] == IntendedMotors(action)
  {
  }

  /** LEFT shows the difference: the intended turn is [50, -50], the motors end at [0, 0]. */
  lemma LeftIsLost()
    ensures IntendedMotors("LEFT") == [50, -50]
    ensures AsWrittenWrites("LEFT") == [[50, -50], [0, 0]]
  {
  }

  /** The intended chain turns a wheel exactly for the three moves. */
  lemma IntendedMovesExactlyForMoves(action: string)
    ensures IntendedMotors(action) != [0, 0] <==> action in {"LEFT", "RIGHT", "FORWARD"}
    ensures forall i :: 0 <= i < 2 ==> -50 <= IntendedMotors(action)[i] <= 50
  {
  }

  class Controller {
    var motorValues: seq<int>
    /** Every list passed to `set_motors`, oldest first. */
    ghost var motorWrites: seq<seq<int>>
    var ledValues: seq<int>
    var running: bool

    /** `__init__`: motors and LEDs off, control loop running (the thread itself is not modelled). */
    constructor ()
      ensures motorValues == [0, 0] && ledValues == [0, 0, 0] && running && motorWrites == []
    {
      motorValues, ledValues, running := [0, 0], [0, 0, 0], true;
      motorWrites := [];
    }

    /** `set_motors`: the list is replaced wholesale. */
    method SetMotors(values: seq<int>)
      modifies this`motorValues, this`motorWrites
      ensures motorValues == values
      ensures motorWrites == old(motorWrites) + [values]
    {
      motorValues := values;
      motorWrites := motorWrites + [values];
    }

    /** `set_led`: the list is replaced wholesale. */
    method SetLed(values: seq<int>)
      modifies this`ledValues
      ensures ledValues == values
    {
      ledValues := values;
    }

    /** `stop`: the control loop's flag is cleared (joining the thread is not modelled). */
    method Stop()
      modifies this`running
      ensures !running
    {
      running := false;
    }

    /** `perform_action` as written: separate `if`s, the last with an `else`. */
    method PerformAction(action: string)
      modifies this`motorValues, this`motorWrites
      ensures motorWrites == old(motorWrites) + AsWrittenWrites(action)
      ensures motorValues == [0, 0]
    {
      ghost var before := motorWrites;
      if action == "LEFT" {
        SetMotors([50, -50]);
      }
      if action == "RIGHT" {
        SetMotors([-50, 50]);
      }
      if action == "FORWARD" {
        SetMotors([50, 50]);
      }
      assert motorWrites == before + FirstWrite(action);
      if action == "STOP" {
        SetMotors([0, 0]);
      } else {
        SetMotors([0, 0]);
      }
    }

    /** The same four tests chained with `elif`: one command, the intended one. */
    method PerformActionChained(action: string)
      modifies this`motorValues, this`motorWrites
      ensures motorValues == IntendedMotors(action)
      ensures motorWrites == old(motorWrites) + [IntendedMotors(action)]
    {
      if action == "LEFT" {
        SetMotors([50, -50]);
      } else if action == "RIGHT" {
        SetMotors([-50, 50]);
      } else if action == "FORWARD" {
        SetMotors([50, 50]);
      } else if action == "STOP" {
        SetMotors([0, 0]);
      } else {
        SetMotors([0, 0]);
      }
    }
  }
}
