/**
 * `detect_surface`: the seven-way classification of the two ground
 * readings (left, right). Readings above 900 mean the reflective safe zone,
 * readings below 400 mean black tape, and the safe-zone tests come first.
 *
 * The controllers in robot/robot2.py, robot2.py and archive/robot.py repeat
 * the left-side tape test where the right-side one belongs (`DetectAsWritten`);
 * _test.py has the intended classifier (`Detect`).
 */
module Surface {

  const Bright: int := 900
  const Dark: int := 400

  const SafeZone: string := "safe-zone"
  const SafeZoneLeft: string := "safe-zone-left"
  const SafeZoneRight: string := "safe-zone-right"
  const BlackTape: string := "black-tape"
  const BlackTapeLeft: string := "black-tape-left"
  const BlackTapeRight: string := "black-tape-right"
  const OpenGround: string := "open-ground"

  const Labels: seq<string> := [SafeZone, SafeZoneLeft, SafeZoneRight, BlackTape, BlackTapeLeft, BlackTapeRight, OpenGround]

  /** The classifier of _test.py. */
  function Detect(left: int, right: int): string
  {
    if left > Bright && right > Bright then SafeZone
    else if left > Bright then SafeZoneLeft
    else if right > Bright then SafeZoneRight
    else if left < Dark && right < Dark then BlackTape
    else if left < Dark then BlackTapeLeft
    else if right < Dark then BlackTapeRight
    else OpenGround
  }

  /** The classifier of the controllers, whose sixth test reads the left sensor again. */
  function DetectAsWritten(left: int, right: int): string
  {
    if left > Bright && right > Bright then SafeZone
    else if left > Bright then SafeZoneLeft
    else if right > Bright then SafeZoneRight
    else if left < Dark && right < Dark then BlackTape
    else if left < Dark then BlackTapeLeft
    else if left < Dark then BlackTapeRight
    else OpenGround
  }

  /**
   * Each label of `Detect` stated as a region of the reading plane, both
   * ways: the seven regions are disjoint and cover every pair of readings.
   */
  lemma DetectRegions(left: int, right: int)
    ensures Detect(left, right) in Labels
    ensures Detect(left, right) == SafeZone <==> left > Bright && right > Bright
    ensures Detect(left, right) == SafeZoneLeft <==> left > Bright && right <= Bright
    ensures Detect(left, right) == SafeZoneRight <==> left <= Bright && right > Bright
    ensures Detect(left, right) == BlackTape <==> left < Dark && right < Dark
    ensures Detect(left, right) == BlackTapeLeft <==> left < Dark && Dark <= right <= Bright
    ensures Detect(left, right) == BlackTapeRight <==> Dark <= left <= Bright && right < Dark
    ensures Detect(left, right) == OpenGround <==> Dark <= left <= Bright && Dark <= right <= Bright
  {
  }

  /** The safe zone wins over tape: a bright left and a dark right read as the left safe zone. */
  lemma SafeBeforeTape(left: int, right: int)
    requires left > Bright && right < Dark
    ensures Detect(left, right) == SafeZoneLeft && DetectAsWritten(left, right) == SafeZoneLeft
  {
  }

  /** The reading of the _test.py script: [50, 50] is black tape. */
  lemma DarkPairIsTape()
    ensures Detect(50, 50) == BlackTape
  {
  }

  /**
   * The controllers' classifier agrees with the intended one except that
   * the right-side tape region reads as open ground, so "black-tape-right"
   * is never returned.
   */
  lemma AsWrittenLosesRightTape(left: int, right: int)
    ensures DetectAsWritten(left, right) == if Detect(left, right) == BlackTapeRight then OpenGround else Detect(left, right)
    ensures DetectAsWritten(left, right) != BlackTapeRight
  {
  }

  /** A concrete pair that shows the difference: a dark right sensor alone. */
  lemma RightTapeCounterexample()
    ensures Detect(500, 100) == BlackTapeRight
    ensures DetectAsWritten(500, 100) == OpenGround
  {
  }
}
