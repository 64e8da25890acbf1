/**
 * qlearning.py: Q-learning driven by the camera alone. The state is the
 * bucket of the centroid's x coordinate (10 buckets across the image), the
 * four actions are LEFT, RIGHT, FORWARD and STOP, `take_action` always
 * rewards 0, and the loop saves every 30 iterations. As configured the
 * discount is 0 and the learning rate 0.1.
 */
module CamLearning {
  import opened Text
  import opened QStore
  import opened Learning

  const Resolution: int := 10
  const SaveIterations: nat := 30
  const Actions: seq<string> := ["LEFT", "RIGHT", "FORWARD", "STOP"]

  /** What `State.__init__` reads from the camera. */
  datatype Camera = Camera(cX: int, cY: int, width: int, height: int)

  /** `State.__init__` divides by both image dimensions. */
  predicate Observable(c: Camera)
  {
    c.width != 0 && c.height != 0
  }

  /** `mapped_x`: the centroid scaled to 10 buckets, truncated. */
  function MappedX(c: Camera): int
    requires c.width != 0
  {
    TruncDiv(c.cX * Resolution, c.width)
  }

  /** `str(State(camera))`: the one-item data joined with ':'. */
  function StateString(c: Camera): string
    requires Observable(c)
  {
    Join([IntToString(MappedX(c))], ':')
  }

  /** A centroid inside the image gives a one-digit state, the digit of its bucket. */
  lemma StateIsBucketDigit(c: Camera)
    requires 0 <= c.cX < c.width && c.height != 0
    ensures 0 <= MappedX(c) < Resolution
    ensures var s := StateString(c);
            |s| == 1 && IsDigit(s[0]) && DigitValue(s[0]) == MappedX(c)
  {
    var a := c.cX * Resolution;
    assert a / c.width * c.width <= a < Resolution * c.width;
  }

  /** Two cameras give the same state exactly when their centroids fall in the same bucket. */
  lemma StateStringInjective(c1: Camera, c2: Camera)
    requires Observable(c1) && Observable(c2)
    ensures StateString(c1) == StateString(c2) <==> MappedX(c1) == MappedX(c2)
  {
    if StateString(c1) == StateString(c2) {
      IntToStringInjective(MappedX(c1), MappedX(c2));
    }
  }

  /** A state string has no '.', so the `my_hash` keys of different states never collide. */
  lemma StateStringDotFree(c: Camera)
    requires Observable(c)
    ensures '.' !in StateString(c)
  {
    var i := MappedX(c);
    var digits := if i < 0 then NatToString(-i) else NatToString(i);
    assert forall j :: 0 <= j < |digits| ==> digits[j] != '.';
  }

  /** What one iteration takes from outside: the exploration draw, the `random.choice` index and the camera after the action. */
  datatype Sample = Sample(draw: real, pick: nat, camera: Camera)

  predicate ValidSamples(samples: seq<Sample>)
  {
    forall k :: 0 <= k < |samples| ==> samples[k].pick < |Actions| && Observable(samples[k].camera)
  }

  /** The ticks of the loop: `take_action` rewards 0 and the new state is the camera's. */
  function Ticks(samples: seq<Sample>): (ticks: seq<Tick>)
    requires ValidSamples(samples)
    ensures |ticks| == |samples|
    ensures forall k :: 0 <= k < |ticks| ==>
              ticks[k] == Tick(samples[k].draw, samples[k].pick, 0.0, StateString(samples[k].camera))
  {
    if |samples| == 0 then []
    else
      var s := samples[0];
      [Tick(s.draw, s.pick, 0.0, StateString(s.camera))] + Ticks(samples[1..])
  }

  /** No iteration earns a reward, and every pick is an index of the four actions. */
  lemma TicksArePlain(samples: seq<Sample>)
    requires ValidSamples(samples)
    ensures NoRewards(Ticks(samples)) && ValidTicks(Ticks(samples), Actions)
  {
  }

  /**
   * As configured (reward 0, discount 0) each update only scales the chosen
   * value by `1 - lr`, and with `lr` in [0, 1] a table whose values lie in
   * [-1, 0] keeps them there for any number of iterations.
   */
  lemma MyopicLearning(ag: Agent, eps: real, lr: real, samples: seq<Sample>)
    requires ValidSamples(samples) && 0.0 <= lr <= 1.0 && InUnitBelow(ag.table)
    ensures InUnitBelow(Run(ag, Actions, eps, lr, 0.0, Ticks(samples)).table)
    ensures forall k :: 0 <= k < |samples| ==>
              forall q :: Blend(q, lr, Target(ag.table, Actions, 0.0, Ticks(samples)[k])) == (1.0 - lr) * q
  {
    TicksArePlain(samples);
    RunStaysInUnitBelow(ag, Actions, eps, lr, 0.0, Ticks(samples));
    forall k, q | 0 <= k < |samples|
      ensures Blend(q, lr, Target(ag.table, Actions, 0.0, Ticks(samples)[k])) == (1.0 - lr) * q
    {
      MyopicUpdateScales(ag.table, Actions, lr, Ticks(samples)[k], q);
    }
  }

  /**
   * `q_learning(problem, iterations, ...)` with `iterations == |samples|`:
   * the table after the loop is the one `Run` gives from the camera's first
   * state, and the saves are those `SavedTables` lists, one every 30
   * iterations starting with the first.
   */
  method QLearning(store: QValueStore, first: Camera, samples: seq<Sample>, lr: real, dr: real, eps: real)
    requires Observable(first) && ValidSamples(samples)
    modifies store`storage, store`disk, store`saves
    ensures var ag := Agent(old(store.storage), StateString(first));
            && store.storage == Run(ag, Actions, eps, lr, dr, Ticks(samples)).table
            && store.saves == SavedTables(old(store.saves), ag, Actions, eps, lr, dr, Ticks(samples), SaveIterations)
    ensures |store.saves| == |old(store.saves)| + (|samples| + SaveIterations - 1) / SaveIterations
    ensures |samples| > 0 ==> HoldsLast(store.disk, store.saves)
    ensures |samples| == 0 ==> store.disk == old(store.disk)
  {
    var ticks := Ticks(samples);
    TicksArePlain(samples);
    ghost var ag := Agent(store.storage, StateString(first));
    ghost var saves0 := store.saves;
    Train(store, StateString(first), ticks, Actions, eps, lr, dr, SaveIterations);
    SavedCount(saves0, ag, Actions, eps, lr, dr, ticks, SaveIterations);
  }
}
