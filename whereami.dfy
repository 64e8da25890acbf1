/**
 * archive/qlearning_whereami.py: Q-learning over where the robot believes it
 * is. A state is a surface label and a status, an action a direction and a
 * speed, both written with '.', so a table key has four '.'-separated
 * fields. The surface is simulated by a random choice among seven labels,
 * `take_action` rewards 0, and the loop saves every 30 iterations.
 */
module WhereAmI {
  import opened Text
  import opened QStore
  import opened Learning

  const SaveIterations: nat := 30

  /** The labels `get_current_state` chooses from, in its order. */
  const Surfaces: seq<string> := ["open-ground", "black-tape", "black-tape-left", "black-tape-right",
                                   "safe-zone", "safe-zone-left", "safe-zone-right"]
  const Directions: seq<string> := ["LEFT", "RIGHT", "FORWARD", "STOP", "BACKWARDS"]
  const Speeds: seq<string> := ["SLOW", "FAST"]

  /** The status as written: the test compares with "safe_zone", which no surface label spells. */
  function StatusAsWritten(surface: string): string
  {
    if surface == "black-tape" then "embarrassed" else if surface == "safe_zone" then "safe" else "normal"
  }

  /** The status as evidently intended, with the label spelled as the surfaces spell it. */
  function IntendedStatus(surface: string): string
  {
    if surface == "black-tape" then "embarrassed" else if surface == "safe-zone" then "safe" else "normal"
  }

  /** As written, the status is "embarrassed" exactly on black tape and never "safe" for a label. */
  lemma AsWrittenNeverSafe(k: nat)
    requires k < |Surfaces|
    ensures StatusAsWritten(Surfaces[k]) == "embarrassed" <==> Surfaces[k] == "black-tape"
    ensures StatusAsWritten(Surfaces[k]) != "safe"
  {
  }

  /** The safe zone itself shows the difference. */
  lemma SafeZoneCounterexample()
    ensures StatusAsWritten("safe-zone") == "normal"
    ensures IntendedStatus("safe-zone") == "safe"
  {
  }

  /** The intended status: "embarrassed" on black tape, "safe" exactly in the safe zone, "normal" elsewhere. */
  lemma IntendedStatusCases(surface: string)
    ensures IntendedStatus(surface) == "embarrassed" <==> surface == "black-tape"
    ensures IntendedStatus(surface) == "safe" <==> surface == "safe-zone"
    ensures IntendedStatus(surface) == "normal" <==> surface != "black-tape" && surface != "safe-zone"
  {
  }

  /** `str(State(surface, status))`. */
  function StateString(surface: string, status: string): string
  {
    surface + "." + status
  }

  /** `str(Action(direction, speed))`. */
  function ActionString(direction: string, speed: string): string
  {
    direction + "." + speed
  }

  /** The state `get_current_state` returns for the `random.choice` index `k`. */
  function StateAt(k: nat): string
    requires k < |Surfaces|
  {
    StateString(Surfaces[k], IntendedStatus(Surfaces[k]))
  }

  /** `ALL_ACTIONS`: every direction with every speed, direction-major. */
  function AllActions(): (actions: seq<string>)
    ensures |actions| == |Directions| * |Speeds| == 10
    ensures forall i, j :: 0 <= i < |Directions| && 0 <= j < |Speeds| ==>
              actions[i * |Speeds| + j] == ActionString(Directions[i], Speeds[j])
  {
    seq(10, k requires 0 <= k < 10 => ActionString(Directions[k / 2], Speeds[k % 2]))
  }

  /** Every label, status, direction and speed is free of '.'. */
  predicate Field(s: string)
  {
    '.' !in s
  }

  lemma FieldsAreDotFree()
    ensures forall k :: 0 <= k < |Surfaces| ==> Field(Surfaces[k]) && Field(IntendedStatus(Surfaces[k]))
    ensures forall k :: 0 <= k < |Directions| ==> Field(Directions[k])
    ensures forall k :: 0 <= k < |Speeds| ==> Field(Speeds[k])
  {
  }

  /** A table key is the four fields joined with '.', and splitting it gives them back. */
  lemma KeyHasFourFields(surface: string, status: string, direction: string, speed: string)
    requires Field(surface) && Field(status) && Field(direction) && Field(speed)
    ensures Key(StateString(surface, status), ActionString(direction, speed)) == Join([surface, status, direction, speed], '.')
    ensures Split(Key(StateString(surface, status), ActionString(direction, speed)), '.') == [surface, status, direction, speed]
  {
    var items := [surface, status, direction, speed];
    assert Join(items[3..], '.') == speed;
    assert Join(items[2..], '.') == direction + "." + speed;
    assert Join(items[1..], '.') == status + "." + direction + "." + speed;
    SplitJoin(items, '.');
  }

  /** Keys of dot-free fields are equal only when all four fields are. */
  lemma KeyInjective4(a: seq<string>, b: seq<string>)
    requires |a| == 4 && |b| == 4
    requires forall k :: 0 <= k < 4 ==> Field(a[k]) && Field(b[k])
    requires Key(StateString(a[0], a[1]), ActionString(a[2], a[3])) == Key(StateString(b[0], b[1]), ActionString(b[2], b[3]))
    ensures a == b
  {
    KeyHasFourFields(a[0], a[1], a[2], a[3]);
    KeyHasFourFields(b[0], b[1], b[2], b[3]);
    assert [a[0], a[1], a[2], a[3]] == a;
    assert [b[0], b[1], b[2], b[3]] == b;
  }

  /** An action string determines its direction and speed. */
  lemma ActionStringInjective(d1: string, s1: string, d2: string, s2: string)
    requires Field(d1) && Field(s1) && Field(d2) && Field(s2)
    requires ActionString(d1, s1) == ActionString(d2, s2)
    ensures d1 == d2 && s1 == s2
  {
    assert Join([d1, s1], '.') == ActionString(d1, s1);
    assert Join([d2, s2], '.') == ActionString(d2, s2);
    SplitJoin([d1, s1], '.');
    SplitJoin([d2, s2], '.');
  }

  /** The ten actions are distinct, so each names its own table entry. */
  lemma AllActionsDistinct(i: nat, j: nat)
    requires i < 10 && j < 10 && i != j
    ensures AllActions()[i] != AllActions()[j]
  {
    var d1, s1, d2, s2 := Directions[i / 2], Speeds[i % 2], Directions[j / 2], Speeds[j % 2];
    assert AllActions()[i] == ActionString(d1, s1) && AllActions()[j] == ActionString(d2, s2);
    FieldsAreDotFree();
    if ActionString(d1, s1) == ActionString(d2, s2) {
      ActionStringInjective(d1, s1, d2, s2);
      DistinctAt(Directions, i / 2, j / 2);
      DistinctAt(Speeds, i % 2, j % 2);
      assert false;
    }
  }

  /** The directions and the speeds are each listed without repetition. */
  lemma DistinctAt(names: seq<string>, a: nat, b: nat)
    requires names == Directions || names == Speeds
    requires a < |names| && b < |names| && names[a] == names[b]
    ensures a == b
  {
    if names == Directions {
      assert names[a][0] == names[b][0] && |names[a]| == |names[b]|;
    } else {
      assert |names[a]| == |names[b]|;
    }
  }

  /** What one iteration takes from outside: the exploration draw, the action index and the surface index. */
  datatype Sample = Sample(draw: real, pick: nat, surface: nat)

  predicate ValidSamples(samples: seq<Sample>)
  {
    forall k :: 0 <= k < |samples| ==> samples[k].pick < 10 && samples[k].surface < |Surfaces|
  }

  /** The ticks of the loop: reward 0 and a freshly simulated state. */
  function Ticks(samples: seq<Sample>): (ticks: seq<Tick>)
    requires ValidSamples(samples)
    ensures |ticks| == |samples|
    ensures forall k :: 0 <= k < |ticks| ==> ticks[k] == Tick(samples[k].draw, samples[k].pick, 0.0, StateAt(samples[k].surface))
  {
    if |samples| == 0 then []
    else
      var s := samples[0];
      [Tick(s.draw, s.pick, 0.0, StateAt(s.surface))] + Ticks(samples[1..])
  }

  /** After at least one iteration the current state is one of the seven simulated ones. */
  lemma VisitedStatesAreSimulated(ag: Agent, eps: real, lr: real, dr: real, samples: seq<Sample>)
    requires ValidSamples(samples) && |samples| > 0
    ensures exists k :: 0 <= k < |Surfaces| && Run(ag, AllActions(), eps, lr, dr, Ticks(samples)).state == StateAt(k)
  {
    var ticks := Ticks(samples);
    var n := |ticks| - 1;
    assert ticks[n].next == StateAt(samples[n].surface);
  }

  /**
   * `q_learning(problem, iterations, ...)` with `iterations == |samples|`,
   * starting from the simulated surface `first`.
   */
  method QLearning(store: QValueStore, first: nat, samples: seq<Sample>, lr: real, dr: real, eps: real)
    requires first < |Surfaces| && ValidSamples(samples)
    modifies store`storage, store`disk, store`saves
    ensures var ag := Agent(old(store.storage), StateAt(first));
            && store.storage == Run(ag, AllActions(), eps, lr, dr, Ticks(samples)).table
            && store.saves == SavedTables(old(store.saves), ag, AllActions(), eps, lr, dr, Ticks(samples), SaveIterations)
    ensures |store.saves| == |old(store.saves)| + (|samples| + SaveIterations - 1) / SaveIterations
    ensures |samples| > 0 ==> HoldsLast(store.disk, store.saves)
    ensures |samples| == 0 ==> store.disk == old(store.disk)
  {
    var ticks := Ticks(samples);
    var actions := AllActions();
    assert ValidTicks(ticks, actions);
    ghost var ag := Agent(store.storage, StateAt(first));
    ghost var saves0 := store.saves;
    Train(store, StateAt(first), ticks, actions, eps, lr, dr, SaveIterations);
    SavedCount(saves0, ag, actions, eps, lr, dr, ticks, SaveIterations);
  }
}
