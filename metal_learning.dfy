/**
 * test/qlearning-sim-metal.py: the state encoding and the `update` closure
 * that the learning thread calls forever. The state is the bucket of the
 * tracked object's x coordinate (15 buckets across the image) and whether
 * the object was found, written `X#<bucket>#:F#<True|False>#`; the two
 * actions are LEFT and RIGHT; the table is saved every 100 updates.
 */
module MetalLearning {
  import opened Text
  import opened QStore
  import opened Learning

  const MapResolution: int := 15
  const SaveIterations: nat := 100
  const Actions: seq<string> := ["LEFT", "RIGHT"]

  /** What `State.__init__` reads from the image processor. */
  datatype Observation = Observation(cX: int, cY: int, width: int, height: int, found: bool)

  /** `State.__init__` divides by both image dimensions. */
  predicate Observable(o: Observation)
  {
    o.width != 0 && o.height != 0
  }

  /** `mapped_x`: the x coordinate scaled to `map_resolution` buckets, truncated. */
  function MappedX(o: Observation): int
    requires o.width != 0
  {
    TruncDiv(o.cX * MapResolution, o.width)
  }

  /** `State.data` of a state built from an observation. */
  function StateData(o: Observation): seq<string>
    requires Observable(o)
  {
    ["X#" + IntToString(MappedX(o)) + "#", "F#" + BoolToString(o.found) + "#"]
  }

  /** `str(state)`: the data joined with ':'. */
  function StateString(o: Observation): string
    requires Observable(o)
  {
    Join(StateData(o), ':')
  }

  /** `State(fromString=s).data`. */
  function FromString(s: string): seq<string>
  {
    Split(s, ':')
  }

  /** An object inside the image falls in one of the 15 buckets. */
  lemma MappedXInBuckets(o: Observation)
    requires 0 <= o.cX < o.width
    ensures 0 <= MappedX(o) < MapResolution
  {
    var a := o.cX * MapResolution;
    var q := a / o.width;
    assert q * o.width <= a;
    assert a < MapResolution * o.width;
  }

  lemma IntToStringAvoids(i: int, c: char)
    requires !IsDigit(c) && c != '-'
    ensures c !in IntToString(i)
  {
    var digits := if i < 0 then NatToString(-i) else NatToString(i);
    assert forall j :: 0 <= j < |digits| ==> digits[j] != c;
  }

  /** The items of a state contain neither of the two separators. */
  lemma DataAvoidsSeparators(o: Observation, c: char)
    requires Observable(o) && (c == ':' || c == '.')
    ensures forall j :: 0 <= j < 2 ==> c !in StateData(o)[j]
  {
    IntToStringAvoids(MappedX(o), c);
  }

  /** Parsing a state's string gives its data back. */
  lemma FromStringRoundTrip(o: Observation)
    requires Observable(o)
    ensures FromString(StateString(o)) == StateData(o)
  {
    DataAvoidsSeparators(o, ':');
    SplitJoin(StateData(o), ':');
  }

  /** Printing a parsed state gives the string back, whatever the string. */
  lemma ToStringRoundTrip(s: string)
    ensures Join(FromString(s), ':') == s
  {
    JoinSplit(s, ':');
  }

  /** Two observations give the same state exactly when they agree on the bucket and on `found`. */
  lemma StateStringInjective(o1: Observation, o2: Observation)
    requires Observable(o1) && Observable(o2)
    ensures StateString(o1) == StateString(o2) <==> MappedX(o1) == MappedX(o2) && o1.found == o2.found
  {
    if StateString(o1) == StateString(o2) {
      FromStringRoundTrip(o1);
      FromStringRoundTrip(o2);
      var x1, x2 := StateData(o1)[0], StateData(o2)[0];
      assert x1[2..|x1| - 1] == IntToString(MappedX(o1));
      assert x2[2..|x2| - 1] == IntToString(MappedX(o2));
      IntToStringInjective(MappedX(o1), MappedX(o2));
      var f1, f2 := StateData(o1)[1], StateData(o2)[1];
      assert f1[2] == (if o1.found then 'T' else 'F');
      assert f2[2] == (if o2.found then 'T' else 'F');
    }
  }

  /**
   * A state string has no '.', so `my_hash` keys split back into state and
   * action, and storing a value for one state never changes another's.
   */
  lemma StateStringDotFree(o: Observation)
    requires Observable(o)
    ensures '.' !in StateString(o)
  {
    DataAvoidsSeparators(o, '.');
    JoinAvoids(StateData(o), ':', '.');
  }

  /**
   * After `history`, the counter, the table, the state and the save log are
   * what `Run` and `SavedTables` say, starting from `start` and `saves0`.
   */
  ghost predicate Tracks(start: Agent, saves0: seq<Table>, lr: real, dr: real, eps: real, history: seq<Tick>,
                         i: nat, table: Table, state: string, saves: seq<Table>)
  {
    && ValidTicks(history, Actions)
    && i == |history|
    && Agent(table, state) == Run(start, Actions, eps, lr, dr, history)
    && saves == SavedTables(saves0, start, Actions, eps, lr, dr, history, SaveIterations)
  }

  /** One more tick: one more `Step`, and one more save exactly when the counter is a multiple of 100. */
  lemma TracksStep(start: Agent, saves0: seq<Table>, lr: real, dr: real, eps: real, history: seq<Tick>,
                   i: nat, table: Table, state: string, saves: seq<Table>, tick: Tick,
                   table': Table, state': string, saves': seq<Table>)
    requires Tracks(start, saves0, lr, dr, eps, history, i, table, state, saves) && tick.pick < |Actions|
    requires Agent(table', state') == Step(Agent(table, state), Actions, eps, lr, dr, tick)
    requires saves' == if i % SaveIterations == 0 then saves + [table'] else saves
    ensures Tracks(start, saves0, lr, dr, eps, history + [tick], i + 1, table', state', saves')
    ensures |saves'| == |saves0| + (i + SaveIterations) / SaveIterations
  {
    var ticks := history + [tick];
    assert ticks[..i] == history && ticks[..i + 1] == ticks;
    RunPrefixStep(start, Actions, eps, lr, dr, ticks, i);
    SavedPrefixStep(saves0, start, Actions, eps, lr, dr, ticks, i, SaveIterations);
    SavedCount(saves0, start, Actions, eps, lr, dr, ticks, SaveIterations);
  }

  /**
   * The body of `update` on the store and the closure's variables: one
   * `TrainTick` with a save every 100 calls, keeping `Tracks`.
   */
  method Advance(store: QValueStore, ghost start: Agent, ghost saves0: seq<Table>, lr: real, dr: real, eps: real,
                 ghost history: seq<Tick>, i: nat, totalChange: real, numChanges: nat, state: string, tick: Tick)
    returns (state': string, total: real, count: nat)
    requires Tracks(start, saves0, lr, dr, eps, history, i, store.storage, state, store.saves) && tick.pick < |Actions|
    modifies store`storage, store`disk, store`saves
    ensures Tracks(start, saves0, lr, dr, eps, history + [tick], i + 1, store.storage, state', store.saves)
    ensures Agent(store.storage, state') == Step(Agent(old(store.storage), state), Actions, eps, lr, dr, tick)
    ensures |store.saves| == |saves0| + (i + SaveIterations) / SaveIterations
    ensures i % SaveIterations == 0 ==> HoldsLast(store.disk, store.saves) && count == 0 && total == 0.0
    ensures i % SaveIterations != 0 ==> store.disk == old(store.disk) && count == numChanges + 1
  {
    ghost var table, saves := store.storage, store.saves;
    state', total, count := TrainTick(store, state, tick, Actions, eps, lr, dr, i, SaveIterations, totalChange, numChanges);
    TracksStep(start, saves0, lr, dr, eps, history, i, table, state, saves, tick, store.storage, state', store.saves);
  }

  /**
   * The `q_learning` closure: its nonlocal counters, the current state and the
   * store it updates. `history` records the ticks seen so far.
   */
  class Learner {
    const store: QValueStore
    const lr: real
    const dr: real
    const eps: real
    var i: nat
    var totalChange: real
    var numChanges: nat
    var state: string
    ghost const start: Agent
    ghost const saves0: seq<Table>
    ghost var history: seq<Tick>

    /** The table and the state are those of `Run`, the save log that of `SavedTables`. */
    ghost predicate Valid()
      reads this, store
    {
      Tracks(start, saves0, lr, dr, eps, history, i, store.storage, state, store.saves)
    }

    /** `q_learning(problem, ...)`: the counters at 0 and the current state. */
    constructor (store: QValueStore, first: Observation, lr: real, dr: real, eps: real)
      requires Observable(first)
      ensures Valid() && history == []
      ensures this.store == store && this.lr == lr && this.dr == dr && this.eps == eps
      ensures i == 0 && totalChange == 0.0 && numChanges == 0 && state == StateString(first)
    {
      this.store := store;
      this.lr, this.dr, this.eps := lr, dr, eps;
      i, totalChange, numChanges := 0, 0.0, 0;
      state := StateString(first);
      start := Agent(store.storage, StateString(first));
      saves0 := store.saves;
      history := [];
    }

    /**
     * One call of `update`: learn from the reward and the observation after
     * the action, save when `i` is a multiple of 100, then count the call.
     */
    method Update(draw: real, pick: nat, reward: real, next: Observation)
      requires Valid() && pick < |Actions| && Observable(next)
      modifies this`i, this`totalChange, this`numChanges, this`state, this`history
      modifies store`storage, store`disk, store`saves
      ensures Valid() && history == old(history) + [Tick(draw, pick, reward, StateString(next))]
      ensures Agent(store.storage, state)
              == Step(Agent(old(store.storage), old(state)), Actions, eps, lr, dr, Tick(draw, pick, reward, StateString(next)))
      ensures i == old(i) + 1
      ensures |store.saves| == |saves0| + (i + SaveIterations - 1) / SaveIterations
      ensures old(i) % SaveIterations == 0 ==> HoldsLast(store.disk, store.saves) && numChanges == 0 && totalChange == 0.0
      ensures old(i) % SaveIterations != 0 ==> store.disk == old(store.disk) && numChanges == old(numChanges) + 1
    {
      var tick := Tick(draw, pick, reward, StateString(next));
      history := history + [tick];
      state, totalChange, numChanges := Advance(store, start, saves0, lr, dr, eps, old(history), i, totalChange, numChanges, state, tick);
      i := i + 1;
    }
  }
}
