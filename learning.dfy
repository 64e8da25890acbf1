/**
 * The tabular Q-learning step. Its body is the same in the `update` closure
 * of test/qlearning-sim-metal.py and in the `for` loops of qlearning.py and
 * archive/qlearning_whereami.py: choose an action (explore with probability
 * `explorationRandomness`, otherwise exploit unless the best action is
 * unvisited), blend the old value with `reward + discountRate * maxQ`, store
 * it, and move to the new state.
 *
 * The uniform draw, the index `random.choice` picks, the reward and the new
 * state string come from outside and are the fields of a `Tick`.
 */
module Learning {
  import opened Wrappers
  import opened QStore

  /** What one tick takes from outside. */
  datatype Tick = Tick(draw: real, pick: nat, reward: real, next: string)

  /** The learner between ticks: the table and the current state string. */
  datatype Agent = Agent(table: Table, state: string)

  /** Every tick's `random.choice` index is an index of the action list. */
  predicate ValidTicks(ticks: seq<Tick>, actions: seq<string>)
  {
    forall i :: 0 <= i < |ticks| ==> ticks[i].pick < |actions|
  }

  /** `maxQ`: the value of the best action in `state`. */
  function MaxQ(t: Table, state: string, actions: seq<string>): real
    requires |actions| > 0
  {
    Q(t, state, BestAction(t, state, actions))
  }

  /** `maxQ` is the largest value any action has in `state`, and some action has it. */
  lemma MaxQIsMaximum(t: Table, state: string, actions: seq<string>)
    requires |actions| > 0
    ensures exists a :: a in actions && MaxQ(t, state, actions) == Q(t, state, a)
    ensures forall a :: a in actions ==> Q(t, state, a) <= MaxQ(t, state, actions)
  {
    var best := BestAction(t, state, actions);
    assert best in actions && MaxQ(t, state, actions) == Q(t, state, best);
  }

  /**
   * The action of one tick. A draw below `eps` explores with the random
   * pick; otherwise the best action is taken, unless its value is the
   * sentinel, in which case the random pick is taken as well.
   */
  function Choose(t: Table, state: string, actions: seq<string>, eps: real, draw: real, pick: nat): (a: string)
    requires pick < |actions|
    ensures a in actions
  {
    if draw < eps then actions[pick]
    else
      var best := BestAction(t, state, actions);
      if Q(t, state, best) == Default then actions[pick] else best
  }

  /**
   * Exploring takes the random pick; exploiting takes a greedy action once
   * the state has a value other than the sentinel, and the random pick
   * while the best value is still the sentinel.
   */
  lemma ChooseExploresOrExploits(t: Table, state: string, actions: seq<string>, eps: real, draw: real, pick: nat)
    requires pick < |actions|
    ensures draw < eps ==> Choose(t, state, actions, eps, draw, pick) == actions[pick]
    ensures draw >= eps && MaxQ(t, state, actions) != Default ==>
              forall b :: b in actions ==> Q(t, state, b) <= Q(t, state, Choose(t, state, actions, eps, draw, pick))
    ensures draw >= eps && MaxQ(t, state, actions) == Default ==> Choose(t, state, actions, eps, draw, pick) == actions[pick]
  {
    MaxQIsMaximum(t, state, actions);
  }

  /** The learning rule `(1 - lr) * q + lr * target`. */
  function Blend(q: real, lr: real, target: real): real
  {
    (1.0 - lr) * q + lr * target
  }

  /**
   * The update moves the old value by `lr` times its distance to the target;
   * with `lr` in [0, 1] the new value lies between the old value and the target.
   */
  lemma BlendBetween(q: real, lr: real, target: real)
    ensures Blend(q, lr, target) - q == lr * (target - q)
    ensures 0.0 <= lr <= 1.0 ==> q <= Blend(q, lr, target) <= target || target <= Blend(q, lr, target) <= q
  {
    var v := Blend(q, lr, target);
    assert v - q == lr * (target - q);
    if 0.0 <= lr <= 1.0 {
      if q <= target {
        ScaleWithin(lr, target - q);
      } else {
        ScaleWithin(lr, q - target);
        assert lr * (target - q) == -(lr * (q - target));
      }
    }
  }

  /** A factor in [0, 1] shrinks a non-negative quantity towards 0. */
  lemma ScaleWithin(f: real, d: real)
    requires 0.0 <= f <= 1.0 && 0.0 <= d
    ensures 0.0 <= f * d <= d
  {
    assert d - f * d == (1.0 - f) * d;
  }

  function Abs(x: real): real
  {
    if x < 0.0 then -x else x
  }

  /** The target the chosen value moves towards: the reward plus the discounted best value of the new state. */
  function Target(t: Table, actions: seq<string>, dr: real, tick: Tick): real
    requires |actions| > 0
  {
    tick.reward + dr * MaxQ(t, tick.next, actions)
  }

  /** The action the learner takes in one tick. */
  function Chosen(ag: Agent, actions: seq<string>, eps: real, tick: Tick): string
    requires tick.pick < |actions|
  {
    Choose(ag.table, ag.state, actions, eps, tick.draw, tick.pick)
  }

  /** One tick on values: store the blended value of the chosen pair and move to the new state. */
  function Step(ag: Agent, actions: seq<string>, eps: real, lr: real, dr: real, tick: Tick): Agent
    requires tick.pick < |actions|
  {
    var a := Chosen(ag, actions, eps, tick);
    Agent(ag.table[Key(ag.state, a) := Blend(Q(ag.table, ag.state, a), lr, Target(ag.table, actions, dr, tick))], tick.next)
  }

  /**
   * One tick: the chosen pair of the current state reads back the blended
   * value (with `maxQ` read before the store), every other pair of a
   * dot-free state reads what it read before, no key is lost, and the new
   * state becomes current.
   */
  lemma StepUpdatesChosenPair(ag: Agent, actions: seq<string>, eps: real, lr: real, dr: real, tick: Tick, s: string, b: string)
    requires tick.pick < |actions|
    requires '.' !in ag.state && '.' !in s
    ensures var ag' := Step(ag, actions, eps, lr, dr, tick);
            var a := Chosen(ag, actions, eps, tick);
            && ag'.state == tick.next
            && ag.table.Keys <= ag'.table.Keys
            && Q(ag'.table, ag.state, a) == Blend(Q(ag.table, ag.state, a), lr, Target(ag.table, actions, dr, tick))
            && ((s, b) != (ag.state, a) ==> Q(ag'.table, s, b) == Q(ag.table, s, b))
  {
    var a := Chosen(ag, actions, eps, tick);
    GetAfterStore(ag.table, ag.state, a, Blend(Q(ag.table, ag.state, a), lr, Target(ag.table, actions, dr, tick)), s, b);
  }

  /** The agent after the ticks, one `Step` each, in order. */
  function Run(ag: Agent, actions: seq<string>, eps: real, lr: real, dr: real, ticks: seq<Tick>): Agent
    requires |actions| > 0 && ValidTicks(ticks, actions)
    decreases |ticks|
  {
    if |ticks| == 0 then ag
    else
      var n := |ticks| - 1;
      Step(Run(ag, actions, eps, lr, dr, ticks[..n]), actions, eps, lr, dr, ticks[n])
  }

  /**
   * The log of saved tables after the ticks, starting from the log `prev`:
   * one save after every tick whose 0-based index is a multiple of `every`.
   */
  function SavedTables(prev: seq<Table>, ag: Agent, actions: seq<string>, eps: real, lr: real, dr: real,
                       ticks: seq<Tick>, every: nat): seq<Table>
    requires |actions| > 0 && ValidTicks(ticks, actions) && every > 0
    decreases |ticks|
  {
    if |ticks| == 0 then prev
    else
      var n := |ticks| - 1;
      var before := SavedTables(prev, ag, actions, eps, lr, dr, ticks[..n], every);
      if n % every == 0 then before + [Run(ag, actions, eps, lr, dr, ticks).table] else before
  }

  /** Extending the ticks by one applies one more `Step`. */
  lemma RunPrefixStep(ag: Agent, actions: seq<string>, eps: real, lr: real, dr: real, ticks: seq<Tick>, i: nat)
    requires |actions| > 0 && ValidTicks(ticks, actions) && i < |ticks|
    ensures Run(ag, actions, eps, lr, dr, ticks[..i + 1])
            == Step(Run(ag, actions, eps, lr, dr, ticks[..i]), actions, eps, lr, dr, ticks[i])
  {
    assert ticks[..i + 1][..i] == ticks[..i];
  }

  /** Extending the ticks by one adds a save exactly when the new tick's index is a multiple of `every`. */
  lemma SavedPrefixStep(prev: seq<Table>, ag: Agent, actions: seq<string>, eps: real, lr: real, dr: real,
                        ticks: seq<Tick>, i: nat, every: nat)
    requires |actions| > 0 && ValidTicks(ticks, actions) && i < |ticks| && every > 0
    ensures var before := SavedTables(prev, ag, actions, eps, lr, dr, ticks[..i], every);
            SavedTables(prev, ag, actions, eps, lr, dr, ticks[..i + 1], every)
            == if i % every == 0 then before + [Run(ag, actions, eps, lr, dr, ticks[..i + 1]).table] else before
  {
    assert ticks[..i + 1][..i] == ticks[..i];
  }

  /** The number of saves in `n` ticks is the number of multiples of `every` below `n`, the first tick included. */
  lemma {:induction false} SavedCount(prev: seq<Table>, ag: Agent, actions: seq<string>, eps: real, lr: real, dr: real,
                                      ticks: seq<Tick>, every: nat)
    requires |actions| > 0 && ValidTicks(ticks, actions) && every > 0
    ensures |SavedTables(prev, ag, actions, eps, lr, dr, ticks, every)| == |prev| + (|ticks| + every - 1) / every
    decreases |ticks|
  {
    if |ticks| > 0 {
      var n := |ticks| - 1;
      SavedCount(prev, ag, actions, eps, lr, dr, ticks[..n], every);
      var before := SavedTables(prev, ag, actions, eps, lr, dr, ticks[..n], every);
      assert |SavedTables(prev, ag, actions, eps, lr, dr, ticks, every)| == |before| + if n % every == 0 then 1 else 0;
      DivStep(n, every);
    }
  }

  /** Counting multiples: one more tick adds a save exactly when its index is a multiple. */
  lemma DivStep(n: nat, every: nat)
    requires every > 0
    ensures (n + 1 + every - 1) / every == (n + every - 1) / every + (if n % every == 0 then 1 else 0)
  {
    var q, r := n / every, n % every;
    if r == 0 {
      DivUnique(n + every - 1, every, q, every - 1);
      DivUnique(n + every, every, q + 1, 0);
    } else {
      DivUnique(n + every - 1, every, q + 1, r - 1);
      DivUnique(n + every, every, q + 1, r);
    }
  }

  /** Quotients are unique: `x == a * b + c` with `0 <= c < b` has quotient `a`. */
  lemma DivUnique(x: int, b: int, a: int, c: int)
    requires 0 <= c < b && x == a * b + c
    ensures x / b == a
  {
    var a', c' := x / b, x % b;
    var d := a - a';
    assert d * b == c' - c;
    MulSign(d, b);
  }

  lemma MulSign(d: int, b: int)
    requires b > 0
    ensures d >= 1 ==> d * b >= b
    ensures d <= -1 ==> d * b <= -b
  {
    if d >= 1 {
      assert d * b == (d - 1) * b + b;
      assert (d - 1) * b >= 0;
    } else if d <= -1 {
      assert d * b == (d + 1) * b - b;
      assert (-d - 1) * b >= 0;
    }
  }

  /** The table never loses a key. */
  lemma {:induction false} RunKeysGrow(ag: Agent, actions: seq<string>, eps: real, lr: real, dr: real, ticks: seq<Tick>)
    requires |actions| > 0 && ValidTicks(ticks, actions)
    ensures ag.table.Keys <= Run(ag, actions, eps, lr, dr, ticks).table.Keys
    decreases |ticks|
  {
    if |ticks| > 0 {
      RunKeysGrow(ag, actions, eps, lr, dr, ticks[..|ticks| - 1]);
    }
  }

  /** After at least one tick the current state is the last tick's new state. */
  lemma RunEndsInLastState(ag: Agent, actions: seq<string>, eps: real, lr: real, dr: real, ticks: seq<Tick>)
    requires |actions| > 0 && ValidTicks(ticks, actions) && |ticks| > 0
    ensures Run(ag, actions, eps, lr, dr, ticks).state == ticks[|ticks| - 1].next
  {
  }

  /** Every stored value lies between the sentinel -1 and 0. */
  ghost predicate InUnitBelow(t: Table)
  {
    forall k :: k in t ==> -1.0 <= t[k] <= 0.0
  }

  /** No tick earns a reward. */
  predicate NoRewards(ticks: seq<Tick>)
  {
    forall i :: 0 <= i < |ticks| ==> ticks[i].reward == 0.0
  }

  /** A table with every value in [-1, 0] reads a value in [-1, 0] for any pair, the sentinel included. */
  lemma ReadInUnitBelow(t: Table, s: string, a: string)
    requires InUnitBelow(t)
    ensures -1.0 <= Q(t, s, a) <= 0.0
  {
    if Key(s, a) in t {
      assert Q(t, s, a) == t[Key(s, a)];
    }
  }

  /** Storing a value in [-1, 0] keeps every value in [-1, 0]. */
  lemma StoreInUnitBelow(t: Table, k: string, v: real)
    requires InUnitBelow(t) && -1.0 <= v <= 0.0
    ensures InUnitBelow(t[k := v])
  {
  }

  /** Blending a value in [-1, 0] towards a discounted value in [-1, 0] stays in [-1, 0]. */
  lemma BlendInUnitBelow(q: real, m: real, lr: real, dr: real)
    requires -1.0 <= q <= 0.0 && -1.0 <= m <= 0.0
    requires 0.0 <= lr <= 1.0 && 0.0 <= dr <= 1.0
    ensures -1.0 <= Blend(q, lr, dr * m) <= 0.0
  {
    ScaleWithin(dr, -m);
    assert dr * m == -(dr * -m);
    BlendBetween(q, lr, dr * m);
  }

  /** With no reward and rates in [0, 1], one tick keeps every value in [-1, 0]. */
  lemma StepStaysInUnitBelow(ag: Agent, actions: seq<string>, eps: real, lr: real, dr: real, tick: Tick)
    requires tick.pick < |actions| && tick.reward == 0.0
    requires 0.0 <= lr <= 1.0 && 0.0 <= dr <= 1.0
    requires InUnitBelow(ag.table)
    ensures InUnitBelow(Step(ag, actions, eps, lr, dr, tick).table)
  {
    var a := Chosen(ag, actions, eps, tick);
    var m := MaxQ(ag.table, tick.next, actions);
    ReadInUnitBelow(ag.table, tick.next, BestAction(ag.table, tick.next, actions));
    var q := Q(ag.table, ag.state, a);
    ReadInUnitBelow(ag.table, ag.state, a);
    assert Target(ag.table, actions, dr, tick) == dr * m;
    BlendInUnitBelow(q, m, lr, dr);
    StoreInUnitBelow(ag.table, Key(ag.state, a), Blend(q, lr, dr * m));
  }

  /**
   * The learner of qlearning.py as configured there (reward always 0,
   * discount 0, learning rate 0.1): starting from values in [-1, 0], every
   * learned value stays in [-1, 0], so the table never rates an action
   * above "no reward".
   */
  lemma {:induction false} RunStaysInUnitBelow(ag: Agent, actions: seq<string>, eps: real, lr: real, dr: real, ticks: seq<Tick>)
    requires |actions| > 0 && ValidTicks(ticks, actions) && NoRewards(ticks)
    requires 0.0 <= lr <= 1.0 && 0.0 <= dr <= 1.0
    requires InUnitBelow(ag.table)
    ensures InUnitBelow(Run(ag, actions, eps, lr, dr, ticks).table)
    decreases |ticks|
  {
    if |ticks| > 0 {
      var n := |ticks| - 1;
      RunStaysInUnitBelow(ag, actions, eps, lr, dr, ticks[..n]);
      StepStaysInUnitBelow(Run(ag, actions, eps, lr, dr, ticks[..n]), actions, eps, lr, dr, ticks[n]);
    }
  }

  /** With no reward and no discount an update only scales the old value: `(1 - lr) * q`. */
  lemma MyopicUpdateScales(t: Table, actions: seq<string>, lr: real, tick: Tick, q: real)
    requires |actions| > 0 && tick.reward == 0.0
    ensures Blend(q, lr, Target(t, actions, 0.0, tick)) == (1.0 - lr) * q
  {
  }

  /**
   * The learning part of one tick, on the store: choose, read, store the
   * blended value. Returns the new state and `abs(q - old_q)`.
   */
  method Learn(store: QValueStore, state: string, actions: seq<string>, eps: real, lr: real, dr: real, tick: Tick)
    returns (newState: string, change: real)
    requires tick.pick < |actions|
    modifies store`storage
    ensures Agent(store.storage, newState) == Step(Agent(old(store.storage), state), actions, eps, lr, dr, tick)
    ensures var a := Choose(old(store.storage), state, actions, eps, tick.draw, tick.pick);
            change == Abs(Q(store.storage, state, a) - Q(old(store.storage), state, a))
  {
    var t := store.storage;
    var action: string;
    if tick.draw < eps {
      action := actions[tick.pick];
    } else {
      var best := BestAction(t, state, actions);
      if Q(t, state, best) == Default {
        action := actions[tick.pick];
      } else {
        action := best;
      }
    }
    var q := Q(t, state, action);
    var reward, next := tick.reward, tick.next;
    var maxQ := Q(t, next, BestAction(t, next, actions));
    var target := reward + dr * maxQ;
    var oldQ := q;
    q := Blend(q, lr, target);
    assert action == Chosen(Agent(t, state), actions, eps, tick);
    assert target == Target(t, actions, dr, tick);
    store.StoreQValue(state, action, q);
    newState := next;
    change := if q < oldQ then oldQ - q else q - oldQ;
  }

  /** The file holds the last table saved. */
  ghost predicate HoldsLast(disk: Option<Table>, saves: seq<Table>)
  {
    |saves| > 0 && disk == Some(saves[|saves| - 1])
  }

  /**
   * One pass of the loop body of qlearning.py and archive/qlearning_whereami.py
   * for tick index `i`: learn, add the change to the metrics, and when `i`
   * is a multiple of `every` save the table and reset the metrics.
   */
  method TrainTick(store: QValueStore, state: string, tick: Tick, actions: seq<string>, eps: real, lr: real, dr: real,
                   i: nat, every: nat, totalChange: real, numChanges: nat)
    returns (newState: string, total: real, count: nat)
    requires tick.pick < |actions| && every > 0
    modifies store`storage, store`disk, store`saves
    ensures Agent(store.storage, newState) == Step(Agent(old(store.storage), state), actions, eps, lr, dr, tick)
    ensures store.saves == if i % every == 0 then old(store.saves) + [store.storage] else old(store.saves)
    ensures store.disk == if i % every == 0 then Some(store.storage) else old(store.disk)
    ensures i % every == 0 ==> HoldsLast(store.disk, store.saves)
    ensures count == if i % every == 0 then 0 else numChanges + 1
    ensures i % every == 0 ==> total == 0.0
  {
    var change;
    newState, change := Learn(store, state, actions, eps, lr, dr, tick);
    total, count := totalChange + change, numChanges + 1;
    if i % every == 0 {
      store.Save();
      var averageChange := total / (count as real);
      total, count := 0.0, 0;
    }
  }

  /**
   * The `for i in range(iterations)` loop of qlearning.py and
   * archive/qlearning_whereami.py: one `TrainTick` per tick.
   */
  method Train(store: QValueStore, state0: string, ticks: seq<Tick>, actions: seq<string>,
               eps: real, lr: real, dr: real, every: nat)
    requires |actions| > 0 && ValidTicks(ticks, actions) && every > 0
    modifies store`storage, store`disk, store`saves
    ensures var ag := Run(Agent(old(store.storage), state0), actions, eps, lr, dr, ticks);
            store.storage == ag.table
    ensures store.saves == SavedTables(old(store.saves), Agent(old(store.storage), state0), actions, eps, lr, dr, ticks, every)
    ensures |ticks| > 0 ==> HoldsLast(store.disk, store.saves)
    ensures |ticks| == 0 ==> store.disk == old(store.disk)
  {
    if |ticks| == 0 {
      return;
    }
    ghost var ag0 := Agent(store.storage, state0);
    var state := state0;
    var totalChange: real, numChanges: nat := 0.0, 0;
    for i := 0 to |ticks|
      invariant Agent(store.storage, state) == Run(ag0, actions, eps, lr, dr, ticks[..i])
      invariant store.saves == SavedTables(old(store.saves), ag0, actions, eps, lr, dr, ticks[..i], every)
      invariant i > 0 ==> HoldsLast(store.disk, store.saves)
    {
      RunPrefixStep(ag0, actions, eps, lr, dr, ticks, i);
      SavedPrefixStep(old(store.saves), ag0, actions, eps, lr, dr, ticks, i, every);
      state, totalChange, numChanges := TrainTick(store, state, ticks[i], actions, eps, lr, dr, i, every, totalChange, numChanges);
    }
    assert ticks[..|ticks|] == ticks;
  }
}
