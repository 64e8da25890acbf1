/**
 * The Q-value table `QValueStore`. Its `__init__`, `get_q_value`,
 * `get_best_action`, `store_q_value`, `save` and `load` are the same in
 * test/qlearning-sim-metal.py, qlearning.py and archive/qlearning_whereami.py;
 * `print_best_action_per_state` exists only in test/qlearning-sim-metal.py.
 *
 * A table maps the composite key "<state>.<action>" (`my_hash`) to a value.
 * Reading a key that was never stored yields the sentinel -1.0. The pickle
 * file is modelled by the abstract snapshot `disk` (None: no file yet).
 */
module QStore {
  import opened Wrappers
  import Text

  type Table = map<string, real>

  /** The value `get_q_value` reads for a pair that was never stored. */
  const Default: real := -1.0

  /** `my_hash(state, action)`: the two strings joined by a dot. */
  function Key(state: string, action: string): string
  {
    state + "." + action
  }

  /** `get_q_value`: the stored value, or exactly the sentinel for a missing key. */
  function Q(t: Table, state: string, action: string): (q: real)
    ensures Key(state, action) in t ==> q == t[Key(state, action)]
    ensures Key(state, action) !in t ==> q == Default
  {
    var k := Key(state, action);
    if k in t then t[k] else Default
  }

  /**
   * The index `max(possibleActions, key=...)` stops at: CPython's `max` only
   * replaces its candidate on a strictly greater key, so the first maximal
   * action in list order wins.
   */
  function BestIndex(t: Table, state: string, actions: seq<string>): (k: nat)
    requires |actions| > 0
    ensures k < |actions|
    ensures forall j :: 0 <= j < |actions| ==> Q(t, state, actions[j]) <= Q(t, state, actions[k])
    ensures forall j :: 0 <= j < k ==> Q(t, state, actions[j]) < Q(t, state, actions[k])
    decreases |actions|
  {
    if |actions| == 1 then 0
    else
      var k := BestIndex(t, state, actions[..|actions| - 1]);
      if Q(t, state, actions[|actions| - 1]) > Q(t, state, actions[k]) then |actions| - 1 else k
  }

  /** `get_best_action`. */
  function BestAction(t: Table, state: string, actions: seq<string>): (a: string)
    requires |actions| > 0
    ensures a in actions
    ensures forall b :: b in actions ==> Q(t, state, b) <= Q(t, state, a)
  {
    actions[BestIndex(t, state, actions)]
  }

  /**
   * The best action is determined by the table and the order of the list:
   * the first maximal index is the only index with both properties.
   */
  lemma BestIndexUnique(t: Table, state: string, actions: seq<string>, k: nat)
    requires k < |actions|
    requires forall j :: 0 <= j < |actions| ==> Q(t, state, actions[j]) <= Q(t, state, actions[k])
    requires forall j :: 0 <= j < k ==> Q(t, state, actions[j]) < Q(t, state, actions[k])
    ensures k == BestIndex(t, state, actions)
  {
    var b := BestIndex(t, state, actions);
    assert Q(t, state, actions[k]) == Q(t, state, actions[b]);
  }

  /** A key splits back into its state and action when neither state contains a dot. */
  lemma KeyInjective(s1: string, a1: string, s2: string, a2: string)
    requires '.' !in s1 && '.' !in s2
    requires Key(s1, a1) == Key(s2, a2)
    ensures s1 == s2 && a1 == a2
  {
    var k := Key(s1, a1);
    Text.SplitAtSeparator(s1, '.', a1);
    Text.SplitAtSeparator(s2, '.', a2);
    assert s1 == Text.Split(k, '.')[0] == s2;
    assert a1 == k[|s1| + 1..] == a2;
  }

  /**
   * `store_q_value` followed by `get_q_value`: the pair just stored reads back
   * its value and every other pair reads what it read before, provided states
   * carry no dot (which makes `my_hash` injective).
   */
  lemma GetAfterStore(t: Table, s: string, a: string, v: real, s': string, a': string)
    requires '.' !in s && '.' !in s'
    ensures Q(t[Key(s, a) := v], s, a) == v
    ensures (s', a') != (s, a) ==> Q(t[Key(s, a) := v], s', a') == Q(t, s', a')
  {
    if (s', a') != (s, a) && Key(s', a') == Key(s, a) {
      KeyInjective(s', a', s, a);
    }
  }

  /** The state and action parts of a stored key, as `key.split('.')` gives them. */
  function Parts(key: string): seq<string>
  {
    Text.Split(key, '.')
  }

  function StateOf(key: string): string
  {
    Parts(key)[0]
  }

  function StatesOf(keys: seq<string>): set<string>
  {
    set i | 0 <= i < |keys| :: StateOf(keys[i])
  }

  /** Splitting a key made from dot-free parts gives exactly those two parts. */
  lemma PartsOfKey(state: string, action: string)
    requires '.' !in state && '.' !in action
    ensures Parts(Key(state, action)) == [state, action]
  {
    Text.SplitAtSeparator(state, '.', action);
    Text.SplitWithoutSeparator(action, '.');
  }

  function StatesUpTo(keys: seq<string>, n: nat): set<string>
  {
    set i | 0 <= i < n && i < |keys| :: StateOf(keys[i])
  }

  lemma StatesUpToStep(keys: seq<string>, n: nat)
    requires n < |keys|
    ensures StatesUpTo(keys, n + 1) == StatesUpTo(keys, n) + {StateOf(keys[n])}
  {
  }

  /**
   * Pair `e` = (action, value) is what `print_best_action_per_state` keeps for
   * state `s` after visiting `keys[..n]`: it comes from key number `w`, no
   * earlier key of `s` had a value as large, and no key of `s` a larger one.
   */
  ghost predicate FirstBestAt(t: Table, keys: seq<string>, n: nat, s: string, e: (string, real), w: nat)
  {
    && w < n <= |keys|
    && Parts(keys[w]) == [s, e.0]
    && keys[w] in t && t[keys[w]] == e.1
    && (forall j :: 0 <= j < n && StateOf(keys[j]) == s && keys[j] in t ==> t[keys[j]] <= e.1)
    && (forall j :: 0 <= j < w && StateOf(keys[j]) == s && keys[j] in t ==> t[keys[j]] < e.1)
  }

  /** Visiting key `n` keeps the winner of a state: of another state, or of this state with no larger value. */
  lemma FirstBestKeep(t: Table, keys: seq<string>, n: nat, s: string, e: (string, real), w: nat)
    requires n < |keys|
    requires forall i :: 0 <= i < |keys| ==> keys[i] in t
    requires FirstBestAt(t, keys, n, s, e, w)
    requires StateOf(keys[n]) == s ==> t[keys[n]] <= e.1
    ensures FirstBestAt(t, keys, n + 1, s, e, w)
  {
  }

  /** Visiting key `n` of state `s` whose value beats every earlier key of `s` makes it the winner. */
  lemma FirstBestReplace(t: Table, keys: seq<string>, n: nat, s: string, a: string)
    requires n < |keys|
    requires forall i :: 0 <= i < |keys| ==> keys[i] in t
    requires Parts(keys[n]) == [s, a]
    requires forall j :: 0 <= j < n && StateOf(keys[j]) == s ==> t[keys[j]] < t[keys[n]]
    ensures FirstBestAt(t, keys, n + 1, s, (a, t[keys[n]]), n)
  {
  }

  /** Outcome of `print_best_action_per_state`: the per-state winners, or the key whose unpacking raises. */
  datatype BestPerState = Winners(best: map<string, (string, real)>) | Malformed(key: string)

  /** One visited key of state `s`: a state not seen yet, or a strictly larger value, takes the slot. */
  function Visit(best: map<string, (string, real)>, s: string, a: string, q: real): map<string, (string, real)>
  {
    if s !in best || q > best[s].1 then best[s := (a, q)] else best
  }

  /**
   * The loop of `print_best_action_per_state` after the keys `keys[..n]`:
   * the first key that does not unpack into two parts stops it.
   */
  function Scan(t: Table, keys: seq<string>, n: nat): BestPerState
    requires n <= |keys|
    requires forall i :: 0 <= i < |keys| ==> keys[i] in t
  {
    if n == 0 then Winners(map[])
    else
      var prev := Scan(t, keys, n - 1);
      var parts := Parts(keys[n - 1]);
      if prev.Malformed? then prev
      else if |parts| != 2 then Malformed(keys[n - 1])
      else Winners(Visit(prev.best, parts[0], parts[1], t[keys[n - 1]]))
  }

  /** Key `i` is the first of `keys` that does not split into exactly two parts. */
  ghost predicate FirstMalformedAt(keys: seq<string>, i: nat)
  {
    && i < |keys|
    && |Parts(keys[i])| != 2
    && forall j :: 0 <= j < i ==> |Parts(keys[j])| == 2
  }

  /** Once a key fails to unpack, the later keys are never visited. */
  lemma {:induction false} ScanStopped(t: Table, keys: seq<string>, n: nat)
    requires n <= |keys|
    requires forall i :: 0 <= i < |keys| ==> keys[i] in t
    requires Scan(t, keys, n).Malformed?
    ensures Scan(t, keys, |keys|) == Scan(t, keys, n)
    decreases |keys| - n
  {
    if n < |keys| {
      ScanStopped(t, keys, n + 1);
    }
  }

  /** The scan raises exactly when some key does not split in two, and then on the first such key. */
  lemma {:induction false} ScanMalformed(t: Table, keys: seq<string>, n: nat)
    requires n <= |keys|
    requires forall i :: 0 <= i < |keys| ==> keys[i] in t
    ensures Scan(t, keys, n).Winners? <==> forall j :: 0 <= j < n ==> |Parts(keys[j])| == 2
    ensures Scan(t, keys, n).Malformed? ==>
              exists i: nat :: i < n && FirstMalformedAt(keys, i) && keys[i] == Scan(t, keys, n).key
  {
    if n > 0 {
      ScanMalformed(t, keys, n - 1);
      var prev := Scan(t, keys, n - 1);
      if prev.Malformed? {
        var i: nat :| i < n - 1 && FirstMalformedAt(keys, i) && keys[i] == prev.key;
        assert i < n && FirstMalformedAt(keys, i);
      } else if |Parts(keys[n - 1])| != 2 {
        assert FirstMalformedAt(keys, n - 1);
      }
    }
  }

  /** `best` holds, for each state among `keys[..n]`, its first action with the largest value. */
  ghost predicate BestUpTo(t: Table, keys: seq<string>, n: nat, best: map<string, (string, real)>)
  {
    && best.Keys == StatesUpTo(keys, n)
    && forall s :: s in best ==> exists w :: FirstBestAt(t, keys, n, s, best[s], w)
  }

  /** Visiting key `n`, of state `s` and action `a`, keeps BestUpTo. */
  lemma VisitKeepsBest(t: Table, keys: seq<string>, n: nat, best: map<string, (string, real)>, s: string, a: string)
    requires n < |keys|
    requires forall i :: 0 <= i < |keys| ==> keys[i] in t
    requires Parts(keys[n]) == [s, a]
    requires BestUpTo(t, keys, n, best)
    ensures BestUpTo(t, keys, n + 1, Visit(best, s, a, t[keys[n]]))
  {
    StatesUpToStep(keys, n);
    var q := t[keys[n]];
    var best', next := Visit(best, s, a, q), n + 1;
    forall s' | s' in best'
      ensures exists w :: FirstBestAt(t, keys, next, s', best'[s'], w)
    {
      if s' != s || (s in best && q <= best[s].1) {
        var w :| FirstBestAt(t, keys, n, s', best[s'], w);
        FirstBestKeep(t, keys, n, s', best[s'], w);
      } else {
        if s in best {
          var w :| FirstBestAt(t, keys, n, s, best[s], w);
        }
        FirstBestReplace(t, keys, n, s, a);
      }
    }
  }

  /**
   * When the scan completes, it holds one entry per state among the visited
   * keys, and that entry is the first action of that state with the largest value.
   */
  lemma {:induction false} ScanWinners(t: Table, keys: seq<string>, n: nat)
    requires n <= |keys|
    requires forall i :: 0 <= i < |keys| ==> keys[i] in t
    ensures Scan(t, keys, n).Winners? ==> BestUpTo(t, keys, n, Scan(t, keys, n).best)
  {
    if n == 0 {
      BestUpToStart(t, keys);
    } else if Scan(t, keys, n).Winners? {
      ScanWinners(t, keys, n - 1);
      ScanWinnersStep(t, keys, n - 1);
    }
  }

  lemma BestUpToStart(t: Table, keys: seq<string>)
    ensures BestUpTo(t, keys, 0, map[])
  {
    assert StatesUpTo(keys, 0) == {};
  }

  /** One completed step of the scan keeps BestUpTo. */
  lemma ScanWinnersStep(t: Table, keys: seq<string>, n: nat)
    requires n < |keys|
    requires forall i :: 0 <= i < |keys| ==> keys[i] in t
    requires Scan(t, keys, n + 1).Winners?
    requires Scan(t, keys, n).Winners? ==> BestUpTo(t, keys, n, Scan(t, keys, n).best)
    ensures BestUpTo(t, keys, n + 1, Scan(t, keys, n + 1).best)
  {
    var s, a := ScanStep(t, keys, n);
    VisitKeepsBest(t, keys, n, Scan(t, keys, n).best, s, a);
  }

  /** A completed step of the scan came from a completed scan and the visit of a key made of two parts. */
  lemma ScanStep(t: Table, keys: seq<string>, n: nat) returns (s: string, a: string)
    requires n < |keys|
    requires forall i :: 0 <= i < |keys| ==> keys[i] in t
    requires Scan(t, keys, n + 1).Winners?
    ensures Scan(t, keys, n).Winners? && Parts(keys[n]) == [s, a]
    ensures Scan(t, keys, n + 1).best == Visit(Scan(t, keys, n).best, s, a, t[keys[n]])
  {
    var parts := Parts(keys[n]);
    s, a := parts[0], parts[1];
    assert parts == [s, a];
  }

  /**
   * `keys` lists every key of `t` exactly once, an iteration order of the
   * dictionary: distinct keys of `t`, as many as `t` has.
   */
  ghost predicate Enumerates(keys: seq<string>, t: Table)
  {
    && |keys| == |t|
    && (forall i :: 0 <= i < |keys| ==> keys[i] in t)
    && (forall i, j :: 0 <= i < j < |keys| ==> keys[i] != keys[j])
  }

  /** Distinct elements: the set of a sequence has as many members as the sequence. */
  lemma {:induction false} DistinctCardinality(keys: seq<string>)
    requires forall i, j :: 0 <= i < j < |keys| ==> keys[i] != keys[j]
    ensures |set k | k in keys| == |keys|
  {
    if |keys| > 0 {
      var init := keys[..|keys| - 1];
      DistinctCardinality(init);
      assert (set k | k in keys) == (set k | k in init) + {keys[|keys| - 1]};
    }
  }

  /** An enumeration misses no key of the table. */
  lemma EnumeratesCovers(keys: seq<string>, t: Table)
    requires Enumerates(keys, t)
    ensures forall k :: k in t ==> k in keys
  {
    var listed := set k | k in keys;
    DistinctCardinality(keys);
    var missed := t.Keys - listed;
    assert t.Keys == listed + missed && listed * missed == {};
    assert |missed| == 0;
  }

  class QValueStore {
    var storage: Table
    /** The pickle file: None before the first `save`. */
    var disk: Option<Table>
    /** Every snapshot written by `save`, oldest first. */
    ghost var saves: seq<Table>

    /** `__init__`: start empty and `load` whatever the file holds. */
    constructor (file: Option<Table>)
      ensures file.Some? ==> storage == file.value && saves == []
      ensures file.None? ==> storage == map[] && saves == [map[]]
      ensures disk == Some(storage)
    {
      storage := map[];
      disk := file;
      saves := [];
      new;
      Load();
    }

    /** `store_q_value`: one key is set, nothing else changes. */
    method StoreQValue(state: string, action: string, value: real)
      modifies this`storage
      ensures storage == old(storage)[Key(state, action) := value]
      ensures old(storage).Keys <= storage.Keys
    {
      storage := storage[Key(state, action) := value];
    }

    /** `save`: the file now holds the current table. */
    method Save()
      modifies this`disk, this`saves
      ensures disk == Some(storage)
      ensures saves == old(saves) + [storage]
    {
      disk := Some(storage);
      saves := saves + [storage];
    }

    /** `load`: adopt the file's table if there is a file, otherwise create it from the table. */
    method Load()
      modifies this
      ensures old(disk).Some? ==> storage == old(disk).value && disk == old(disk) && saves == old(saves)
      ensures old(disk).None? ==> storage == old(storage) && saves == old(saves) + [storage]
      ensures disk == Some(storage)
    {
      if disk.Some? {
        storage := disk.value;
      } else {
        Save();
      }
    }

    /**
     * `print_best_action_per_state` without the printing: visit the keys in
     * the dictionary's iteration order `keys`, split each into state and
     * action, and keep per state the first action with the largest value.
     * A key that does not split into exactly two parts raises.
     */
    method BestActionPerState(keys: seq<string>) returns (r: BestPerState)
      requires Enumerates(keys, storage)
      ensures r == Scan(storage, keys, |keys|)
    {
      var best: map<string, (string, real)> := map[];
      var n := 0;
      while n < |keys|
        invariant 0 <= n <= |keys|
        invariant Scan(storage, keys, n) == Winners(best)
      {
        var parts := Parts(keys[n]);
        if |parts| != 2 {
          ScanStopped(storage, keys, n + 1);
          return Malformed(keys[n]);
        }
        var stateStr, actionStr := parts[0], parts[1];
        if stateStr !in best || storage[keys[n]] > best[stateStr].1 {
          best := best[stateStr := (actionStr, storage[keys[n]])];
        }
        n := n + 1;
      }
      r := Winners(best);
    }
  }
}
