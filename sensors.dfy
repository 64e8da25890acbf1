/**
 * The numpy idioms the arbitrators apply to sensor vectors: `(v > t).any()`,
 * `(v < t).all()`, `v.all()` (every reading non-zero) and `np.argmin(v)`,
 * which returns the first index of a minimal reading.
 */
module Sensors {

  /** `(v > t).any()`. */
  predicate AnyAbove(v: seq<int>, t: int)
  {
    exists i :: 0 <= i < |v| && v[i] > t
  }

  /** `(v < t).all()`; true for an empty vector, as in numpy. */
  predicate AllBelow(v: seq<int>, t: int)
  {
    forall i :: 0 <= i < |v| ==> v[i] < t
  }

  /** `(v > t).all()`. */
  predicate AllAbove(v: seq<int>, t: int)
  {
    forall i :: 0 <= i < |v| ==> v[i] > t
  }

  /** `v.all()`: no reading is zero. */
  predicate AllNonzero(v: seq<int>)
  {
    forall i :: 0 <= i < |v| ==> v[i] != 0
  }

  /**
   * `np.argmin(v)`: numpy scans left to right and keeps the first minimum,
   * so the index is minimal and every earlier reading is strictly larger.
   */
  function ArgMin(v: seq<int>): (k: nat)
    requires |v| > 0
    ensures k < |v|
    ensures forall j :: 0 <= j < |v| ==> v[k] <= v[j]
    ensures forall j :: 0 <= j < k ==> v[k] < v[j]
    decreases |v|
  {
    if |v| == 1 then 0
    else
      var k := ArgMin(v[..|v| - 1]);
      if v[|v| - 1] < v[k] then |v| - 1 else k
  }

  /** The first minimal index is the only index with both properties of `ArgMin`. */
  lemma ArgMinUnique(v: seq<int>, k: nat)
    requires k < |v|
    requires forall j :: 0 <= j < |v| ==> v[k] <= v[j]
    requires forall j :: 0 <= j < k ==> v[k] < v[j]
    ensures ArgMin(v) == k
  {
    var m := ArgMin(v);
    assert v[m] == v[k];
  }
}
