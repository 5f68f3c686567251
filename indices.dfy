/** Index logic shared by the checkpoint agent and the waypoint follower. */
module Indices {

  /** `(i + 1) % len` as both scripts write it, for an index already in range. */
  function NextIndex(i: int, len: int): (n: int)
    requires 0 <= i < len
    ensures 0 <= n < len
    ensures n == if i == len - 1 then 0 else i + 1
  {
    (i + 1) % len
  }

  /** The index reached from `i` after `k` successive advances. */
  function Advanced(i: int, len: int, k: nat): (n: int)
    requires 0 <= i < len
    ensures 0 <= n < len
  {
    if k == 0 then i else NextIndex(Advanced(i, len, k - 1), len)
  }

  /** Within one lap the advance is a shift by k that wraps round at most once. */
  lemma {:induction false} AdvancedWithinLap(i: int, len: int, k: nat)
    requires 0 <= i < len && k <= len
    ensures Advanced(i, len, k) == if i + k < len then i + k else i + k - len
  {
    if k > 0 {
      AdvancedWithinLap(i, len, k - 1);
    }
  }

  /** Advancing a + b times is advancing a times, then b times. */
  lemma {:induction false} AdvancedComposes(i: int, len: int, a: nat, b: nat)
    requires 0 <= i < len
    ensures Advanced(i, len, a + b) == Advanced(Advanced(i, len, a), len, b)
  {
    if b > 0 {
      AdvancedComposes(i, len, a, b - 1);
    }
  }

  /** One full lap of `len` advances comes back to the starting index. */
  lemma LapReturnsToStart(i: int, len: int)
    requires 0 <= i < len
    ensures Advanced(i, len, len) == i
  {
    AdvancedWithinLap(i, len, len);
  }

  /** The cycle is periodic: `len` more advances change nothing. */
  lemma AdvancedIsPeriodic(i: int, len: int, k: nat)
    requires 0 <= i < len
    ensures Advanced(i, len, k + len) == Advanced(i, len, k)
  {
    AdvancedComposes(i, len, len, k);
    LapReturnsToStart(i, len);
  }

  /** Within one lap every index in range is visited. */
  lemma LapVisitsEveryIndex(i: int, len: int, j: int)
    requires 0 <= i < len && 0 <= j < len
    ensures exists k: nat :: k < len && Advanced(i, len, k) == j
  {
    var k: nat := if j >= i then j - i else j - i + len;
    AdvancedWithinLap(i, len, k);
  }

  /** `k` is the first index at which `d` takes its least value. */
  ghost predicate IsEarliestMinimum(d: seq<real>, k: int) {
    && 0 <= k < |d|
    && (forall j :: 0 <= j < |d| ==> d[k] <= d[j])
    && (forall j :: 0 <= j < k ==> d[k] < d[j])
  }

  /**
   * Putting a value in front: it is the new earliest minimum when it is no
   * greater than the old minimum, and otherwise the old one moves up by one.
   */
  lemma EarliestMinimumOfCons(a: real, d: seq<real>, k: int)
    requires IsEarliestMinimum(d, k)
    ensures IsEarliestMinimum([a] + d, if a <= d[k] then 0 else k + 1)
  {
    var e := [a] + d;
    assert forall j :: 0 < j < |e| ==> e[j] == d[j - 1];
  }
}
