/**
 * The waypoint-following autopilot (Assets/CarScript.cs): pick the nearest
 * waypoint, drive towards the current one, and move on to the next when within
 * 2 units of it.
 *
 * Squared distances and distances from the car to the waypoints are given as
 * sequences of reals; the signed steering angle and the forward alignment with
 * the current target as reals. The transform is reduced to a yaw angle and the
 * distance driven forward.
 */
module WaypointFollower {
  import opened Wrappers
  import opened Indices

  /** The exceptions the script can raise. */
  datatype Error =
    | EmptySequence    // First() on an empty sequence
    | IndexOutOfRange  // points[nextPointIndex] outside the array

  const ARRIVAL_DISTANCE: real := 2.0

  /** A (squared distance, point index) pair, as Select((p, i) => ...) builds it. */
  type Keyed = (real, nat)

  /** The keys of a keyed sequence, in order. */
  function Keys(s: seq<Keyed>): (ks: seq<real>)
    ensures |ks| == |s|
  {
    seq(|s|, i requires 0 <= i < |s| => s[i].0)
  }

  ghost predicate SortedByKey(s: seq<Keyed>) {
    forall i, j :: 0 <= i < j < |s| ==> s[i].0 <= s[j].0
  }

  /**
   * Inserts x in front of the first element whose key is not smaller. Every
   * element of t came after x in the input, so x stays ahead of equal keys.
   */
  function InsertByKey(x: Keyed, t: seq<Keyed>): (r: seq<Keyed>)
    ensures |r| == |t| + 1
    ensures multiset(r) == multiset(t) + multiset{x}
    ensures r[0] == if t == [] || x.0 <= t[0].0 then x else t[0]
  {
    if t == [] || x.0 <= t[0].0 then [x] + t
    else
      assert t == [t[0]] + t[1..];
      [t[0]] + InsertByKey(x, t[1..])
  }

  /**
   * r is t with x inserted at position p: after the leading elements of
   * smaller key and in front of the first element whose key is not smaller.
   */
  ghost predicate InsertedAt(x: Keyed, t: seq<Keyed>, r: seq<Keyed>, p: int) {
    && 0 <= p <= |t|
    && r == t[..p] + [x] + t[p..]
    && (forall q :: 0 <= q < p ==> t[q].0 < x.0)
    && (p < |t| ==> x.0 <= t[p].0)
  }

  /** The insertion leaves t in order and puts x in front of the first element whose key is not smaller. */
  lemma {:induction false} InsertByKeyPlacesX(x: Keyed, t: seq<Keyed>)
    ensures exists p :: InsertedAt(x, t, InsertByKey(x, t), p)
  {
    if t == [] || x.0 <= t[0].0 {
      assert InsertedAt(x, t, InsertByKey(x, t), 0) by {
        assert InsertByKey(x, t) == t[..0] + [x] + t[0..];
      }
    } else {
      var u := t[1..];
      InsertByKeyPlacesX(x, u);
      var p' :| InsertedAt(x, u, InsertByKey(x, u), p');
      InsertedAfterHead(x, t, InsertByKey(x, u), p');
      assert InsertByKey(x, t) == [t[0]] + InsertByKey(x, u);
    }
  }

  /** Putting the head back in front of an insertion into the tail shifts the position by one. */
  lemma InsertedAfterHead(x: Keyed, t: seq<Keyed>, r': seq<Keyed>, p': int)
    requires t != [] && t[0].0 < x.0
    requires InsertedAt(x, t[1..], r', p')
    ensures InsertedAt(x, t, [t[0]] + r', p' + 1)
  {
    var u := t[1..];
    var p := p' + 1;
    assert t[..p] == [t[0]] + u[..p'];
    assert t[p..] == u[p'..];
    if p < |t| {
      assert t[p] == u[p'];
    }
    forall q | 0 <= q < p ensures t[q].0 < x.0 {
      if q > 0 {
        assert t[q] == u[q - 1];
      }
    }
  }

  /** Inserting into a sorted sequence keeps it sorted. */
  lemma {:induction false} InsertKeepsSorted(x: Keyed, t: seq<Keyed>)
    requires SortedByKey(t)
    ensures SortedByKey(InsertByKey(x, t))
  {
    if t != [] && t[0].0 < x.0 {
      var rest := InsertByKey(x, t[1..]);
      InsertKeepsSorted(x, t[1..]);
      var r := [t[0]] + rest;
      assert InsertByKey(x, t) == r;
      assert t[0].0 <= rest[0].0;
      forall i, j | 0 <= i < j < |r| ensures r[i].0 <= r[j].0 {
        if i == 0 {
          assert rest[0].0 <= rest[j - 1].0;
        }
      }
    }
  }

  /** OrderBy on the key: a stable sort (insertion sort from the back). */
  function OrderByKey(s: seq<Keyed>): (r: seq<Keyed>)
    ensures |r| == |s|
    ensures multiset(r) == multiset(s)
    ensures SortedByKey(r)
  {
    if s == [] then []
    else
      assert s == [s[0]] + s[1..];
      InsertKeepsSorted(s[0], OrderByKey(s[1..]));
      InsertByKey(s[0], OrderByKey(s[1..]))
  }

  /**
   * The first element of the stable ordering is the earliest element of least
   * key: ties are won by the element that came first.
   */
  lemma {:induction false} OrderByHead(s: seq<Keyed>)
    requires |s| > 0
    ensures exists m :: IsEarliestMinimum(Keys(s), m) && OrderByKey(s)[0] == s[m]
  {
    if |s| == 1 {
      assert IsEarliestMinimum(Keys(s), 0) && OrderByKey(s)[0] == s[0];
    } else {
      var rest := s[1..];
      var t := OrderByKey(rest);
      OrderByHead(rest);
      var m' :| IsEarliestMinimum(Keys(rest), m') && t[0] == rest[m'];
      var head := OrderByKey(s)[0];
      assert head == if s[0].0 <= t[0].0 then s[0] else t[0];
      assert Keys(rest)[m'] == t[0].0;
      KeysOfCons(s);
      EarliestMinimumOfCons(s[0].0, Keys(rest), m');
      var m := if s[0].0 <= t[0].0 then 0 else m' + 1;
      assert s[m] == head by {
        if m > 0 {
          assert s[m] == rest[m'];
        }
      }
    }
  }

  /** The keys of a non-empty sequence: the head's key, then the keys of the tail. */
  lemma KeysOfCons(s: seq<Keyed>)
    requires |s| > 0
    ensures Keys(s) == [s[0].0] + Keys(s[1..])
  {
    assert forall j :: 0 <= j < |s| - 1 ==> Keys(s)[j + 1] == Keys(s[1..])[j];
  }

  /**
   * GetNearestPointIndex: OrderBy(squared distance).First().Item2. It fails
   * when there are no points and otherwise is the first index of least
   * squared distance.
   */
  function GetNearestPointIndex(sqDistances: seq<real>): (r: Result<nat, Error>)
    ensures r.Failure? <==> |sqDistances| == 0
    ensures r.Failure? ==> r.error == EmptySequence
    ensures r.Success? ==> IsEarliestMinimum(sqDistances, r.value)
  {
    if |sqDistances| == 0 then Failure(EmptySequence)
    else
      var keyed := seq(|sqDistances|, i requires 0 <= i < |sqDistances| => (sqDistances[i], i));
      assert Keys(keyed) == sqDistances;
      OrderByHead(keyed);
      Success(OrderByKey(keyed)[0].1)
  }

  /** Mathf.Clamp: below the range gives min, above gives max, otherwise the value. */
  function Clamp(value: real, min: real, max: real): (r: real)
    ensures min <= max ==> min <= r <= max
    ensures min <= value <= max ==> r == value
  {
    if value < min then min else if value > max then max else value
  }

  function Abs(x: real): real {
    if x < 0.0 then -x else x
  }

  /** For a non-empty range, the clamped value is the point of the range nearest the input. */
  lemma ClampIsNearest(value: real, min: real, max: real, y: real)
    requires min <= y <= max
    ensures Abs(Clamp(value, min, max) - value) <= Abs(y - value)
  {
  }

  class CarScript {
    const acceleration: real
    const maxSpeed: real
    const turnSpeed: real
    const maxTurnSpeed: real
    /** points.Length: the serialized array is never reassigned. */
    const pointCount: nat

    var nextPointIndex: int
    /** The heading about the up axis, in degrees, as Rotate accumulates it. */
    var yaw: real
    /** How far the car has moved along its forward direction. */
    var distanceDriven: real

    /** The target index is usable: in range when there are points, 0 otherwise. */
    ghost predicate Valid()
      reads this
    {
      && 0 <= nextPointIndex
      && (pointCount > 0 ==> nextPointIndex < pointCount)
      && (pointCount == 0 ==> nextPointIndex == 0)
    }

    /**
     * The serialized tuning values as the inspector sets them (the field
     * initialisers give acceleration 10, maxSpeed 10, turnSpeed 10 and
     * maxTurnSpeed 45); the index starts at 0 as an unset int field.
     */
    constructor (acceleration: real, maxSpeed: real, turnSpeed: real, maxTurnSpeed: real, pointCount: nat)
      ensures Valid()
      ensures this.acceleration == acceleration && this.maxSpeed == maxSpeed
      ensures this.turnSpeed == turnSpeed && this.maxTurnSpeed == maxTurnSpeed
      ensures this.pointCount == pointCount && nextPointIndex == 0
      ensures yaw == 0.0 && distanceDriven == 0.0
    {
      this.acceleration := acceleration;
      this.maxSpeed := maxSpeed;
      this.turnSpeed := turnSpeed;
      this.maxTurnSpeed := maxTurnSpeed;
      this.pointCount := pointCount;
      nextPointIndex := 0;
      yaw := 0.0;
      distanceDriven := 0.0;
    }

    /** Targets the nearest waypoint; with no waypoints First() throws and the index stays as it was. */
    method Start(sqDistances: seq<real>) returns (r: Result<nat, Error>)
      requires Valid() && |sqDistances| == pointCount
      modifies this`nextPointIndex
      ensures Valid()
      ensures r == GetNearestPointIndex(sqDistances)
      ensures r.Success? ==> nextPointIndex == r.value
      ensures r.Failure? ==> nextPointIndex == old(nextPointIndex)
    {
      r := GetNearestPointIndex(sqDistances);
      if r.Success? {
        nextPointIndex := r.value;
      }
    }

    /** Targets the following waypoint, wrapping round to the first. */
    method NextPoint()
      requires Valid() && pointCount > 0
      modifies this`nextPointIndex
      ensures Valid()
      ensures nextPointIndex == NextIndex(old(nextPointIndex), pointCount)
    {
      nextPointIndex := (nextPointIndex + 1) % pointCount;
    }

    /**
     * Moves on to the next waypoint when strictly closer than 2 units to the
     * current one; reading points[nextPointIndex] fails when there are none.
     */
    method CheckDestination(distances: seq<real>) returns (r: Result<bool, Error>)
      requires Valid() && |distances| == pointCount
      modifies this`nextPointIndex
      ensures Valid()
      ensures r.Failure? <==> pointCount == 0
      ensures r.Failure? ==> r.error == IndexOutOfRange && nextPointIndex == old(nextPointIndex)
      ensures r.Success? ==> (r.value <==> distances[old(nextPointIndex)] < ARRIVAL_DISTANCE)
      ensures r.Success? && r.value ==> nextPointIndex == NextIndex(old(nextPointIndex), pointCount)
      ensures r.Success? && !r.value ==> nextPointIndex == old(nextPointIndex)
    {
      if !(0 <= nextPointIndex < pointCount) {
        return Failure(IndexOutOfRange);
      }
      var arrived := distances[nextPointIndex] < ARRIVAL_DISTANCE;
      if arrived {
        NextPoint();
      }
      r := Success(arrived);
    }

    /**
     * Turns towards the current waypoint by the clamped turn amount and drives
     * forward by the clamped speed (never backwards while maxSpeed >= 0).
     * `angle` is the signed angle to the target before the turn; `alignment`
     * is the dot product of the forward direction after the turn with the
     * direction to the target.
     */
    method Move(angle: real, alignment: real, deltaTime: real) returns (r: Result<(real, real), Error>)
      requires Valid()
      modifies this`yaw, this`distanceDriven
      ensures r.Failure? <==> pointCount == 0
      ensures r.Failure? ==> r.error == IndexOutOfRange && yaw == old(yaw) && distanceDriven == old(distanceDriven)
      ensures r.Success? ==>
        var (turnAmount, currentSpeed) := r.value;
        && turnAmount == Clamp(angle * turnSpeed * deltaTime, -maxTurnSpeed, maxTurnSpeed)
        && currentSpeed == Clamp(alignment * acceleration * deltaTime, 0.0, maxSpeed)
        && yaw == old(yaw) + turnAmount
        && distanceDriven == old(distanceDriven) + currentSpeed
      ensures r.Success? && maxTurnSpeed >= 0.0 ==> -maxTurnSpeed <= yaw - old(yaw) <= maxTurnSpeed
      ensures r.Success? && maxSpeed >= 0.0 ==> old(distanceDriven) <= distanceDriven <= old(distanceDriven) + maxSpeed
    {
      if !(0 <= nextPointIndex < pointCount) {
        return Failure(IndexOutOfRange);
      }
      var turnAmount := Clamp(angle * turnSpeed * deltaTime, -maxTurnSpeed, maxTurnSpeed);
      yaw := yaw + turnAmount;
      var currentSpeed := Clamp(alignment * acceleration * deltaTime, 0.0, maxSpeed);
      distanceDriven := distanceDriven + currentSpeed;
      r := Success((turnAmount, currentSpeed));
    }

    /** One frame: CheckDestination, then Move; an exception in the first skips the second. */
    method Update(distances: seq<real>, angle: real, alignment: real, deltaTime: real) returns (r: Result<bool, Error>)
      requires Valid() && |distances| == pointCount
      modifies this`nextPointIndex, this`yaw, this`distanceDriven
      ensures Valid()
      ensures r.Failure? <==> pointCount == 0
      ensures r.Failure? ==> nextPointIndex == old(nextPointIndex) && yaw == old(yaw) && distanceDriven == old(distanceDriven)
      ensures r.Success? && distances[old(nextPointIndex)] < ARRIVAL_DISTANCE ==>
        nextPointIndex == NextIndex(old(nextPointIndex), pointCount)
      ensures r.Success? && distances[old(nextPointIndex)] >= ARRIVAL_DISTANCE ==>
        nextPointIndex == old(nextPointIndex)
      ensures r.Success? ==> yaw == old(yaw) + Clamp(angle * turnSpeed * deltaTime, -maxTurnSpeed, maxTurnSpeed)
      ensures r.Success? ==> distanceDriven == old(distanceDriven) + Clamp(alignment * acceleration * deltaTime, 0.0, maxSpeed)
      ensures r.Success? && maxSpeed >= 0.0 ==> distanceDriven >= old(distanceDriven)
    {
      r := CheckDestination(distances);
      if r.Failure? {
        return;
      }
      var moved := Move(angle, alignment, deltaTime);
    }
  }
}
