/**
 * The editor tool that scans a closed track mesh and places one waypoint per
 * angular slice at the middle of the track band (Assets/WaypointGenerator.cs).
 *
 * Physics.Raycast is an oracle: `Physics.scan(i, j)` is the downward ray at
 * angle index i and radial sample j, `Physics.reprobe(i, m)` the confirmation
 * ray at angle index i and (real-valued) midpoint index m. Both report the
 * collider struck first, so hits on scenery can be told from hits on the track.
 */
module WaypointGeneration {
  import opened Wrappers
  import opened Geometry

  type ColliderId = nat

  type PrefabId = nat

  /** The axis-aligned bounding box of a collider. */
  datatype Bounds = Bounds(center: Vec3, extents: Vec3)

  datatype MeshCollider = MeshCollider(id: ColliderId, bounds: Bounds)

  /** The outcome of one ray cast: nothing, or the first collider struck and where. */
  datatype ProbeResult = Miss | Hit(collider: ColliderId, point: Vec3)

  datatype Physics = Physics(scan: (nat, nat) -> ProbeResult, reprobe: (nat, real) -> ProbeResult)

  /**
   * A placed waypoint: the angle index it was generated for (which fixes its
   * facing, LookRotation of the radial direction) and the point the
   * confirmation ray struck.
   */
  datatype Waypoint = Waypoint(angleIdx: nat, position: Vec3)

  /** A ray counts only when it struck the track collider itself. */
  predicate OnTrack(r: ProbeResult, track: ColliderId) {
    r.Hit? && r.collider == track
  }

  /** A ray counts exactly when it is a hit on the track collider, wherever it struck. */
  lemma OnTrackIsTrackHit(r: ProbeResult, track: ColliderId)
    ensures OnTrack(r, track) <==> exists p :: r == Hit(track, p)
  {
    if OnTrack(r, track) {
      assert r == Hit(track, r.point);
    }
  }

  /** Radial sample j at angle i lies on the track. */
  predicate SampleHits(ph: Physics, track: ColliderId, i: nat, j: int) {
    0 <= j && OnTrack(ph.scan(i, j), track)
  }

  /** `maxRadius` as OnValidate computes it from the collider's bounds. */
  function MaxRadius(b: Bounds): (r: real)
    ensures r >= b.extents.x + 1.0 && r >= b.extents.z + 1.0
    ensures r == b.extents.x + 1.0 || r == b.extents.z + 1.0
  {
    Max(b.extents.x, b.extents.z) + 1.0
  }

  /** The least hitting sample index in 0..upTo, or -1 when none hits. */
  function FirstHit(ph: Physics, track: ColliderId, i: nat, upTo: int): (f: int)
    decreases upTo
    ensures f == -1 <==> forall j :: 0 <= j <= upTo ==> !SampleHits(ph, track, i, j)
    ensures f != -1 ==> 0 <= f <= upTo && SampleHits(ph, track, i, f)
    ensures f != -1 ==> forall j :: 0 <= j < f ==> !SampleHits(ph, track, i, j)
  {
    if upTo < 0 then -1
    else
      var f := FirstHit(ph, track, i, upTo - 1);
      if f >= 0 then f
      else if SampleHits(ph, track, i, upTo) then upTo
      else -1
  }

  /** The greatest hitting sample index in 0..upTo, or -1 when none hits. */
  function LastHit(ph: Physics, track: ColliderId, i: nat, upTo: int): (l: int)
    decreases upTo
    ensures l == -1 <==> forall j :: 0 <= j <= upTo ==> !SampleHits(ph, track, i, j)
    ensures l != -1 ==> 0 <= l <= upTo && SampleHits(ph, track, i, l)
    ensures l != -1 ==> forall j :: l < j <= upTo ==> !SampleHits(ph, track, i, j)
  {
    if upTo < 0 then -1
    else if SampleHits(ph, track, i, upTo) then upTo
    else LastHit(ph, track, i, upTo - 1)
  }

  /**
   * The radial scan at angle i: samples 0..radialSamples, remembering the first
   * and the last sample whose ray struck the track collider.
   */
  method ScanRadial(ph: Physics, track: ColliderId, i: nat, radialSamples: int)
    returns (firstIdx: int, lastIdx: int)
    ensures firstIdx == FirstHit(ph, track, i, radialSamples)
    ensures lastIdx == LastHit(ph, track, i, radialSamples)
    ensures firstIdx == -1 <==> forall j :: 0 <= j <= radialSamples ==> !SampleHits(ph, track, i, j)
    ensures firstIdx >= 0 ==> 0 <= firstIdx <= lastIdx <= radialSamples
  {
    firstIdx, lastIdx := -1, -1;
    var j := 0;
    while j <= radialSamples
      invariant 0 <= j <= if radialSamples < 0 then 0 else radialSamples + 1
      invariant firstIdx == FirstHit(ph, track, i, j - 1)
      invariant lastIdx == LastHit(ph, track, i, j - 1)
    {
      if OnTrack(ph.scan(i, j), track) {
        if firstIdx < 0 {
          firstIdx := j;
        }
        lastIdx := j;
      }
      j := j + 1;
    }
  }

  /**
   * One iteration of the angle loop: the radial scan, then the re-probe at the
   * middle of the band, emitting a waypoint when both found the track.
   */
  method ScanAngle(ph: Physics, track: ColliderId, i: nat, radialSamples: int)
    returns (w: Option<Waypoint>)
    ensures w == AngleWaypoint(ph, track, i, radialSamples)
  {
    var firstIdx, lastIdx := ScanRadial(ph, track, i, radialSamples);
    w := None;
    if firstIdx >= 0 && lastIdx >= firstIdx {
      var midIdx := MidIdx(firstIdx, lastIdx);
      var midHit := ph.reprobe(i, midIdx);
      if OnTrack(midHit, track) {
        w := Some(Waypoint(i, midHit.point));
      }
    }
  }

  /** One angle: scan it and, when it emits a waypoint, instantiate it as the parent's last child. */
  method PlaceAngle(parent: Transform, ph: Physics, track: ColliderId, i: nat, radialSamples: int)
    returns (w: Option<Waypoint>)
    modifies parent
    ensures w == AngleWaypoint(ph, track, i, radialSamples)
    ensures parent.children == old(parent.children) + Emitted(w)
  {
    w := ScanAngle(ph, track, i, radialSamples);
    if w.Some? {
      parent.AddChild(w.value);
    }
  }

  /**
   * The angle loop: for i = 0 .. numPoints-1, scan angle i and place its
   * waypoint, if any, as the parent's next child; `created` counts them.
   */
  method PlaceWaypoints(parent: Transform, ph: Physics, track: ColliderId, numPoints: int, radialSamples: int)
    returns (created: nat)
    modifies parent
    ensures parent.children == old(parent.children) + Waypoints(ph, track, numPoints, radialSamples)
    ensures created == |Waypoints(ph, track, numPoints, radialSamples)|
  {
    created := 0;
    var angles := if numPoints < 0 then 0 else numPoints;
    for i := 0 to angles
      invariant parent.children == old(parent.children) + Waypoints(ph, track, i, radialSamples)
      invariant created == |Waypoints(ph, track, i, radialSamples)|
    {
      var w := PlaceAngle(parent, ph, track, i, radialSamples);
      WaypointsStep(ph, track, i, radialSamples);
      if w.Some? {
        created := created + 1;
      }
    }
  }

  /** Once some sample hit, the band guard `lastIdx >= firstIdx` adds nothing. */
  lemma BandGuardIsImplied(ph: Physics, track: ColliderId, i: nat, radialSamples: int)
    requires FirstHit(ph, track, i, radialSamples) >= 0
    ensures LastHit(ph, track, i, radialSamples) >= FirstHit(ph, track, i, radialSamples)
  {
  }

  /** The real-valued midpoint of the band of hitting samples. */
  function MidIdx(firstIdx: int, lastIdx: int): (m: real)
    requires firstIdx <= lastIdx
    ensures firstIdx as real <= m <= lastIdx as real
    ensures m - firstIdx as real == lastIdx as real - m
  {
    (firstIdx + lastIdx) as real * 0.5
  }

  /** The radius of a (possibly fractional) sample index. */
  function SampleRadius(maxRadius: real, idx: real, radialSamples: int): (r: real)
    requires radialSamples > 0
    ensures idx == 0.0 ==> r == 0.0
    ensures idx == radialSamples as real ==> r == maxRadius
  {
    maxRadius * idx / radialSamples as real
  }

  /** The re-probe radius lies between the centre and maxRadius. */
  lemma MidRadiusInRange(maxRadius: real, firstIdx: int, lastIdx: int, radialSamples: int)
    requires radialSamples > 0 && maxRadius >= 0.0
    requires 0 <= firstIdx <= lastIdx <= radialSamples
    ensures 0.0 <= SampleRadius(maxRadius, MidIdx(firstIdx, lastIdx), radialSamples) <= maxRadius
  {
    var m := MidIdx(firstIdx, lastIdx);
    var n := radialSamples as real;
    var x := maxRadius * m;
    assert 0.0 <= x by {
      assert 0.0 <= m;
    }
    assert maxRadius * n - x == maxRadius * (n - m);
    assert x <= maxRadius * n by {
      assert 0.0 <= maxRadius * (n - m);
    }
    assert x / n <= maxRadius by {
      assert x / n * n == x;
    }
  }

  /** What the scan at angle i emits: at most one waypoint. */
  function AngleWaypoint(ph: Physics, track: ColliderId, i: nat, radialSamples: int): (w: Option<Waypoint>)
    ensures w.Some? ==> w.value.angleIdx == i
  {
    var f := FirstHit(ph, track, i, radialSamples);
    var l := LastHit(ph, track, i, radialSamples);
    if f >= 0 && l >= f then
      var m := ph.reprobe(i, MidIdx(f, l));
      if OnTrack(m, track) then Some(Waypoint(i, m.point)) else None
    else None
  }

  /**
   * A waypoint is emitted at angle i exactly when some sample hit the track and
   * the re-probe at the band's midpoint hit the track too; it sits where that
   * re-probe struck.
   */
  lemma AngleWaypointEmitted(ph: Physics, track: ColliderId, i: nat, radialSamples: int)
    ensures AngleWaypoint(ph, track, i, radialSamples).Some? <==>
      && (exists j :: 0 <= j <= radialSamples && SampleHits(ph, track, i, j))
      && OnTrack(ph.reprobe(i, MidIdx(FirstHit(ph, track, i, radialSamples),
                                       LastHit(ph, track, i, radialSamples))), track)
    ensures AngleWaypoint(ph, track, i, radialSamples).Some? ==>
      AngleWaypoint(ph, track, i, radialSamples).value.position ==
        ph.reprobe(i, MidIdx(FirstHit(ph, track, i, radialSamples),
                             LastHit(ph, track, i, radialSamples))).point
  {
  }

  /** The waypoints generated for angles 0..numPoints-1, in angle order. */
  function Waypoints(ph: Physics, track: ColliderId, numPoints: int, radialSamples: int): (ws: seq<Waypoint>)
    decreases numPoints
    ensures |ws| <= if numPoints < 0 then 0 else numPoints
    ensures forall k :: 0 <= k < |ws| ==> ws[k].angleIdx < numPoints
    ensures forall k, m :: 0 <= k < m < |ws| ==> ws[k].angleIdx < ws[m].angleIdx
    ensures forall k :: 0 <= k < |ws| ==> AngleWaypoint(ph, track, ws[k].angleIdx, radialSamples) == Some(ws[k])
  {
    if numPoints <= 0 then []
    else
      var earlier := Waypoints(ph, track, numPoints - 1, radialSamples);
      match AngleWaypoint(ph, track, numPoints - 1, radialSamples)
      case Some(w) => earlier + [w]
      case None => earlier
  }

  /**
   * The scene does not change between the scan and the re-probe, so a
   * re-probe at a whole midpoint index k casts the very ray of radial sample k
   * (same radius, same origin, same length).
   */
  ghost predicate Coherent(ph: Physics) {
    forall i: nat, k: nat :: ph.reprobe(i, k as real) == ph.scan(i, k)
  }

  /**
   * In a coherent scene, a band whose midpoint is a whole sample index k that
   * hit the track emits a waypoint at that sample's hit point.
   */
  lemma WholeMidpointEmits(ph: Physics, track: ColliderId, i: nat, radialSamples: int, k: nat)
    requires Coherent(ph)
    requires FirstHit(ph, track, i, radialSamples) >= 0
    requires MidIdx(FirstHit(ph, track, i, radialSamples), LastHit(ph, track, i, radialSamples)) == k as real
    requires SampleHits(ph, track, i, k)
    ensures AngleWaypoint(ph, track, i, radialSamples) == Some(Waypoint(i, ph.scan(i, k).point))
  {
    assert ph.reprobe(i, k as real) == ph.scan(i, k);
  }

  /** In a coherent scene, a band of a single sample always emits a waypoint. */
  lemma SingleSampleBandEmits(ph: Physics, track: ColliderId, i: nat, radialSamples: int)
    requires Coherent(ph)
    requires FirstHit(ph, track, i, radialSamples) >= 0
    requires FirstHit(ph, track, i, radialSamples) == LastHit(ph, track, i, radialSamples)
    ensures AngleWaypoint(ph, track, i, radialSamples).Some?
  {
    var f := FirstHit(ph, track, i, radialSamples);
    WholeMidpointEmits(ph, track, i, radialSamples, f);
  }

  /** Some waypoint in `ws` was generated for angle i. */
  ghost predicate HasAngle(ws: seq<Waypoint>, i: nat) {
    exists k :: 0 <= k < |ws| && ws[k].angleIdx == i
  }

  /** Angle i contributes a waypoint exactly when it is in range and its scan emits one. */
  lemma {:induction false} WaypointsCoverEmittingAngles(ph: Physics, track: ColliderId, numPoints: int, radialSamples: int, i: nat)
    ensures HasAngle(Waypoints(ph, track, numPoints, radialSamples), i)
        <==> i < numPoints && AngleWaypoint(ph, track, i, radialSamples).Some?
  {
    if numPoints > 0 {
      var n := numPoints - 1;
      var e := Emitted(AngleWaypoint(ph, track, n, radialSamples));
      WaypointsCoverEmittingAngles(ph, track, n, radialSamples, i);
      WaypointsStep(ph, track, n, radialSamples);
      HasAngleAppend(Waypoints(ph, track, n, radialSamples), e, i);
      if e != [] {
        assert HasAngle(e, i) <==> e[0].angleIdx == i;
      }
    } else {
      assert Waypoints(ph, track, numPoints, radialSamples) == [];
    }
  }

  /** The waypoint an angle emits, as a sequence of at most one element. */
  function Emitted(w: Option<Waypoint>): seq<Waypoint> {
    if w.Some? then [w.value] else []
  }

  /** One more angle appends what that angle emits. */
  lemma WaypointsStep(ph: Physics, track: ColliderId, n: nat, radialSamples: int)
    ensures Waypoints(ph, track, n + 1, radialSamples) ==
      Waypoints(ph, track, n, radialSamples) + Emitted(AngleWaypoint(ph, track, n, radialSamples))
  {
  }

  /** An angle occurs in a concatenation exactly when it occurs in one of its parts. */
  lemma HasAngleAppend(ws: seq<Waypoint>, e: seq<Waypoint>, i: nat)
    ensures HasAngle(ws + e, i) <==> HasAngle(ws, i) || HasAngle(e, i)
  {
    var all := ws + e;
    if HasAngle(ws, i) {
      var k :| 0 <= k < |ws| && ws[k].angleIdx == i;
      assert all[k].angleIdx == i;
    }
    if HasAngle(e, i) {
      var k :| 0 <= k < |e| && e[k].angleIdx == i;
      assert all[|ws| + k].angleIdx == i;
    }
    if HasAngle(all, i) {
      var k :| 0 <= k < |all| && all[k].angleIdx == i;
      if k < |ws| {
        assert ws[k].angleIdx == i;
      } else {
        assert e[k - |ws|].angleIdx == i;
      }
    }
  }

  /** Drops every hit on a collider other than the track. */
  function TrackOnly(r: ProbeResult, track: ColliderId): ProbeResult {
    if OnTrack(r, track) then r else Miss
  }

  /** The same scene with every non-track collider removed. */
  function WithoutScenery(ph: Physics, track: ColliderId): (clean: Physics) {
    Physics((i: nat, j: nat) => TrackOnly(ph.scan(i, j), track),
            (i: nat, m: real) => TrackOnly(ph.reprobe(i, m), track))
  }

  /**
   * Hits on any collider other than the track count as misses, in the scan and
   * in the re-probe: removing the scenery changes no generated waypoint.
   */
  lemma {:induction false} SceneryIsIgnored(ph: Physics, track: ColliderId, numPoints: int, radialSamples: int)
    ensures Waypoints(WithoutScenery(ph, track), track, numPoints, radialSamples) ==
            Waypoints(ph, track, numPoints, radialSamples)
  {
    var clean := WithoutScenery(ph, track);
    if numPoints > 0 {
      SceneryIsIgnored(ph, track, numPoints - 1, radialSamples);
      var i: nat := numPoints - 1;
      forall j | 0 <= j
        ensures SampleHits(clean, track, i, j) == SampleHits(ph, track, i, j)
      {
        assert clean.scan(i, j) == TrackOnly(ph.scan(i, j), track);
      }
      var f, l := FirstHit(ph, track, i, radialSamples), LastHit(ph, track, i, radialSamples);
      SameHitsSameBand(clean, ph, track, i, radialSamples);
      if f >= 0 && l >= f {
        var m := MidIdx(f, l);
        assert clean.reprobe(i, m) == TrackOnly(ph.reprobe(i, m), track);
      }
      assert AngleWaypoint(clean, track, i, radialSamples) == AngleWaypoint(ph, track, i, radialSamples);
    }
  }

  /** Two scenes that agree on which samples hit the track bracket the same band. */
  lemma SameHitsSameBand(a: Physics, b: Physics, track: ColliderId, i: nat, upTo: int)
    requires forall j :: 0 <= j ==> SampleHits(a, track, i, j) == SampleHits(b, track, i, j)
    ensures FirstHit(a, track, i, upTo) == FirstHit(b, track, i, upTo)
    ensures LastHit(a, track, i, upTo) == LastHit(b, track, i, upTo)
  {
  }

  /** The parent transform the waypoints are placed under; its children in sibling order. */
  class Transform {
    var children: seq<Waypoint>

    constructor (children: seq<Waypoint>)
      ensures this.children == children
    {
      this.children := children;
    }

    /** Destroying the child at index idx (DestroyImmediate, or its undoable form). */
    method DestroyChild(idx: nat)
      requires idx < |children|
      modifies this
      ensures children == old(children[..idx] + children[idx + 1..])
    {
      children := children[..idx] + children[idx + 1..];
    }

    /** Destroys every child, counting down from the last sibling to the first. */
    method DestroyChildren()
      modifies this
      ensures children == []
    {
      var c := |children| - 1;
      while c >= 0
        invariant -1 <= c < |old(children)|
        invariant children == old(children)[..c + 1]
      {
        DestroyChild(c);
        c := c - 1;
      }
    }

    /** Instantiating a prefab under this transform appends it as the last child. */
    method AddChild(w: Waypoint)
      modifies this
      ensures children == old(children) + [w]
    {
      children := children + [w];
    }
  }

  class WaypointGenerator {
    var numPoints: int
    var waypointPrefab: Option<PrefabId>
    /** The ray height; it only shapes the rays, which the physics oracle stands for. */
    var rayHeight: real
    var radialSamples: int
    var waypointsParent: Transform?

    /** What GetComponent<MeshCollider>() returns on this object. */
    const attachedCollider: Option<MeshCollider>

    var trackCollider: Option<MeshCollider>
    var center: Vec3
    var maxRadius: real

    /** The inspector defaults; OnValidate has not run yet. */
    constructor (attachedCollider: Option<MeshCollider>, waypointPrefab: Option<PrefabId>, waypointsParent: Transform?)
      ensures numPoints == 100 && rayHeight == 10.0 && radialSamples == 50
      ensures this.waypointPrefab == waypointPrefab && this.waypointsParent == waypointsParent
      ensures this.attachedCollider == attachedCollider
      ensures trackCollider == None && center == ZERO && maxRadius == 0.0
    {
      numPoints := 100;
      rayHeight := 10.0;
      radialSamples := 50;
      this.waypointPrefab := waypointPrefab;
      this.waypointsParent := waypointsParent;
      this.attachedCollider := attachedCollider;
      trackCollider := None;
      center := ZERO;
      maxRadius := 0.0;
    }

    /** Picks up the mesh collider and derives the scan centre and radius from its bounds. */
    method OnValidate()
      modifies this`trackCollider, this`center, this`maxRadius
      ensures trackCollider == attachedCollider
      ensures attachedCollider.Some? ==>
        center == attachedCollider.value.bounds.center && maxRadius == MaxRadius(attachedCollider.value.bounds)
      ensures attachedCollider.None? ==> center == old(center) && maxRadius == old(maxRadius)
    {
      trackCollider := attachedCollider;
      if trackCollider.Some? {
        center := trackCollider.value.bounds.center;
        maxRadius := MaxRadius(trackCollider.value.bounds);
      }
    }

    /** The collider, the prefab and the parent are all present. */
    predicate Ready(): (r: bool)
      reads this
      ensures r <==> !(trackCollider == None || waypointPrefab == None || waypointsParent == null)
    {
      trackCollider.Some? && waypointPrefab.Some? && waypointsParent != null
    }

    /**
     * Clears the parent's children and places the generated waypoints under it.
     * The result is the diagnostic count, None when the precondition check
     * refused to run.
     */
    method GenerateWaypoints(ph: Physics) returns (created: Option<int>)
      modifies this`center, waypointsParent
      ensures !old(Ready()) ==> created == None && center == old(center)
      ensures !old(Ready()) && waypointsParent != null ==> waypointsParent.children == old(waypointsParent.children)
      ensures old(Ready()) ==> center == trackCollider.value.bounds.center
      ensures old(Ready()) ==>
        && waypointsParent.children == Waypoints(ph, trackCollider.value.id, numPoints, radialSamples)
        && created == Some(|waypointsParent.children|)
    {
      if trackCollider.None? || waypointPrefab.None? || waypointsParent == null {
        return None;
      }
      var parent := waypointsParent;

      parent.DestroyChildren();

      center := trackCollider.value.bounds.center;
      var count := PlaceWaypoints(parent, ph, trackCollider.value.id, numPoints, radialSamples);
      created := Some(count);
    }
  }
}
