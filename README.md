# AutoF1 racing prototype: a verified model of its discrete logic

AutoF1 is a small set of Unity scripts for a driving prototype. This project models the three pieces of it that are decided by index and branch logic rather than by the physics engine, and proves what they promise:

- **Waypoint generation** (`WaypointGenerator`, module `WaypointGeneration`): an editor tool that scans a closed track mesh. For each of `numPoints` angles it probes `radialSamples + 1` radii with downward rays. It brackets the band of samples that hit the track collider, re-probes at the band's real-valued midpoint, and places a waypoint where that re-probe hits. The rays are an oracle (`Physics`): `scan(i, j)` is the ray at angle index i and sample j, and `reprobe(i, m)` is the ray at angle index i and midpoint index m. Each reports the collider struck, so hits on scenery can be told apart from hits on the track. The parent's children are a `seq` that a countdown loop empties and the angle loop appends to.
- **Checkpoint agent** (`CarAgent`, module `CheckpointAgent`): the reinforcement-learning car. It cycles through its checkpoints and accumulates rewards: a per-step penalty, an alignment term, a checkpoint reward, a three-way off-track outcome and a wall penalty. Distances to the checkpoints are a `seq<real>`, the ray below the car is a `RayOutcome`, and the alignment is a real.
- **Waypoint follower** (`CarScript`, module `WaypointFollower`): the autopilot. It picks the nearest waypoint, using `OrderBy` (modelled as a stable insertion sort) followed by `First`. It advances cyclically when strictly within 2 units of its target, and clamps its turn and its speed.

Shared pieces are in three modules. `Indices` holds the cyclic advance `(i + 1) % len` and the "first index of least value" predicate. `Geometry` holds vectors and `Max`. `Wrappers` holds `Option` and `Result`, which stand for null references and thrown exceptions.

Two facts about the generator's inputs:
- The code does not reject a non-positive `numPoints` or `radialSamples`. A non-positive `numPoints` still clears the old waypoints and then creates none. A negative `radialSamples` takes no samples, so no waypoints are created.
- The margin added to the larger planar extent is 1.

`EndEpisode` belongs to the ML-Agents framework, whose source is not part of this model. It is modelled as that framework documents it: the episode's cumulative reward is reported and reset to zero, and `OnEpisodeBegin` runs before `EndEpisode` returns. So a step that loses the track, or a wall hit, leaves the car at its start pose, targeting checkpoint 0, inside the same call.

## Model

| member | source | states |
|---|---|---|
| `WaypointGeneration.MaxRadius` | Assets/WaypointGenerator.cs:30-33 | maxRadius is at least each planar extent (x and z) plus 1, and equals one of them plus 1 |
| `Geometry.Max` | Assets/WaypointGenerator.cs:30-33 | Mathf.Max of the two extents: at least each argument, and equal to one of them |
| `WaypointGeneration.OnTrackIsTrackHit` | Assets/WaypointGenerator.cs:74-79 | a ray counts exactly when it is a hit whose collider is the track collider, wherever it struck; misses and hits on other colliders do not count |
| `WaypointGeneration.FirstHit` | Assets/WaypointGenerator.cs:68-84 | -1 exactly when no sample in 0..upTo hits the track; otherwise the least hitting sample index |
| `WaypointGeneration.LastHit` | Assets/WaypointGenerator.cs:68-84 | -1 exactly when no sample in 0..upTo hits the track; otherwise the greatest hitting sample index |
| `WaypointGeneration.ScanRadial` | Assets/WaypointGenerator.cs:68-84 | the radial loop's firstIdx/lastIdx are the least and greatest track-hitting sample indices; firstIdx = -1 exactly when nothing hit; if something hit, 0 ≤ firstIdx ≤ lastIdx ≤ radialSamples |
| `WaypointGeneration.ScanAngle` | Assets/WaypointGenerator.cs:68-111 | one angle iteration (scan, band guard, midpoint re-probe) emits exactly the waypoint the specification function `AngleWaypoint` gives |
| `WaypointGeneration.PlaceAngle` | Assets/WaypointGenerator.cs:86-110 | one angle instantiates exactly the waypoint `AngleWaypoint` gives, as the parent's last child, and nothing when it gives none |
| `WaypointGeneration.PlaceWaypoints` | Assets/WaypointGenerator.cs:60-112 | the angle loop appends exactly `Waypoints(...)` to the parent's children, in angle order, and `created` is their number |
| `WaypointGeneration.BandGuardIsImplied` | Assets/WaypointGenerator.cs:87 | once firstIdx ≥ 0, the guard lastIdx ≥ firstIdx always holds |
| `WaypointGeneration.MidIdx` | Assets/WaypointGenerator.cs:89 | the midpoint index lies within [firstIdx, lastIdx], equally far from both ends |
| `WaypointGeneration.SampleRadius` | Assets/WaypointGenerator.cs:71 | sample 0 lies at the centre (radius 0) and sample radialSamples at maxRadius |
| `WaypointGeneration.MidRadiusInRange` | Assets/WaypointGenerator.cs:89-90 | with radialSamples > 0 and maxRadius ≥ 0, the re-probe radius rMid lies in [0, maxRadius] |
| `WaypointGeneration.AngleWaypoint` | Assets/WaypointGenerator.cs:86-111 | an angle emits at most one waypoint, tagged with that angle |
| `WaypointGeneration.AngleWaypointEmitted` | Assets/WaypointGenerator.cs:86-111 | a waypoint is emitted exactly when some sample hit the track and the midpoint re-probe hit the track; it sits at the re-probe's hit point |
| `WaypointGeneration.WholeMidpointEmits` | Assets/WaypointGenerator.cs:89-98 | in a coherent scene, when the band's midpoint is a whole sample index k whose scan ray hit the track, the angle emits a waypoint at that ray's hit point: the re-probe repeats ray k |
| `WaypointGeneration.SingleSampleBandEmits` | Assets/WaypointGenerator.cs:87-98 | in a coherent scene, a band of exactly one hitting sample always emits a waypoint |
| `WaypointGeneration.Waypoints` | Assets/WaypointGenerator.cs:60-112 | at most numPoints waypoints (none for numPoints ≤ 0); every angle index is below numPoints; angle indices strictly increase along the output; each entry is what its angle's scan emits |
| `WaypointGeneration.WaypointsCoverEmittingAngles` | Assets/WaypointGenerator.cs:62-112 | angle i appears in the output exactly when i < numPoints and its scan emits a waypoint (both directions) |
| `WaypointGeneration.SceneryIsIgnored` | Assets/WaypointGenerator.cs:74-98 | hits on colliders other than the track count as misses in the scan and in the re-probe: turning them into misses leaves the output unchanged |
| `WaypointGeneration.SameHitsSameBand` | Assets/WaypointGenerator.cs:68-84 | two scenes that agree on which samples hit the track give the same firstIdx and lastIdx |
| `WaypointGeneration.Transform.DestroyChild` | Assets/WaypointGenerator.cs:53-55 | destroying child idx removes exactly that child and keeps the sibling order of the rest |
| `WaypointGeneration.Transform.DestroyChildren` | Assets/WaypointGenerator.cs:50-57 | the countdown from childCount-1 to 0, last sibling first, leaves the parent with no children |
| `WaypointGeneration.Transform.AddChild` | Assets/WaypointGenerator.cs:102-107 | an instantiated waypoint becomes the parent's last child |
| `WaypointGeneration.WaypointGenerator.constructor` | Assets/WaypointGenerator.cs:12-22 | the inspector defaults: 100 points, ray height 10, 50 radial samples, and no track collider before OnValidate |
| `WaypointGeneration.WaypointGenerator.OnValidate` | Assets/WaypointGenerator.cs:24-35 | trackCollider becomes the attached mesh collider; if one is present, center and maxRadius are taken from its bounds; otherwise they keep their values |
| `WaypointGeneration.WaypointGenerator.Ready` | Assets/WaypointGenerator.cs:41 | generation is ready exactly when the guard finds none of trackCollider, waypointPrefab and waypointsParent null |
| `WaypointGeneration.WaypointGenerator.GenerateWaypoints` | Assets/WaypointGenerator.cs:38-118 | with a collider, prefab or parent missing, nothing is removed or created and no count is reported. Otherwise every old child is removed before any waypoint is created, the parent ends holding exactly `Waypoints(...)` in angle order, center is reset from the collider's bounds, and the reported count equals the number created |
| `Indices.NextIndex` | Assets/CarAgent.cs:149 | for an index in range, `(i + 1) % len` stays in range: it is i + 1, or 0 after the last index |
| `Indices.Advanced` | Assets/CarScript.cs:56-59 | any number of successive advances stays in [0, len) |
| `Indices.AdvancedWithinLap` | Assets/CarAgent.cs:149 | within one lap, k advances shift the index by k and wrap round at most once |
| `Indices.AdvancedComposes` | Assets/CarScript.cs:58 | advancing a + b times equals advancing a times, then b times |
| `Indices.LapReturnsToStart` | Assets/CarAgent.cs:149 | len advances bring the target index back to where it started |
| `Indices.AdvancedIsPeriodic` | Assets/CarScript.cs:58 | the cycle has period len |
| `Indices.LapVisitsEveryIndex` | Assets/CarAgent.cs:149 | every checkpoint (or waypoint) index is reached within one lap, from any start |
| `CheckpointAgent.GetNearestCheckpointIndex` | Assets/CarAgent.cs:49-64 | if some distance is below float.MaxValue, returns an index of least distance, and ties go to the earliest index (strict `<`); otherwise, including when there are no checkpoints, returns 0 |
| `CheckpointAgent.OffTrack` | Assets/CarAgent.cs:164-185 | a "Track"-tagged hit gives +0.002; any other hit gives -0.05; no hit gives -0.1. The episode ends exactly when nothing was hit, and the reward is positive exactly on the track |
| `CheckpointAgent.OffTrackPenaltiesAreOrdered` | Assets/CarAgent.cs:164-185 | being lost costs more than being off track, which costs more than staying on track |
| `CheckpointAgent.Collision` | Assets/CarAgent.cs:190-199 | a "Wall"-tagged collision gives -1 and ends the episode; any other collision changes nothing |
| `CheckpointAgent.CheckpointReward` | Assets/CarAgent.cs:143-145 | a step's checkpoint term is +1 exactly when the checkpoint was reached and 0 otherwise; it is positive exactly when reached |
| `CheckpointAgent.ShapingReward` | Assets/CarAgent.cs:116-126 | every step adds -0.001; the alignment term 0.01·alignment is added only when there are checkpoints |
| `CheckpointAgent.StepRewardBounds` | Assets/CarAgent.cs:116-132 | with alignment in [-1, 1], one step adds between -0.111 and 1.011, and at most 0.011 unless a checkpoint was reached |
| `CheckpointAgent.CarAgent.constructor` | Assets/CarAgent.cs:17-20 | a fresh agent targets checkpoint 0 with no reward and no ended episode; the start pose holds its default values (zero vector, all-zero quaternion) until Initialize |
| `CheckpointAgent.CarAgent.Initialize` | Assets/CarAgent.cs:23-31 | the current pose becomes the start pose |
| `CheckpointAgent.CarAgent.OnEpisodeBegin` | Assets/CarAgent.cs:34-45 | the car is back at its start pose, at rest, and targets checkpoint 0; no checkpoint has been reached in the new episode |
| `CheckpointAgent.CarAgent.EndEpisode` | Assets/CarAgent.cs:183-184 | the episode's cumulative reward is appended to the ended episodes' rewards and reset to 0, and the agent is left as OnEpisodeBegin leaves it |
| `CheckpointAgent.CarAgent.AddReward` | Assets/CarAgent.cs:145 | the current episode's cumulative reward grows by exactly the amount given |
| `CheckpointAgent.CarAgent.CheckCheckpointReached` | Assets/CarAgent.cs:136-158 | with no checkpoints nothing changes. A checkpoint is reached exactly when its distance is below 5: reward +1, and the index advances to (i+1) % len. Otherwise nothing changes. The index stays where the checkpoints reached this episode have taken it: that many advances from checkpoint 0 |
| `CheckpointAgent.CarAgent.CheckOffTrack` | Assets/CarAgent.cs:161-186 | on a hit, adds the off-track reward of the ray's outcome and changes nothing else. With nothing hit, the episode's reward with the -0.1 penalty included is recorded, the reward is reset to 0, and the car is back at its start pose targeting checkpoint 0 |
| `CheckpointAgent.CarAgent.OnCollisionEnter` | Assets/CarAgent.cs:190-199 | any collider not tagged "Wall" changes nothing. A wall records the episode's reward with the -1 penalty included, resets the reward to 0, and puts the car back at its start pose targeting checkpoint 0 |
| `CheckpointAgent.CarAgent.OnActionReceived` | Assets/CarAgent.cs:95-133 | the step's reward is the shaping terms, plus the checkpoint reward, plus the off-track term. When the ray hit something, that is added to the episode's reward, the pose is unchanged, and the index advances exactly when the current checkpoint is reached. When it hit nothing, the episode ends with that step's reward included, and the car restarts at checkpoint 0. Either way the index is the number of checkpoints reached this episode, advanced from 0 |
| `WaypointFollower.InsertByKey` | Assets/CarScript.cs:24 | insertion adds exactly x (as a multiset); the head is x when t is empty or x's key is not greater than t's head key, and t's head otherwise |
| `WaypointFollower.InsertByKeyPlacesX` | Assets/CarScript.cs:24 | insertion keeps t in order and puts x after every leading element of smaller key and in front of the first element whose key is not smaller, so x stays ahead of equal keys |
| `WaypointFollower.InsertKeepsSorted` | Assets/CarScript.cs:24 | inserting into a key-sorted sequence keeps it sorted |
| `WaypointFollower.OrderByKey` | Assets/CarScript.cs:24 | OrderBy returns a permutation of its input, sorted by key |
| `WaypointFollower.OrderByHead` | Assets/CarScript.cs:24 | the first element after OrderBy is the element at the earliest position of least key (stability decides ties) |
| `WaypointFollower.GetNearestPointIndex` | Assets/CarScript.cs:22-25 | fails (First on an empty sequence) exactly when there are no points; otherwise the earliest index of least squared distance |
| `WaypointFollower.Clamp` | Assets/CarScript.cs:47 | for min ≤ max, the result lies in [min, max]; a value already in range is returned unchanged |
| `WaypointFollower.ClampIsNearest` | Assets/CarScript.cs:50-51 | the clamped value is the point of the range nearest the input |
| `WaypointFollower.CarScript.constructor` | Assets/CarScript.cs:7-13 | the four serialized tuning values are whatever the inspector sets (the field initialisers 10/10/10/45 are only defaults); the index starts at 0 |
| `WaypointFollower.CarScript.Start` | Assets/CarScript.cs:16-19 | the target index becomes the nearest point's index; with no points the call fails and the index is unchanged |
| `WaypointFollower.CarScript.NextPoint` | Assets/CarScript.cs:56-59 | the index becomes (i+1) % points.Length and stays in [0, points.Length) |
| `WaypointFollower.CarScript.CheckDestination` | Assets/CarScript.cs:35-39 | fails when there are no points; advances the index exactly when the distance is strictly below 2, and otherwise leaves it unchanged |
| `WaypointFollower.CarScript.Move` | Assets/CarScript.cs:42-53 | the turn amount is clamped to [-maxTurnSpeed, maxTurnSpeed] and the speed to [0, maxSpeed]. With maxSpeed ≥ 0 the car never moves backward and moves at most maxSpeed per frame. It fails when there are no points |
| `WaypointFollower.CarScript.Update` | Assets/CarScript.cs:28-32 | CheckDestination, then Move. A failure in the first skips the second and changes nothing. On success the index advances exactly when the target is strictly within 2 units; the yaw grows by the clamped turn and the distance driven by the clamped speed |

## Left out

- Ray casts, colliders, tags and layers are engine calls. They are oracles: `Physics` for the generator and `RayOutcome` for the agent. The scan oracle is keyed by sample index and the re-probe oracle by midpoint index, not by world-space origin. So the sample radii `maxRadius * j / radialSamples`, `rayHeight` and the ray length `2 * rayHeight` only shape the oracle. Only the midpoint radius has a lemma (`MidRadiusInRange`, for radialSamples > 0).
- The scan and the re-probe are two independent oracles. When firstIdx + lastIdx is even, the program's re-probe casts the very ray of sample (firstIdx + lastIdx) / 2. The model ties them only under the `Coherent` predicate, which `WholeMidpointEmits` and `SingleSampleBandEmits` assume. Without it, the model allows a re-probe at a whole index that disagrees with the scan.
- With radialSamples = 0 the source divides a float by zero (a NaN radius). The model leaves the ray at that radius to the oracle.
- Angles (`2π·i/numPoints`), `Mathf.Cos/Sin`, `Quaternion.LookRotation`, `Vector3.Distance`, `sqrMagnitude`, `Dot` and `SignedAngle` are floating-point geometry. They are parameters: distances as `seq<real>`, alignment and angle as reals. A waypoint's rotation is represented by its angle index, which determines it.
- Floating-point rounding is not modelled: reward constants and clamps are exact reals. A distance of +∞ is represented by any value at or above float.MaxValue.
- Prefab instantiation, `Undo`, `MarkSceneDirty` and `Debug.Log` are editor side effects. Instantiation appends to the parent's children. The final log line's count is the method's result, and the error log is `None`. The parent's pre-existing children are modelled as waypoint values.
- ML-Agents plumbing is not modelled: `CollectObservations`, `Heuristic`, the action buffers, `AddTorque`/`AddForce`, the rigidbody's centre of mass and the velocity clamp (Assets/CarAgent.cs:109-110). `EndEpisode` keeps only what ML-Agents documents: the cumulative reward is reported (appended to `episodeRewards`) and reset, and `OnEpisodeBegin` runs. Its step counter, the done flag sent to the trainer and the agent's decision requests are not modelled.
- `CarScript.Move` keeps only the heading (yaw) and the distance driven forward, not the 3D pose. `Time.deltaTime` is a parameter.
- C#'s `int` is 32-bit and wraps around; the model's integers are unbounded. Two consequences are not captured. With `radialSamples` = int.MaxValue, the radial loop `j <= radialSamples` never ends in the source, because `j++` wraps to int.MinValue; `ScanRadial` terminates. With `firstIdx + lastIdx` beyond int.MaxValue (possible once `radialSamples` ≥ 2^30), the sum wraps negative and the re-probe lands on the far side of the centre; `MidIdx` keeps the true midpoint in [firstIdx, lastIdx].
- C#'s `%` truncates and Dafny's is Euclidean. They agree here, because both scripts only take `%` of a non-negative index.
- Assets/IAScript.cs, Assets/Move.cs and Assets/WaypointGeneratorEditor.cs are not part of this model. They hold ray-fan perception with physics forces, input-driven motion, and an inspector button that only calls `GenerateWaypoints`.
