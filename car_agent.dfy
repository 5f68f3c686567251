/**
 * The reinforcement-learning car that follows an ordered array of checkpoints
 * (Assets/CarAgent.cs): checkpoint cycling, and the reward terms it adds on
 * every step, on leaving the track and on hitting a wall.
 *
 * Distances from the car to the checkpoints are given as a sequence of reals
 * (distances[i] is Vector3.Distance to checkpoint i), the ray cast below the
 * car as a RayOutcome, and the forward alignment with the current target as a
 * real; the geometry that produces them is not part of this model.
 */
module CheckpointAgent {
  import opened Geometry
  import opened Indices

  /** float.MaxValue, the starting "nearest distance" of the argmin loop. */
  const FLOAT_MAX_VALUE: real := 340282346638528859811704183484516925440.0

  const STEP_PENALTY: real := -0.001
  const ALIGNMENT_SCALE: real := 0.01
  const CHECKPOINT_RADIUS: real := 5.0
  const CHECKPOINT_REWARD: real := 1.0
  const ON_TRACK_REWARD: real := 0.002
  const OFF_TRACK_PENALTY: real := -0.05
  const LOST_PENALTY: real := -0.1
  const WALL_PENALTY: real := -1.0

  /** The downward ray below the car: nothing within reach, or the tag of the collider struck. */
  datatype RayOutcome = NoHit | Hit(tag: string)

  /** What an event contributes: a reward and whether it ends the episode. */
  datatype RewardEvent = RewardEvent(reward: real, endsEpisode: bool)

  /**
   * GetNearestCheckpointIndex: the first index of least distance, found with a
   * strict comparison against a running minimum that starts at float.MaxValue;
   * 0 when no distance lies below float.MaxValue (in particular when there are
   * no checkpoints).
   */
  method GetNearestCheckpointIndex(distances: seq<real>) returns (closestIndex: nat)
    ensures |distances| > 0 ==> closestIndex < |distances|
    ensures (exists k :: 0 <= k < |distances| && distances[k] < FLOAT_MAX_VALUE) ==>
      IsEarliestMinimum(distances, closestIndex)
    ensures (forall k :: 0 <= k < |distances| ==> distances[k] >= FLOAT_MAX_VALUE) ==> closestIndex == 0
  {
    closestIndex := 0;
    var minDistance := FLOAT_MAX_VALUE;
    for i := 0 to |distances|
      invariant minDistance <= FLOAT_MAX_VALUE
      invariant forall j :: 0 <= j < i ==> minDistance <= distances[j]
      invariant minDistance == FLOAT_MAX_VALUE ==> closestIndex == 0
      invariant minDistance == FLOAT_MAX_VALUE ==> forall j :: 0 <= j < i ==> distances[j] >= FLOAT_MAX_VALUE
      invariant minDistance < FLOAT_MAX_VALUE ==> closestIndex < i && distances[closestIndex] == minDistance
      invariant minDistance < FLOAT_MAX_VALUE ==> forall j :: 0 <= j < closestIndex ==> minDistance < distances[j]
    {
      if distances[i] < minDistance {
        minDistance := distances[i];
        closestIndex := i;
      }
    }
  }

  /**
   * CheckOffTrack's classification: on a "Track"-tagged collider a small
   * reward, on any other collider a penalty, and with nothing below the car a
   * larger penalty that ends the episode.
   */
  function OffTrack(ray: RayOutcome): (e: RewardEvent)
    ensures e.endsEpisode <==> ray.NoHit?
    ensures e.reward > 0.0 <==> ray == Hit("Track")
    ensures ray == Hit("Track") ==> e.reward == ON_TRACK_REWARD
    ensures ray.Hit? && ray.tag != "Track" ==> e.reward == OFF_TRACK_PENALTY
    ensures ray.NoHit? ==> e.reward == LOST_PENALTY
  {
    match ray
    case Hit(tag) =>
      if tag == "Track" then RewardEvent(ON_TRACK_REWARD, false) else RewardEvent(OFF_TRACK_PENALTY, false)
    case NoHit => RewardEvent(LOST_PENALTY, true)
  }

  /** Being lost costs more than being on the wrong surface, which costs more than staying on track. */
  lemma OffTrackPenaltiesAreOrdered(tag: string)
    requires tag != "Track"
    ensures OffTrack(NoHit).reward < OffTrack(Hit(tag)).reward < OffTrack(Hit("Track")).reward
  {
  }

  /** OnCollisionEnter: a "Wall"-tagged collider costs a penalty and ends the episode; nothing else matters. */
  function Collision(tag: string): (e: RewardEvent)
    ensures e.endsEpisode <==> tag == "Wall"
    ensures tag == "Wall" ==> e.reward == WALL_PENALTY
    ensures tag != "Wall" ==> e.reward == 0.0
  {
    if tag == "Wall" then RewardEvent(WALL_PENALTY, true) else RewardEvent(0.0, false)
  }

  /** The shaping terms added at the start of every step, before the checkpoint and track checks. */
  function ShapingReward(checkpointCount: nat, alignment: real): (r: real)
    ensures checkpointCount == 0 ==> r == STEP_PENALTY
    ensures checkpointCount > 0 ==> r - STEP_PENALTY == ALIGNMENT_SCALE * alignment
  {
    STEP_PENALTY + (if checkpointCount > 0 then alignment * ALIGNMENT_SCALE else 0.0)
  }

  /** The checkpoint term of a step: the reward for reaching the current target. */
  function CheckpointReward(reached: bool): (r: real)
    ensures r > 0.0 <==> reached
    ensures reached ==> r == CHECKPOINT_REWARD
    ensures !reached ==> r == 0.0
  {
    if reached then CHECKPOINT_REWARD else 0.0
  }

  /**
   * With the alignment in [-1, 1] (a dot product of unit vectors), one step adds
   * between -0.111 and 1.011 to the reward, and at most 0.011 unless a checkpoint
   * was reached.
   */
  lemma StepRewardBounds(checkpointCount: nat, alignment: real, reached: bool, ray: RayOutcome)
    requires -1.0 <= alignment <= 1.0
    requires reached ==> checkpointCount > 0
    ensures var total := ShapingReward(checkpointCount, alignment) + CheckpointReward(reached) + OffTrack(ray).reward;
      && -0.111 <= total <= 1.011
      && (!reached ==> total <= 0.011)
  {
  }

  class CarAgent {
    /** checkpoints.Length: the serialized array is never reassigned. */
    const checkpointCount: nat
    var nextCheckpointIndex: int
    /** How many checkpoints have been reached since the episode began. */
    ghost var checkpointsReached: nat
    /** The cumulative reward of the current episode (GetCumulativeReward). */
    var reward: real
    /** The cumulative reward of every episode ended so far, in order. */
    var episodeRewards: seq<real>

    var position: Vec3
    var rotation: Quaternion
    var linearVelocity: Vec3
    var angularVelocity: Vec3
    var startPosition: Vec3
    var startRotation: Quaternion

    /**
     * The target index is usable, and it is where the checkpoints reached this
     * episode have taken it: k advances from checkpoint 0.
     */
    ghost predicate Valid()
      reads this
    {
      && 0 <= nextCheckpointIndex
      && (checkpointCount > 0 ==> nextCheckpointIndex == Advanced(0, checkpointCount, checkpointsReached))
      && (checkpointCount == 0 ==> nextCheckpointIndex == 0)
    }

    /** The car's pose and motion. */
    ghost function Pose(): (Vec3, Quaternion, Vec3, Vec3)
      reads this
    {
      (position, rotation, linearVelocity, angularVelocity)
    }

    /** What OnEpisodeBegin leaves: the start pose, at rest, targeting checkpoint 0. */
    ghost predicate AtEpisodeStart()
      reads this
    {
      && Pose() == (startPosition, startRotation, ZERO, ZERO)
      && nextCheckpointIndex == 0
      && checkpointsReached == 0
    }

    /**
     * A fresh agent: the start pose keeps its default values (the zero vector
     * and the all-zero quaternion) until Initialize records the real one.
     */
    constructor (checkpointCount: nat, position: Vec3, rotation: Quaternion)
      ensures Valid()
      ensures this.checkpointCount == checkpointCount && nextCheckpointIndex == 0
      ensures reward == 0.0 && episodeRewards == []
      ensures this.position == position && this.rotation == rotation
      ensures linearVelocity == ZERO && angularVelocity == ZERO
      ensures startPosition == ZERO && startRotation == ZERO_QUATERNION
    {
      this.checkpointCount := checkpointCount;
      nextCheckpointIndex := 0;
      checkpointsReached := 0;
      reward := 0.0;
      episodeRewards := [];
      this.position := position;
      this.rotation := rotation;
      linearVelocity := ZERO;
      angularVelocity := ZERO;
      startPosition := ZERO;
      startRotation := ZERO_QUATERNION;
    }

    /** Remembers the pose the car starts every episode from. */
    method Initialize()
      modifies this`startPosition, this`startRotation
      ensures startPosition == position && startRotation == rotation
    {
      startPosition := position;
      startRotation := rotation;
    }

    /** Puts the car back on its start pose at rest and targets the first checkpoint. */
    method OnEpisodeBegin()
      modifies this`position, this`rotation, this`linearVelocity, this`angularVelocity
      modifies this`nextCheckpointIndex, this`checkpointsReached
      ensures Valid() && AtEpisodeStart()
    {
      position := startPosition;
      rotation := startRotation;
      linearVelocity := ZERO;
      angularVelocity := ZERO;
      nextCheckpointIndex := 0;
      checkpointsReached := 0;
    }

    /**
     * EndEpisode as ML-Agents performs it: the episode's cumulative reward is
     * recorded and reset to zero, and OnEpisodeBegin runs before it returns.
     */
    method EndEpisode()
      modifies this`reward, this`episodeRewards
      modifies this`position, this`rotation, this`linearVelocity, this`angularVelocity
      modifies this`nextCheckpointIndex, this`checkpointsReached
      ensures episodeRewards == old(episodeRewards) + [old(reward)] && reward == 0.0
      ensures Valid() && AtEpisodeStart()
    {
      episodeRewards := episodeRewards + [reward];
      reward := 0.0;
      OnEpisodeBegin();
    }

    /** AddReward. */
    method AddReward(r: real)
      modifies this`reward
      ensures reward == old(reward) + r
    {
      reward := reward + r;
    }

    /**
     * Within 5 units of the current target: reward 1 and target the next
     * checkpoint, wrapping round to the first; with no checkpoints nothing happens.
     */
    method CheckCheckpointReached(distances: seq<real>) returns (reached: bool)
      requires Valid() && |distances| == checkpointCount
      modifies this`reward, this`nextCheckpointIndex, this`checkpointsReached
      ensures Valid()
      ensures reached <==> checkpointCount > 0 && distances[old(nextCheckpointIndex)] < CHECKPOINT_RADIUS
      ensures reward == old(reward) + CheckpointReward(reached)
      ensures nextCheckpointIndex ==
        if reached then NextIndex(old(nextCheckpointIndex), checkpointCount) else old(nextCheckpointIndex)
      ensures checkpointsReached == old(checkpointsReached) + if reached then 1 else 0
    {
      reached := false;
      if checkpointCount == 0 {
        return;
      }
      if distances[nextCheckpointIndex] < CHECKPOINT_RADIUS {
        reached := true;
        AddReward(CHECKPOINT_REWARD);
        nextCheckpointIndex := NextIndex(nextCheckpointIndex, checkpointCount);
        checkpointsReached := checkpointsReached + 1;
      }
    }

    /**
     * Rewards or penalises what lies below the car. With nothing below it the
     * episode ends: its reward, penalty included, is recorded and the car is
     * reset to the start of a new episode.
     */
    method CheckOffTrack(ray: RayOutcome)
      requires Valid()
      modifies this`reward, this`episodeRewards
      modifies this`position, this`rotation, this`linearVelocity, this`angularVelocity
      modifies this`nextCheckpointIndex, this`checkpointsReached
      ensures Valid()
      ensures !OffTrack(ray).endsEpisode ==> reward == old(reward) + OffTrack(ray).reward
      ensures !OffTrack(ray).endsEpisode ==> episodeRewards == old(episodeRewards) && Pose() == old(Pose())
      ensures !OffTrack(ray).endsEpisode ==>
        nextCheckpointIndex == old(nextCheckpointIndex) && checkpointsReached == old(checkpointsReached)
      ensures OffTrack(ray).endsEpisode ==> episodeRewards == old(episodeRewards) + [old(reward) + OffTrack(ray).reward]
      ensures OffTrack(ray).endsEpisode ==> reward == 0.0 && AtEpisodeStart()
    {
      match ray
      case Hit(tag) =>
        if tag == "Track" {
          AddReward(ON_TRACK_REWARD);
        } else {
          AddReward(OFF_TRACK_PENALTY);
        }
      case NoHit =>
        AddReward(LOST_PENALTY);
        EndEpisode();
    }

    /**
     * A wall hit costs 1 and ends the episode, which records the episode's
     * reward and resets the car; any other collision is ignored.
     */
    method OnCollisionEnter(tag: string)
      requires Valid()
      modifies this`reward, this`episodeRewards
      modifies this`position, this`rotation, this`linearVelocity, this`angularVelocity
      modifies this`nextCheckpointIndex, this`checkpointsReached
      ensures Valid()
      ensures !Collision(tag).endsEpisode ==> reward == old(reward) && episodeRewards == old(episodeRewards)
      ensures !Collision(tag).endsEpisode ==> Pose() == old(Pose())
      ensures !Collision(tag).endsEpisode ==>
        nextCheckpointIndex == old(nextCheckpointIndex) && checkpointsReached == old(checkpointsReached)
      ensures Collision(tag).endsEpisode ==> episodeRewards == old(episodeRewards) + [old(reward) + Collision(tag).reward]
      ensures Collision(tag).endsEpisode ==> reward == 0.0 && AtEpisodeStart()
    {
      if tag == "Wall" {
        AddReward(WALL_PENALTY);
        EndEpisode();
      }
    }

    /**
     * One decision step (the forces it applies are not modelled): the step
     * penalty, the alignment term when there are checkpoints, then the
     * checkpoint and track checks. A step that finds nothing below the car
     * ends the episode with this step's reward included.
     */
    method OnActionReceived(alignment: real, distances: seq<real>, ray: RayOutcome) returns (reached: bool)
      requires Valid() && |distances| == checkpointCount
      modifies this`reward, this`episodeRewards
      modifies this`position, this`rotation, this`linearVelocity, this`angularVelocity
      modifies this`nextCheckpointIndex, this`checkpointsReached
      ensures Valid()
      ensures checkpointCount > 0 ==> nextCheckpointIndex == Advanced(0, checkpointCount, checkpointsReached)
      ensures reached <==> checkpointCount > 0 && distances[old(nextCheckpointIndex)] < CHECKPOINT_RADIUS
      ensures ray.Hit? ==>
        reward == old(reward) + ShapingReward(checkpointCount, alignment) + CheckpointReward(reached) + OffTrack(ray).reward
      ensures ray.Hit? ==> episodeRewards == old(episodeRewards) && Pose() == old(Pose())
      ensures ray.Hit? ==>
        nextCheckpointIndex == if reached then NextIndex(old(nextCheckpointIndex), checkpointCount) else old(nextCheckpointIndex)
      ensures ray.NoHit? ==>
        episodeRewards == old(episodeRewards) +
          [old(reward) + ShapingReward(checkpointCount, alignment) + CheckpointReward(reached) + OffTrack(ray).reward]
      ensures ray.NoHit? ==> reward == 0.0 && AtEpisodeStart()
    {
      AddReward(STEP_PENALTY);
      if checkpointCount > 0 {
        AddReward(alignment * ALIGNMENT_SCALE);
      }
      reached := CheckCheckpointReached(distances);
      CheckOffTrack(ray);
    }
  }
}
