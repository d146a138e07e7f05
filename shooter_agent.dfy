/** The learning agent of Assets/Script/ShooterAgent.cs: its health, the reward
    log it accumulates through `AddReward`, its episode-end signals, the
    decoding of the movement part of an action and the observation vector.

    `AddReward` is modelled as appending the delta to `rewards`, and
    `EndEpisode` as counting one more episode end in `episodeEnds`; what the
    learning framework does after an episode end is not part of this model. */
module Shooter {
  import opened Geometry

  const MaxHealth: int := 10
  /** The speed `OnActionReceived` scales movement by (`speedRunning`). */
  const SpeedRunning: real := 15.0
  /** Declared beside `speedRunning` but never used by the movement decoding. */
  const SpeedWalking: real := 10.0
  /** The fixed pose that `Initialize` and `ResetAgent` put the agent at. */
  const SpawnPoint: Vec3 := Vec3(83.8, 1.8, 13.8)

  const HitPenalty: real := -8.0
  const DeathPenalty: real := -100.0
  const GoalReward: real := 100.0
  const WallPenalty: real := -1.0

  /** The discrete action value that requests a shot. */
  const FireAction: int := 1

  const GoalTag := "Goal"
  const WallTag := "Wall"

  /** `Mathf.Clamp`: below `lo` gives `lo`, otherwise above `hi` gives `hi`. */
  function Clamp(v: real, lo: real, hi: real): (r: real)
    ensures lo <= hi ==> lo <= r <= hi
    ensures lo <= v <= hi ==> r == v
    ensures v < lo ==> r == lo
    ensures lo <= v && hi < v ==> r == hi
  {
    if v < lo then lo else if v > hi then hi else v
  }

  /** The velocity `OnActionReceived` assigns for the continuous movement
      actions `actionX` (sideways) and `actionZ` (forwards): both clamped into
      [-1, 1], combined along the agent's `forward` and `right` axes, scaled by
      the running speed; the vertical component of `current` is kept so that
      gravity keeps acting. */
  function MoveVelocity(actionX: real, actionZ: real, forward: Vec3, right: Vec3, current: Vec3): (v: Vec3)
    ensures v.y == current.y
  {
    var moveX := Clamp(actionX, -1.0, 1.0);
    var moveZ := Clamp(actionZ, -1.0, 1.0);
    var movement := forward.Scale(moveZ).Plus(right.Scale(moveX)).Scale(SpeedRunning);
    Vec3(movement.x, current.y, movement.z)
  }

  /** Within [-1, 1] the actions are used as they are: the horizontal velocity
      is `(forward * actionZ + right * actionX) * speedRunning`. */
  lemma MoveVelocityInRange(actionX: real, actionZ: real, forward: Vec3, right: Vec3, current: Vec3)
    requires -1.0 <= actionX <= 1.0 && -1.0 <= actionZ <= 1.0
    ensures MoveVelocity(actionX, actionZ, forward, right, current)
         == Vec3(SpeedRunning * (actionZ * forward.x + actionX * right.x),
                 current.y,
                 SpeedRunning * (actionZ * forward.z + actionX * right.z))
  {
  }

  /** Actions beyond the unit range act as the nearest bound does. */
  lemma MoveVelocitySaturates(actionX: real, actionZ: real, forward: Vec3, right: Vec3, current: Vec3)
    ensures MoveVelocity(actionX, actionZ, forward, right, current)
         == MoveVelocity(Clamp(actionX, -1.0, 1.0), Clamp(actionZ, -1.0, 1.0), forward, right, current)
  {
  }

  /** The previous horizontal velocity has no influence: only its vertical
      component survives. */
  lemma MoveVelocityKeepsOnlyVertical(actionX: real, actionZ: real, forward: Vec3, right: Vec3, current: Vec3, other: Vec3)
    requires current.y == other.y
    ensures MoveVelocity(actionX, actionZ, forward, right, current)
         == MoveVelocity(actionX, actionZ, forward, right, other)
  {
  }

  function ObservedAgent(obs: seq<real>): Vec3
    requires |obs| >= 3
  {
    Vec3(obs[0], obs[1], obs[2])
  }

  function ObservedGoal(obs: seq<real>): Vec3
    requires |obs| >= 6
  {
    Vec3(obs[3], obs[4], obs[5])
  }

  /** The observation vector: the agent's position followed by the goal's,
      six numbers from which both positions are read back. */
  function Observation(agent: Vec3, goal: Vec3): (obs: seq<real>)
    ensures |obs| == 6
    ensures ObservedAgent(obs) == agent && ObservedGoal(obs) == goal
  {
    [agent.x, agent.y, agent.z, goal.x, goal.y, goal.z]
  }

  /** The sum of a reward log, the cumulative reward of an episode. */
  function Total(log: seq<real>): (r: real)
  {
    if log == [] then 0.0 else Total(log[..|log| - 1]) + log[|log| - 1]
  }

  lemma TotalAppend(log: seq<real>, more: seq<real>)
    ensures Total(log + more) == Total(log) + Total(more)
    decreases |more|
  {
    if more == [] {
      assert log + more == log;
    } else {
      var front, last := more[..|more| - 1], more[|more| - 1];
      assert (log + more)[..|log + more| - 1] == log + front;
      assert (log + more)[|log + more| - 1] == last;
      TotalAppend(log, front);
    }
  }

  /** The rewards one call of `TakeDamage` appends when health ends at
      `healthAfter`: the per-hit penalty, then the death penalty if health
      dropped to zero or below. */
  function DamageRewards(healthAfter: int): (log: seq<real>)
    ensures |log| >= 1 && log[0] == HitPenalty
    ensures healthAfter <= 0 <==> DeathPenalty in log
    ensures Total(log) == if healthAfter <= 0 then HitPenalty + DeathPenalty else HitPenalty
  {
    assert [HitPenalty, DeathPenalty][..1] == [HitPenalty];
    assert [HitPenalty][..0] == [];
    assert Total([HitPenalty]) == HitPenalty;
    if healthAfter <= 0 then [HitPenalty, DeathPenalty] else [HitPenalty]
  }

  class ShooterAgent {
    var currentHealth: int
    /** `transform.position` */
    var position: Vec3
    /** `Velocity`, the rigid body's linear velocity */
    var velocity: Vec3
    /** `goal.transform.position` */
    var goalPosition: Vec3
    /** every `AddReward` delta, in order */
    var rewards: seq<real>
    /** how many times `EndEpisode` was signalled */
    var episodeEnds: nat
    /** how many times `character.AgentFire` was requested */
    var fireRequests: nat

    /** The agent as the scene creates it, before `Initialize`: health is the
        field default 0. */
    constructor (position: Vec3, goalPosition: Vec3)
      ensures this.position == position && this.goalPosition == goalPosition
      ensures currentHealth == 0 && velocity == Zero
      ensures rewards == [] && episodeEnds == 0 && fireRequests == 0
    {
      this.position := position;
      this.goalPosition := goalPosition;
      currentHealth := 0;
      velocity := Zero;
      rewards := [];
      episodeEnds := 0;
      fireRequests := 0;
    }

    method Initialize()
      modifies this`position, this`currentHealth
      ensures position == SpawnPoint && currentHealth == MaxHealth
    {
      position := SpawnPoint;
      currentHealth := MaxHealth;
    }

    method OnEpisodeBegin()
      modifies this`position, this`currentHealth
      ensures position == SpawnPoint && currentHealth == MaxHealth
    {
      ResetAgent();
    }

    method ResetAgent()
      modifies this`position, this`currentHealth
      ensures position == SpawnPoint && currentHealth == MaxHealth
    {
      currentHealth := MaxHealth;
      position := SpawnPoint;
    }

    method AddReward(delta: real)
      modifies this`rewards
      ensures rewards == old(rewards) + [delta]
    {
      rewards := rewards + [delta];
    }

    method EndEpisode()
      modifies this`episodeEnds
      ensures episodeEnds == old(episodeEnds) + 1
    {
      episodeEnds := episodeEnds + 1;
    }

    /** Loses `damage` health and is penalised once per call, whatever the
        amount; at zero health or below the agent also dies. Nothing guards
        against an agent that is already at zero: every further hit dies
        again. */
    method TakeDamage(damage: int)
      modifies this`currentHealth, this`rewards, this`episodeEnds
      ensures currentHealth == old(currentHealth) - damage
      ensures rewards == old(rewards) + DamageRewards(currentHealth)
      ensures episodeEnds == old(episodeEnds) + if currentHealth <= 0 then 1 else 0
    {
      currentHealth := currentHealth - damage;
      AddReward(HitPenalty);
      if currentHealth <= 0 {
        Die();
      }
    }

    method Die()
      modifies this`rewards, this`episodeEnds
      ensures rewards == old(rewards) + [DeathPenalty]
      ensures episodeEnds == old(episodeEnds) + 1
    {
      AddReward(DeathPenalty);
      EndEpisode();
    }

    method GoalReached()
      modifies this`rewards, this`episodeEnds
      ensures rewards == old(rewards) + [GoalReward]
      ensures episodeEnds == old(episodeEnds) + 1
    {
      AddReward(GoalReward);
      EndEpisode();
    }

    /** Dispatch on the tag of the trigger entered: the goal rewards and ends
        the episode, a wall only penalises. */
    method OnTriggerEnter(tag: string)
      modifies this`rewards, this`episodeEnds
      ensures tag == GoalTag ==> rewards == old(rewards) + [GoalReward] && episodeEnds == old(episodeEnds) + 1
      ensures tag == WallTag ==> rewards == old(rewards) + [WallPenalty] && episodeEnds == old(episodeEnds)
      ensures tag != GoalTag && tag != WallTag ==> rewards == old(rewards) && episodeEnds == old(episodeEnds)
    {
      if tag == GoalTag {
        GoalReached();
      }
      if tag == WallTag {
        AddReward(WallPenalty);
      }
    }

    /** The movement and fire parts of an action: `continuous` holds the four
        continuous actions (two for movement, two for looking), `discrete` the
        fire action; `forward` and `right` are the agent's axes. */
    method OnActionReceived(continuous: seq<real>, discrete: seq<int>, forward: Vec3, right: Vec3)
      requires |continuous| >= 4 && |discrete| >= 1
      modifies this`velocity, this`fireRequests
      ensures velocity == MoveVelocity(continuous[0], continuous[1], forward, right, old(velocity))
      ensures fireRequests == old(fireRequests) + if discrete[0] == FireAction then 1 else 0
    {
      var moveX := Clamp(continuous[0], -1.0, 1.0);
      var moveZ := Clamp(continuous[1], -1.0, 1.0);
      var movement := forward.Scale(moveZ).Plus(right.Scale(moveX));
      movement := movement.Scale(SpeedRunning);
      velocity := Vec3(movement.x, velocity.y, movement.z);

      var fireAction := discrete[0];
      if fireAction == FireAction {
        fireRequests := fireRequests + 1;
      }
    }

    method CollectObservations() returns (obs: seq<real>)
      ensures obs == Observation(position, goalPosition)
    {
      obs := [];
      obs := obs + [position.x, position.y, position.z];
      obs := obs + [goalPosition.x, goalPosition.y, goalPosition.z];
    }
  }

  /** A fresh agent hit for 1, 1 and then 8 health: two plain penalties, then
      a third penalty followed by the death penalty and one episode end. */
  method DamageScenario() returns (log: seq<real>, total: real, ends: nat)
    ensures log == [HitPenalty, HitPenalty, HitPenalty, DeathPenalty]
    ensures total == -124.0 && ends == 1
  {
    var agent := new ShooterAgent(Zero, Zero);
    agent.Initialize();
    agent.TakeDamage(1);
    agent.TakeDamage(1);
    agent.TakeDamage(8);
    log, ends := agent.rewards, agent.episodeEnds;
    TotalAppend([HitPenalty, HitPenalty], [HitPenalty, DeathPenalty]);
    TotalAppend([HitPenalty], [HitPenalty]);
    TotalAppend([HitPenalty], [DeathPenalty]);
    assert log == [HitPenalty, HitPenalty] + [HitPenalty, DeathPenalty];
    total := Total(log);
  }
}
