/** The hostile monster of Assets/Script/MonsterController.cs: its per-tick
    decision between chasing, attacking and wandering, its health (a hit
    counter against a maximum), its one-way death, its cooldown-gated attack
    and its step-climbing correction.

    Engine queries are parameters of the events that use them: the distance to
    the player, the nav-mesh agent's velocity and remaining path distance, the
    point `RandomNavSphere` returns, and the results of the two step rays. The
    `Attack` coroutine is two events: `AttackStart`, which runs inside `Update`
    up to the first wait, and `CooldownElapsed`, its resumption. The
    `DestroyAfterDeath` coroutine is counted in `destroyRequests`; the removal
    of the object three seconds later is the engine's. */
module Monster {
  import opened Wrappers
  import opened Geometry
  import Shooter

  /** The inspector-serialised tuning values of a monster. */
  datatype Settings = Settings(
    maxHits: int,
    wanderRadius: real,
    wanderInterval: real,
    chaseRadius: real,
    walkingSpeed: real,
    runningSpeed: real,
    attackRange: real,
    attackCooldown: real,
    stepHeight: real,
    stepCheckDistance: real)

  /** The field initialisers of the script. */
  const Defaults := Settings(1, 10.0, 5.0, 15.0, 4.0, 6.0, 1.5, 2.16, 0.5, 0.5)

  /** The lower step ray starts this far above the monster's position. */
  const RayLift: real := 0.1
  /** A climb puts the monster this far above the lower ray's hit point. */
  const StepClearance: real := 0.05
  /** Remaining path distance under which the monster counts as arrived. */
  const ArrivalDistance: real := 0.5
  /** Squared horizontal speed above which the monster climbs steps. */
  const MinSqrSpeed: real := 0.1
  /** Damage one attack deals to the player. */
  const AttackDamage: int := 1
  /** Reward the player earns for each hit on a live monster. */
  const HitReward: real := 20.0

  /** The step-climb test: the lower ray hit something at most `stepHeight`
      above `y` (anything below `y` passes too) and the upper ray is clear. */
  predicate Climbs(y: real, stepHeight: real, lowerHit: Option<Vec3>, upperBlocked: bool)
  {
    lowerHit.Some? && lowerHit.value.y - y <= stepHeight && !upperBlocked
  }

  /** The new position after `HandleStepClimb`, given the lower ray's hit
      point (`None` when it hits nothing) and whether the upper ray hit.
      A climb sets the height to just above the hit point and never moves
      the monster sideways. */
  function StepClimb(position: Vec3, stepHeight: real, lowerHit: Option<Vec3>, upperBlocked: bool): (r: Vec3)
    ensures r.x == position.x && r.z == position.z
    ensures Climbs(position.y, stepHeight, lowerHit, upperBlocked) ==> r.y == lowerHit.value.y + StepClearance
    ensures !Climbs(position.y, stepHeight, lowerHit, upperBlocked) ==> r == position
  {
    match lowerHit
    case None => position
    case Some(hit) =>
      var obstacleHeight := hit.y;
      if obstacleHeight - position.y <= stepHeight then
        if !upperBlocked then
          var stepUpAmount := (obstacleHeight + StepClearance) - position.y;
          position.Plus(Vec3(0.0, stepUpAmount, 0.0))
        else
          position
      else
        position
  }

  /** An obstacle hit 0.3 above the feet, with a step height of 0.5 and a clear
      upper ray, lifts the monster by 0.35 in one correction. */
  lemma StepClimbOverLowObstacle(position: Vec3, hit: Vec3)
    requires hit.y == position.y + 0.3
    ensures StepClimb(position, 0.5, Some(hit), false).y == position.y + 0.35
  {
  }

  /** The height test has no lower bound: a hit point well below the feet
      passes it, and the correction then moves the monster down. */
  lemma StepClimbCanDescend(position: Vec3, hit: Vec3, stepHeight: real)
    requires stepHeight >= 0.0 && hit.y == position.y - 1.0
    ensures StepClimb(position, stepHeight, Some(hit), false).y == position.y - 0.95
  {
  }

  /** The step rays are cast horizontally, so a lower hit lies at the ray's own
      height, `RayLift` above the feet: whenever the upper ray is clear and the
      step height is at least that lift, every climb is exactly 0.15, however
      tall the obstacle is. */
  lemma HorizontalRayClimbsFixedAmount(position: Vec3, hit: Vec3, stepHeight: real)
    requires hit.y == position.y + RayLift && stepHeight >= RayLift
    ensures StepClimb(position, stepHeight, Some(hit), false).y == position.y + 0.15
  {
  }

  class MonsterController {
    const settings: Settings
    /** The `ShooterAgent` found on the object tagged "Player". */
    const playerAgent: Shooter.ShooterAgent

    var hitCount: int
    var isDead: bool
    var canAttack: bool
    var lastWanderTime: real
    /** `transform.position` */
    var position: Vec3
    /** `monsterAgent.speed` */
    var speed: real
    /** `monsterAgent.isStopped` */
    var isStopped: bool
    /** the last point passed to `monsterAgent.SetDestination` */
    var destination: Vec3
    /** an `Attack` coroutine is waiting for its cooldown */
    var cooldownPending: bool
    /** how many `DestroyAfterDeath` coroutines were started */
    var destroyRequests: nat

    /** how many attacks started, and how many cooldowns elapsed */
    ghost var attacksStarted: nat
    ghost var cooldownsElapsed: nat
    /** the times at which the monster picked a new wander destination */
    ghost var retargetTimes: seq<real>

    /** The invariant of the state machine:
        - the attack gate is closed exactly while a cooldown is pending, so
          attack starts and cooldown ends alternate;
        - a monster schedules its destruction once, when it dies, and only a
          hit count at the maximum kills it;
        - consecutive wander re-targets lie at least `wanderInterval` apart,
          and `lastWanderTime` is the last of them. */
    ghost predicate Valid()
      reads this
    {
      && canAttack == !cooldownPending
      && attacksStarted == cooldownsElapsed + (if cooldownPending then 1 else 0)
      && destroyRequests == (if isDead then 1 else 0)
      && (isDead ==> hitCount >= settings.maxHits)
      && (forall i :: 0 < i < |retargetTimes| ==> retargetTimes[i] - retargetTimes[i - 1] >= settings.wanderInterval)
      && (|retargetTimes| > 0 ==> retargetTimes[|retargetTimes| - 1] == lastWanderTime)
    }

    /** A monster as instantiated and started at time `now` at `position`,
        its nav-mesh agent moving at `navSpeed` towards where it stands. */
    constructor (settings: Settings, playerAgent: Shooter.ShooterAgent, position: Vec3, now: real, navSpeed: real)
      ensures Valid()
      ensures this.settings == settings && this.playerAgent == playerAgent
      ensures hitCount == 0 && !isDead && canAttack && lastWanderTime == now
      ensures this.position == position && speed == navSpeed && !isStopped && destination == position
      ensures destroyRequests == 0 && attacksStarted == 0 && retargetTimes == []
    {
      this.settings := settings;
      this.playerAgent := playerAgent;
      hitCount := 0;
      isDead := false;
      canAttack := true;
      lastWanderTime := now;
      this.position := position;
      speed := navSpeed;
      isStopped := false;
      destination := position;
      cooldownPending := false;
      destroyRequests := 0;
      attacksStarted := 0;
      cooldownsElapsed := 0;
      retargetTimes := [];
    }

    /** One tick at time `now`. A dead monster does nothing. Otherwise a player
        within `chaseRadius` is chased at running speed, and attacked, with the
        agent stopped, when also within `attackRange` and the attack gate is
        open; farther away the monster walks and re-targets its wander
        destination once `wanderInterval` has passed and it has nearly
        arrived. Last, a monster moving fast enough climbs steps. The step
        rays go along the horizontal velocity, so a lower hit lies at the ray's
        own height, `RayLift` above the feet, and a climb is always the same
        0.15. */
    method Update(distanceToPlayer: real, now: real, agentVelocity: Vec3,
                  remainingDistance: real, wanderPoint: Vec3, lowerHit: Option<Vec3>, upperBlocked: bool)
      requires Valid()
      requires distanceToPlayer >= 0.0 && distanceToPlayer * distanceToPlayer == position.SqrDistance(playerAgent.position)
      requires lowerHit.Some? ==> lowerHit.value.y == position.y + RayLift
      modifies this`speed, this`destination, this`isStopped, this`canAttack, this`cooldownPending, this`attacksStarted
      modifies this`lastWanderTime, this`retargetTimes, this`position
      modifies playerAgent`currentHealth, playerAgent`rewards, playerAgent`episodeEnds
      ensures Valid()
      ensures old(isDead) ==> unchanged(this) && unchanged(playerAgent)
      ensures hitCount == old(hitCount) && isDead == old(isDead) && destroyRequests == old(destroyRequests)
      // chase and attack
      ensures !old(isDead) && distanceToPlayer <= settings.chaseRadius ==>
        && speed == settings.runningSpeed
        && destination == playerAgent.position
        && (isStopped <==> distanceToPlayer <= settings.attackRange)
        && lastWanderTime == old(lastWanderTime) && retargetTimes == old(retargetTimes)
      ensures var attacks := !old(isDead) && distanceToPlayer <= settings.chaseRadius
                             && distanceToPlayer <= settings.attackRange && old(canAttack);
        && (attacks ==>
              && !canAttack && cooldownPending && attacksStarted == old(attacksStarted) + 1
              && playerAgent.currentHealth == old(playerAgent.currentHealth) - AttackDamage
              && playerAgent.rewards == old(playerAgent.rewards) + Shooter.DamageRewards(playerAgent.currentHealth)
              && playerAgent.episodeEnds == old(playerAgent.episodeEnds) + (if playerAgent.currentHealth <= 0 then 1 else 0))
        && (!attacks ==>
              && canAttack == old(canAttack) && cooldownPending == old(cooldownPending)
              && attacksStarted == old(attacksStarted) && unchanged(playerAgent))
      // wander
      ensures !old(isDead) && settings.chaseRadius < distanceToPlayer ==>
        speed == settings.walkingSpeed && isStopped == old(isStopped)
      ensures var retargets := !old(isDead) && settings.chaseRadius < distanceToPlayer
                               && now - old(lastWanderTime) >= settings.wanderInterval
                               && remainingDistance < ArrivalDistance;
        && (retargets ==>
              destination == wanderPoint && lastWanderTime == now && retargetTimes == old(retargetTimes) + [now])
        && (!retargets ==> lastWanderTime == old(lastWanderTime) && retargetTimes == old(retargetTimes))
        && (!retargets && settings.chaseRadius < distanceToPlayer ==> destination == old(destination))
      // step climbing
      ensures !old(isDead) ==>
        position == if agentVelocity.HorizontalSqrMagnitude() > MinSqrSpeed
                    then StepClimb(old(position), settings.stepHeight, lowerHit, upperBlocked)
                    else old(position)
      ensures var climbs := !old(isDead) && agentVelocity.HorizontalSqrMagnitude() > MinSqrSpeed
                            && lowerHit.Some? && RayLift <= settings.stepHeight && !upperBlocked;
        && (climbs ==> position == old(position).Plus(Vec3(0.0, RayLift + StepClearance, 0.0)))
        && (!climbs ==> position == old(position))
    {
      if isDead {
        return;
      }

      if distanceToPlayer <= settings.chaseRadius {
        Chase(distanceToPlayer);
      } else {
        Wander(now, remainingDistance, wanderPoint);
      }

      if agentVelocity.HorizontalSqrMagnitude() > MinSqrSpeed {
        HandleStepClimb(lowerHit, upperBlocked);
      }
    }

    /** The chase branch of `Update`: run towards the player, and stop and
        attack when in range with the gate open. */
    method Chase(distanceToPlayer: real)
      requires Valid() && distanceToPlayer <= settings.chaseRadius
      modifies this`speed, this`destination, this`isStopped, this`canAttack, this`cooldownPending, this`attacksStarted
      modifies playerAgent`currentHealth, playerAgent`rewards, playerAgent`episodeEnds
      ensures Valid()
      ensures speed == settings.runningSpeed && destination == playerAgent.position
      ensures isStopped <==> distanceToPlayer <= settings.attackRange
      ensures var attacks := distanceToPlayer <= settings.attackRange && old(canAttack);
        && (attacks ==>
              && !canAttack && cooldownPending && attacksStarted == old(attacksStarted) + 1
              && playerAgent.currentHealth == old(playerAgent.currentHealth) - AttackDamage
              && playerAgent.rewards == old(playerAgent.rewards) + Shooter.DamageRewards(playerAgent.currentHealth)
              && playerAgent.episodeEnds == old(playerAgent.episodeEnds) + (if playerAgent.currentHealth <= 0 then 1 else 0))
        && (!attacks ==>
              && canAttack == old(canAttack) && cooldownPending == old(cooldownPending)
              && attacksStarted == old(attacksStarted) && unchanged(playerAgent))
    {
      speed := settings.runningSpeed;
      destination := playerAgent.position;
      if distanceToPlayer <= settings.attackRange {
        isStopped := true;
        if canAttack {
          AttackStart();
        }
      } else {
        isStopped := false;
      }
    }

    /** The wander branch of `Update`: walk, and pick the sampled point as the
        new destination when `wanderInterval` has passed since the last pick
        and the current destination is nearly reached. */
    method Wander(now: real, remainingDistance: real, wanderPoint: Vec3)
      requires Valid()
      modifies this`speed, this`destination, this`lastWanderTime, this`retargetTimes
      ensures Valid()
      ensures speed == settings.walkingSpeed
      ensures var retargets := now - old(lastWanderTime) >= settings.wanderInterval && remainingDistance < ArrivalDistance;
        && (retargets ==>
              destination == wanderPoint && lastWanderTime == now && retargetTimes == old(retargetTimes) + [now])
        && (!retargets ==>
              destination == old(destination) && lastWanderTime == old(lastWanderTime) && retargetTimes == old(retargetTimes))
    {
      speed := settings.walkingSpeed;
      if now - lastWanderTime >= settings.wanderInterval && remainingDistance < ArrivalDistance {
        destination := wanderPoint;
        lastWanderTime := now;
        retargetTimes := retargetTimes + [now];
      }
    }

    /** A hit on the monster, `knockback` being the engine's
        `hitDirection.normalized * 2`. A dead monster ignores it. A live one
        counts the damage, rewards the player, is pushed along the horizontal
        part of the knockback only, and dies once the count reaches
        `maxHits`. */
    method TakeDamage(damage: int := 1, knockback: Vec3 := Zero)
      requires Valid()
      modifies this`hitCount, this`position, this`isDead, this`isStopped, this`destroyRequests, playerAgent`rewards
      ensures Valid()
      ensures old(isDead) ==> unchanged(this) && unchanged(playerAgent)
      ensures !old(isDead) ==>
        && hitCount == old(hitCount) + damage
        && playerAgent.rewards == old(playerAgent.rewards) + [HitReward]
        && position == Vec3(old(position).x + knockback.x, old(position).y, old(position).z + knockback.z)
        && (isDead <==> hitCount >= settings.maxHits)
        && (isDead ==> isStopped && destroyRequests == 1)
        && (!isDead ==> isStopped == old(isStopped) && destroyRequests == 0)
    {
      if isDead {
        return;
      }

      hitCount := hitCount + damage;
      playerAgent.AddReward(HitReward);
      position := position.Plus(Vec3(knockback.x, 0.0, knockback.z));

      if hitCount >= settings.maxHits {
        Die();
      }
    }

    /** Death, which only a hit count at the maximum brings about: the monster
        stops and schedules its destruction, once; a second call changes
        nothing. */
    method Die()
      requires Valid() && hitCount >= settings.maxHits
      modifies this`isDead, this`isStopped, this`destroyRequests
      ensures Valid() && isDead && destroyRequests == 1
      ensures old(isDead) ==> unchanged(this)
      ensures !old(isDead) ==> isStopped
    {
      if isDead {
        return;
      }
      isDead := true;
      isStopped := true;
      destroyRequests := destroyRequests + 1;
    }

    /** The `Attack` coroutine up to its wait: close the gate, stop, and
        deal one point of damage to the player. */
    method AttackStart()
      requires Valid() && canAttack
      modifies this`canAttack, this`isStopped, this`cooldownPending, this`attacksStarted
      modifies playerAgent`currentHealth, playerAgent`rewards, playerAgent`episodeEnds
      ensures Valid()
      ensures !canAttack && isStopped && cooldownPending && attacksStarted == old(attacksStarted) + 1
      ensures playerAgent.currentHealth == old(playerAgent.currentHealth) - AttackDamage
      ensures playerAgent.rewards == old(playerAgent.rewards) + Shooter.DamageRewards(playerAgent.currentHealth)
      ensures playerAgent.episodeEnds == old(playerAgent.episodeEnds) + (if playerAgent.currentHealth <= 0 then 1 else 0)
    {
      canAttack := false;
      isStopped := true;
      cooldownPending := true;
      attacksStarted := attacksStarted + 1;
      playerAgent.TakeDamage(AttackDamage);
    }

    /** The `Attack` coroutine after `attackCooldown` seconds: the agent moves
        again and the gate reopens. It does not look at `isDead`. With no
        attack pending nothing happens. */
    method CooldownElapsed()
      requires Valid()
      modifies this`canAttack, this`isStopped, this`cooldownPending, this`cooldownsElapsed
      ensures Valid()
      ensures old(cooldownPending) ==>
        canAttack && !isStopped && !cooldownPending && cooldownsElapsed == old(cooldownsElapsed) + 1
      ensures !old(cooldownPending) ==> unchanged(this)
    {
      if cooldownPending {
        isStopped := false;
        canAttack := true;
        cooldownPending := false;
        cooldownsElapsed := cooldownsElapsed + 1;
      }
    }

    /** The step-climb correction with the two ray results as inputs. */
    method HandleStepClimb(lowerHit: Option<Vec3>, upperBlocked: bool)
      modifies this`position
      ensures position == StepClimb(old(position), settings.stepHeight, lowerHit, upperBlocked)
    {
      if lowerHit.Some? {
        var obstacleHeight := lowerHit.value.y;
        if obstacleHeight - position.y <= settings.stepHeight {
          if !upperBlocked {
            var stepUpAmount := (obstacleHeight + StepClearance) - position.y;
            position := position.Plus(Vec3(0.0, stepUpAmount, 0.0));
          }
        }
      }
    }
  }

  /** A fresh monster with the default settings, started where a fresh,
      initialised player stands. */
  method MonsterBesidePlayer() returns (monster: MonsterController, player: Shooter.ShooterAgent)
    ensures fresh(monster) && fresh(player) && monster.playerAgent == player
    ensures monster.Valid() && monster.settings == Defaults
    ensures !monster.isDead && monster.hitCount == 0 && monster.canAttack
    ensures player.position == Shooter.SpawnPoint && monster.position == player.position
    ensures player.currentHealth == Shooter.MaxHealth
  {
    player := new Shooter.ShooterAgent(Zero, Zero);
    player.Initialize();
    monster := new MonsterController(Defaults, player, Shooter.SpawnPoint, 0.0, Defaults.walkingSpeed);
  }

  /** The monster of `MonsterBesidePlayer` after one tick, at distance 0 from
      the player: it chases the player, stops, and starts an attack, and the
      player loses one point of health. */
  method AttackingMonster() returns (monster: MonsterController, player: Shooter.ShooterAgent)
    ensures fresh(monster) && fresh(player) && monster.playerAgent == player
    ensures monster.Valid() && monster.settings == Defaults
    ensures !monster.isDead && monster.hitCount == 0 && monster.cooldownPending && monster.isStopped
    ensures monster.destination == player.position && player.position == Shooter.SpawnPoint
    ensures player.currentHealth == Shooter.MaxHealth - AttackDamage
  {
    monster, player := MonsterBesidePlayer();
    assert monster.position.SqrDistance(player.position) == 0.0;
    monster.Update(0.0, 0.0, Zero, 0.0, Zero, None, false);
  }

  /** A monster with the default settings attacks a player in range and is
      then killed by a single hit; its pending cooldown, which does not check
      for death, sets its nav-mesh agent moving again. */
  method DeathDuringCooldown() returns (dead: bool, stopped: bool, playerHealth: int)
    ensures dead && !stopped && playerHealth == Shooter.MaxHealth - AttackDamage
  {
    var monster, player := AttackingMonster();
    monster.TakeDamage();
    monster.CooldownElapsed();
    dead, stopped, playerHealth := monster.isDead, monster.isStopped, player.currentHealth;
  }
}
