# Monster shooter training arena: a Dafny model

The repository is a Unity scene for training a first-person shooter agent
with ML-Agents. This project models the three scripts that hold its game
logic. Each one becomes a Dafny class whose fields the methods update in
place.

- **`Monster.MonsterController`** (Assets/Script/MonsterController.cs) is the hostile monster.
  - It keeps a hit counter against `maxHits`, a one-way `isDead` flag, a `canAttack` gate that is closed during an attack cooldown, and a `lastWanderTime` timestamp that gates wander re-targeting.
  - Each `Update` tick it chases, attacks or wanders, depending on how the distance to the player compares with `chaseRadius` and `attackRange`. A monster that moves fast enough then applies a step-climb correction.
  - The `Attack` coroutine is two events. `AttackStart` runs inside `Update` up to the first wait. `CooldownElapsed` is what happens when the coroutine resumes.
  - The `DestroyAfterDeath` coroutine appears only as a count of destroy requests.
- **`Shooter.ShooterAgent`** (Assets/Script/ShooterAgent.cs) is the learning agent.
  - State: integer health, the log of every reward delta (`AddReward`), a count of `EndEpisode` signals and a count of fire requests.
  - Operations: reset to the spawn pose, the damage, death, goal and wall rewards, the movement part of action decoding, and the observation vector.
- **`Spawning.GameManager`** (Assets/Script/GameManager.cs) is the spawn batch manager.
  - It destroys the batch it tracks, then runs `monsterCount` spawns.
  - Each spawn asks a retry helper for a nav-mesh position: at most ten attempts, returning the first success or an invalid sentinel. A spawn whose position is invalid creates nothing, and the loop carries on.
  - Game objects are handles in a `Spawning.Scene`. A destroyed object, which the script tests as `null`, is a handle that is no longer live.

The engine's answers are parameters of the operations that ask for them:
- the distance to the player, which `Update` requires to be the true distance between the monster's position and the player agent's position (its square is their squared distance);
- the nav-mesh agent's velocity and remaining path distance;
- the point `RandomNavSphere` returns;
- the two step-ray results (the lower ray's hit point, and whether the upper ray hit anything);
- nav-mesh samples, as `sample(i)(k)`: the outcome of attempt `k` of spawn `i`, with `None` for a failure;
- the time `now`;
- the agent's axes;
- the knockback vector.

Positions and rewards are `real`s, because the logic only compares and adds them.

Some facts of the code worth stating plainly:
- A wall costs −1 and does not end the episode (Assets/Script/ShooterAgent.cs:195-199).
- Movement is scaled by `speedRunning` (15); `speedWalking` is never used (Assets/Script/ShooterAgent.cs:23-24, 84).
- The observation vector is the agent's position followed by the goal's, and nothing else (Assets/Script/ShooterAgent.cs:66-72).
- The hit penalty is −8 per call, whatever the damage (Assets/Script/ShooterAgent.cs:163-164).
- A monster only ever targets the one object tagged "Player" (Assets/Script/MonsterController.cs:50, 59).
- An attack cooldown that elapses after the monster died sets its nav-mesh agent moving again (Assets/Script/MonsterController.cs:162, 187-188; `Monster.DeathDuringCooldown`).
- The step-climb height test has no lower bound (Assets/Script/MonsterController.cs:200), so `Monster.StepClimb` with a hit point below the feet moves the monster down (`Monster.StepClimbCanDescend`). `Update` never produces such a hit: it casts the rays along the horizontal velocity (Assets/Script/MonsterController.cs:106-109, 195-196), so the lower hit lies 0.1 above the feet and every climb from `Update` is exactly 0.15.

## Model

| member | source | states |
|---|---|---|
| Monster.MonsterController.Update | Assets/Script/MonsterController.cs:55-111 | On a dead monster it changes nothing, neither on the monster nor on the player. Within `chaseRadius` the monster runs at `runningSpeed` with the player agent's own position as its destination, and it is stopped iff it is within `attackRange`. In range with the gate open, one attack starts and the player takes one point of damage; otherwise the gate, the pending cooldown and the player are untouched. Beyond `chaseRadius` it walks, and it re-targets only when `wanderInterval` has passed and the remaining distance is under 0.5; a re-target sets `lastWanderTime` to `now`. The position changes only by the step-climb correction, and only when the squared horizontal speed exceeds 0.1; with the lower hit at the horizontal ray's height, that correction is a lift of exactly 0.15 when the step height admits the hit and the upper ray is clear, and nothing otherwise. Hit count and death are never changed. `Valid` is kept: consecutive re-targets lie at least `wanderInterval` apart, and attacks alternate with cooldowns. |
| Monster.MonsterController.constructor | Assets/Script/MonsterController.cs:12-53 | A monster as `Start` leaves it: the given settings and player agent, no hits, alive, the attack gate open, `lastWanderTime` the start time, no destroy requested, and `Valid`. |
| Monster.MonsterController.Chase | Assets/Script/MonsterController.cs:69-89 | Sets the running speed and the player agent's position as destination. Stopped iff within attack range. An attack starts exactly when in attack range with the gate open. |
| Monster.MonsterController.Wander | Assets/Script/MonsterController.cs:90-103 | Sets the walking speed. The wander point becomes the destination, and `now` the last wander time, exactly when both gates pass; otherwise neither changes. |
| Monster.MonsterController.TakeDamage | Assets/Script/MonsterController.cs:140-154 | A dead monster ignores the hit. A live one adds exactly `damage` to `hitCount` and exactly +20 to the player's reward log. It moves by the horizontal part of the knockback only, with height unchanged. Afterwards it is dead iff `hitCount >= maxHits`, and a death stops it and requests one destroy. |
| Monster.MonsterController.Die | Assets/Script/MonsterController.cs:156-165 | Leaves the monster dead with exactly one destroy request. A second call changes nothing. |
| Monster.MonsterController.AttackStart | Assets/Script/MonsterController.cs:173-186 | Callable only with the gate open. Closes the gate, stops the agent, marks a cooldown pending and deals one damage to the player, with the player's own damage bookkeeping. |
| Monster.MonsterController.CooldownElapsed | Assets/Script/MonsterController.cs:187-191 | A pending cooldown reopens the gate and sets the agent moving, without looking at `isDead`. With no pending cooldown nothing changes. |
| Monster.MonsterController.HandleStepClimb | Assets/Script/MonsterController.cs:193-210 | The new position is `StepClimb` of the old one. |
| Monster.StepClimb | Assets/Script/MonsterController.cs:195-209 | x and z never change. When the lower ray hit at `h`, `h - y <= stepHeight` and the upper ray is clear, y becomes exactly `h + 0.05`; otherwise the position is unchanged. |
| Monster.StepClimbOverLowObstacle | Assets/Script/MonsterController.cs:198-206 | For `HandleStepClimb` given a direction whose lower hit is 0.3 above the feet, with step height 0.5 and a clear upper ray, the monster is lifted by 0.35. `Update` only passes horizontal directions and never produces such a hit. |
| Monster.StepClimbCanDescend | Assets/Script/MonsterController.cs:200-206 | For `HandleStepClimb` given a direction whose lower hit is 1.0 below the feet, the hit passes the height test and the "climb" moves the monster down by 0.95. `Update` never produces such a hit. |
| Monster.HorizontalRayClimbsFixedAmount | Assets/Script/MonsterController.cs:195-206 | A lower hit at the ray's own height, 0.1 above the feet, gives a climb of exactly 0.15 whenever the step height admits it. |
| Monster.MonsterBesidePlayer | Assets/Script/MonsterController.cs:47-53 | A fresh default monster started at the initialised player's spawn point: alive, no hits, the gate open, the player at full health. |
| Monster.AttackingMonster | Assets/Script/MonsterController.cs:57-84 | One tick of that monster, at distance 0 from the player: its destination is the player's position, it is stopped with a cooldown pending, and the player has 9 health. |
| Monster.DeathDuringCooldown | Assets/Script/MonsterController.cs:140-191 | The monster of `AttackingMonster`, standing on the player it attacked, is killed by one default hit (`TakeDamage()`), and is then set moving again by its pending cooldown. The player is left with 9 health. |
| Shooter.ShooterAgent.constructor | Assets/Script/ShooterAgent.cs:21-22 | The agent before `Initialize`: the given position and goal, health the field default 0, zero velocity, no rewards, no episode end and no fire request. |
| Shooter.ShooterAgent.Initialize | Assets/Script/ShooterAgent.cs:33-40 | Health is `maxHealth` (10) and the position is the spawn point (83.8, 1.8, 13.8). |
| Shooter.ShooterAgent.OnEpisodeBegin | Assets/Script/ShooterAgent.cs:42-46 | Same reset as `ResetAgent`. |
| Shooter.ShooterAgent.ResetAgent | Assets/Script/ShooterAgent.cs:136-140 | Health is 10 and the position is the spawn point. |
| Shooter.ShooterAgent.AddReward | Assets/Script/ShooterAgent.cs:164 | The reward log gains exactly the given delta at its end. |
| Shooter.ShooterAgent.EndEpisode | Assets/Script/ShooterAgent.cs:177 | One more episode end is counted. |
| Shooter.ShooterAgent.TakeDamage | Assets/Script/ShooterAgent.cs:161-172 | Health drops by exactly `damage`. The reward log gains −8, followed by −100 iff the new health is at most 0. The episode ends once iff the new health is at most 0, with no guard against an agent that is already dead. |
| Shooter.DamageRewards | Assets/Script/ShooterAgent.cs:163-177 | The rewards of one hit start with −8. They contain −100 iff health ended at 0 or below. They sum to −108 or −8 accordingly. |
| Shooter.ShooterAgent.Die | Assets/Script/ShooterAgent.cs:174-178 | Appends −100 and ends the episode once. |
| Shooter.ShooterAgent.GoalReached | Assets/Script/ShooterAgent.cs:180-186 | Appends +100 and ends the episode once. |
| Shooter.ShooterAgent.OnTriggerEnter | Assets/Script/ShooterAgent.cs:188-200 | "Goal": +100 and one episode end. "Wall": −1 and no episode end. Any other tag: nothing. |
| Shooter.ShooterAgent.OnActionReceived | Assets/Script/ShooterAgent.cs:79-92 | The velocity is `MoveVelocity` of the first two continuous actions and the old velocity. Fire is requested iff the discrete action is 1. |
| Shooter.MoveVelocity | Assets/Script/ShooterAgent.cs:81-85 | The vertical component is the current velocity's. |
| Shooter.Clamp | Assets/Script/ShooterAgent.cs:81-82 | The result lies in [lo, hi]. It is the input when that is in range, `lo` below the range and `hi` above it. |
| Shooter.MoveVelocityInRange | Assets/Script/ShooterAgent.cs:81-85 | For actions in [−1, 1], the horizontal velocity is `15 * (forward * z + right * x)`, and the vertical component is kept. |
| Shooter.MoveVelocitySaturates | Assets/Script/ShooterAgent.cs:81-82 | Actions outside [−1, 1] act as the nearest bound. |
| Shooter.MoveVelocityKeepsOnlyVertical | Assets/Script/ShooterAgent.cs:85 | The old horizontal velocity has no influence on the new one. |
| Shooter.ShooterAgent.CollectObservations | Assets/Script/ShooterAgent.cs:66-72 | The observation is `Observation(position, goalPosition)`. |
| Shooter.Observation | Assets/Script/ShooterAgent.cs:68-69 | Six values, from which the agent's position (the first three) and the goal's (the last three) are read back. |
| Shooter.TotalAppend | Assets/Script/ShooterAgent.cs:164-176 | The cumulative reward of two concatenated logs is the sum of their totals. |
| Shooter.DamageScenario | Assets/Script/ShooterAgent.cs:161-178 | Hits of 1, 1 and 8 on a fresh agent give the log −8, −8, −8, −100: a total of −124 and one episode end. |
| Spawning.GameManager.SpawnMonsters | Assets/Script/GameManager.cs:21-39 | Sets the gizmo centre. Destroys the previously tracked live objects, in order. Afterwards the manager tracks exactly the objects this call created: consecutive new handles at the planned positions `Plan(sample, monsterCount)`, as many as planned. The live objects are the old ones less the previously tracked ones, plus the new batch. No older object moves. |
| Spawning.GameManager.SpawnBatch | Assets/Script/GameManager.cs:28-38 | The spawn loop creates, in order, one object per planned position, each new handle alive at its position, and touches no older object. |
| Spawning.GameManager.SpawnOne | Assets/Script/GameManager.cs:30-37 | On an invalid position nothing changes. Otherwise one new object is created at the first successful sample and tracked. |
| Spawning.GameManager.InstantiateTracked | Assets/Script/GameManager.cs:36-37 | One new live object at the given position, its handle appended to the tracked list. |
| Spawning.GameManager.constructor | Assets/Script/GameManager.cs:8-16 | A manager over the given scene, count and radius, tracking nothing, its gizmo centre the zero vector. |
| Spawning.GameManager.DestroyMonsters | Assets/Script/GameManager.cs:44-54 | Destroys `LiveOnly(tracked, live)`, which is each live tracked object in order and skips the dead ones. Afterwards the live set is exactly the old one less the tracked objects, and nothing is tracked. |
| Spawning.GameManager.GetRandomNavMeshPosition | Assets/Script/GameManager.cs:59-80 | Makes between one and ten attempts. It returns the last attempt's result, every earlier attempt having failed. The invalid position comes only after ten failures. The result is `FirstSuccess(sample, 10)`. |
| Spawning.GameManager.SpawnMonsterAtPosition | Assets/Script/GameManager.cs:82-85 | One new live object at `position`, which is not tracked. |
| Spawning.UntrackedSurvivesDestroy | Assets/Script/GameManager.cs:44-54 | An object made by `SpawnMonsterAtPosition` is still alive, at its position, after the next `DestroyMonsters`, and that call never destroyed it. |
| Spawning.FirstSuccessFails | Assets/Script/GameManager.cs:66-79 | The retry helper finds nothing iff every attempt failed. |
| Spawning.FirstSuccessIsFirst | Assets/Script/GameManager.cs:67-74 | A success preceded only by failures is the position returned. |
| Spawning.FirstSuccessFound | Assets/Script/GameManager.cs:67-74 | A position returned is some attempt's success, all earlier attempts having failed. |
| Spawning.PlanSize | Assets/Script/GameManager.cs:28-38 | The batch size plus the number of failed spawns is `monsterCount`, so the batch is never larger than the request. |
| Spawning.PlanPrefix | Assets/Script/GameManager.cs:31-35 | A failed spawn skips only itself: what the first `n` spawns placed is a prefix of what any later count places. |
| Spawning.PlanFromSamples | Assets/Script/GameManager.cs:30-36 | Every planned position is a successful nav-mesh sample of one of the spawns. |
| Spawning.DestroyedOnce | Assets/Script/GameManager.cs:46-52 | Among distinct tracked handles, each live one is destroyed exactly once, and no other handle is destroyed. |
| Spawning.Scene.Instantiate | Assets/Script/GameManager.cs:36 | A fresh handle, live, at the given position. |
| Spawning.Scene.Destroy | Assets/Script/GameManager.cs:50 | The handle is no longer live, and the call is logged. |

## Left out

- Camera and character orientation in `OnActionReceived` (Assets/Script/ShooterAgent.cs:94-119) is left out. It is quaternion and interpolation arithmetic, and `CameraLook.Clamp` is not part of this model.
- Monster.MonsterController.Update: the lower step ray's hit is taken to lie exactly `RayLift` above the feet, the height of the horizontal ray; the ray's length and what it may hit are parameters.
- Facing the movement direction in `Update` (Assets/Script/MonsterController.cs:62-66) needs a normalisation, which is left out.
- Monster.MonsterController.TakeDamage: the knockback is taken as given, as the engine's `hitDirection.normalized * 2`, so its magnitude of 2 is not stated.
- Shooter.MoveVelocity: its own contract states only the kept vertical component. The horizontal formula and the clamping are stated by `Shooter.MoveVelocityInRange` and `Shooter.MoveVelocitySaturates`. No speed bound is stated, because bounding a product of reals is nonlinear arithmetic.
- `RandomNavSphere`, `Physics.Raycast`, `NavMesh.SamplePosition` and `Random.insideUnitSphere` are parameters.
  - The model therefore does not capture that `RandomNavSphere` ignores whether its sample succeeded.
  - It does not bound how far spawn positions lie from the centre. A sample is taken within `spawnRadius` of a point that may already be `spawnRadius` away.
- `shoot()` (Assets/Script/ShooterAgent.cs:48-64) is never called, and its hit branch is commented out.
- The `Heuristic` keyboard mapping is left out; it is input handling.
- Agents.cs, MapManager.cs and EnvManager.cs are not part of this model: a superseded agent variant and thin wrappers over engine queries.
- Animator triggers, `Debug.Log`, gizmos and the three-second delay before a dead monster's object is destroyed are engine side effects. The delay is counted as one destroy request.
- `Destroy` takes the object out of the scene at once. Unity only removes it at the end of the frame, so `monster != null` stays true until then. For `DestroyMonsters` this makes no difference, because the tracked handles are distinct.
- What ML-Agents does after `EndEpisode` is not part of this model. It appears only as a count.
- 32-bit integer wrap-around of `hitCount` and `currentHealth`, and single-precision rounding of positions and rewards, are not modelled: integers and reals are unbounded.
- The `null` checks on the player in `Attack` are left out. The monster's player is always an agent object; the case where no object is tagged "Player" is not modelled.
- A monster's `Start` lookups (the nav-mesh agent and the object tagged "Player") are the constructor's parameters.
