/** The spawn batch manager of Assets/Script/GameManager.cs.

    Game objects are handles (natural numbers) in a `Scene`: `Instantiate`
    creates the next handle at a position, `Destroy` removes one and logs the
    call. A destroyed object is what the script's `monster != null` test
    rejects, so "null" is "not in `scene.live`"; the scene's objects may also be
    destroyed by others (a monster destroys itself after dying), which is why a
    tracked handle can be dead.

    `NavMesh.SamplePosition` on random candidates around the centre is the
    oracle `sample`: `sample(i)(k)` is the outcome of the `k`-th attempt of
    the `i`-th spawn, `None` for a failed sample. The invalid (NaN) position
    the retry helper returns after ten failures is `None` too. */
module Spawning {
  import opened Wrappers
  import opened Geometry

  const MaxAttempts: nat := 10

  /** The first success among attempts `0 .. n-1`, or `None`. */
  function FirstSuccess(sample: nat -> Option<Vec3>, n: nat): (r: Option<Vec3>)
  {
    if n == 0 then None
    else match FirstSuccess(sample, n - 1)
      case Some(p) => Some(p)
      case None => sample(n - 1)
  }

  /** No success is found exactly when every attempt failed. */
  lemma {:induction false} FirstSuccessFails(sample: nat -> Option<Vec3>, n: nat)
    ensures FirstSuccess(sample, n).None? <==> forall k :: 0 <= k < n ==> sample(k).None?
  {
    if n > 0 {
      FirstSuccessFails(sample, n - 1);
    }
  }

  /** An attempt that succeeds after only failures is the one found. */
  lemma {:induction false} FirstSuccessIsFirst(sample: nat -> Option<Vec3>, n: nat, k: nat)
    requires k < n && sample(k).Some?
    requires forall j :: 0 <= j < k ==> sample(j).None?
    ensures FirstSuccess(sample, n) == sample(k)
  {
    if k == n - 1 {
      FirstSuccessFails(sample, k);
    } else {
      FirstSuccessIsFirst(sample, n - 1, k);
    }
  }

  /** Conversely, a success found is some attempt's result, every earlier
      attempt having failed. */
  lemma {:induction false} FirstSuccessFound(sample: nat -> Option<Vec3>, n: nat)
    requires FirstSuccess(sample, n).Some?
    ensures exists k :: 0 <= k < n && sample(k) == FirstSuccess(sample, n)
                        && forall j :: 0 <= j < k ==> sample(j).None?
  {
    if FirstSuccess(sample, n - 1).Some? {
      FirstSuccessFound(sample, n - 1);
      var k :| 0 <= k < n - 1 && sample(k) == FirstSuccess(sample, n - 1)
               && forall j :: 0 <= j < k ==> sample(j).None?;
      assert sample(k) == FirstSuccess(sample, n);
    } else {
      FirstSuccessFails(sample, n - 1);
      assert sample(n - 1) == FirstSuccess(sample, n);
    }
  }

  /** What spawn `i` contributes: its first success, if any. */
  function SpawnedBy(row: nat -> Option<Vec3>): (r: seq<Vec3>)
  {
    match FirstSuccess(row, MaxAttempts)
    case Some(p) => [p]
    case None => []
  }

  /** The positions at which the first `n` spawns create monsters, in order. */
  function Plan(sample: nat -> nat -> Option<Vec3>, n: nat): (r: seq<Vec3>)
  {
    if n == 0 then [] else Plan(sample, n - 1) + SpawnedBy(sample(n - 1))
  }

  /** How many of the first `n` spawns found no position. */
  function Failures(sample: nat -> nat -> Option<Vec3>, n: nat): (r: nat)
  {
    if n == 0 then 0
    else Failures(sample, n - 1) + if FirstSuccess(sample(n - 1), MaxAttempts).None? then 1 else 0
  }

  /** Each failed spawn costs exactly one monster: the batch is the request
      less the failures, so never more than the request. */
  lemma {:induction false} PlanSize(sample: nat -> nat -> Option<Vec3>, n: nat)
    ensures |Plan(sample, n)| + Failures(sample, n) == n
    ensures |Plan(sample, n)| <= n
  {
    if n > 0 {
      PlanSize(sample, n - 1);
    }
  }

  /** A failure skips only its own spawn: whatever the first `n` spawns
      placed stays placed, in order, however the later spawns go. */
  lemma {:induction false} PlanPrefix(sample: nat -> nat -> Option<Vec3>, n: nat, m: nat)
    requires n <= m
    ensures Plan(sample, n) <= Plan(sample, m)
  {
    if n < m {
      PlanPrefix(sample, n, m - 1);
    }
  }

  /** Every planned position is a successful nav-mesh sample of some spawn. */
  lemma {:induction false} PlanFromSamples(sample: nat -> nat -> Option<Vec3>, n: nat, j: nat)
    requires j < |Plan(sample, n)|
    ensures exists i, k :: 0 <= i < n && 0 <= k < MaxAttempts && sample(i)(k) == Some(Plan(sample, n)[j])
  {
    var prefix := Plan(sample, n - 1);
    if j < |prefix| {
      PlanFromSamples(sample, n - 1, j);
      var i, k :| 0 <= i < n - 1 && 0 <= k < MaxAttempts && sample(i)(k) == Some(prefix[j]);
      assert sample(i)(k) == Some(Plan(sample, n)[j]);
    } else {
      FirstSuccessFound(sample(n - 1), MaxAttempts);
      var row := sample(n - 1);
      var k :| 0 <= k < MaxAttempts && row(k) == FirstSuccess(row, MaxAttempts)
               && forall i :: 0 <= i < k ==> row(i).None?;
      assert sample(n - 1)(k) == Some(Plan(sample, n)[j]);
    }
  }

  predicate Distinct(ids: seq<nat>)
  {
    forall i, j :: 0 <= i < j < |ids| ==> ids[i] != ids[j]
  }

  /** The handles of `ids` still alive in `live`, in order: the handles the
      destroy loop passes to `Destroy`. */
  function LiveOnly(ids: seq<nat>, live: set<nat>): (r: seq<nat>)
  {
    if ids == [] then []
    else LiveOnly(ids[..|ids| - 1], live) + if ids[|ids| - 1] in live then [ids[|ids| - 1]] else []
  }

  /** Among distinct handles, each live one is destroyed exactly once and no
      other handle is destroyed at all. */
  lemma {:induction false} DestroyedOnce(ids: seq<nat>, live: set<nat>, id: nat)
    requires Distinct(ids)
    ensures multiset(LiveOnly(ids, live))[id] == if id in ids && id in live then 1 else 0
  {
    if ids != [] {
      var front, last := ids[..|ids| - 1], ids[|ids| - 1];
      assert Distinct(front);
      DestroyedOnce(front, live, id);
      assert ids == front + [last];
      assert last !in front;
      assert id in ids <==> id in front || id == last;
    }
  }

  /** The scene after a spawn batch that started with nothing tracked and
      next handle `start`: the handles `ids` are the consecutive new ones,
      each alive at its planned position, and the objects that existed
      before are untouched. */
  ghost predicate Batch(ids: seq<nat>, nextId: nat, live: set<nat>, positions: map<nat, Vec3>,
                        start: nat, live0: set<nat>, positions0: map<nat, Vec3>, plan: seq<Vec3>)
  {
    && |ids| == |plan|
    && nextId == start + |ids|
    && (forall j :: 0 <= j < |ids| ==> ids[j] == start + j && ids[j] in positions && positions[ids[j]] == plan[j])
    && (forall id :: id in live <==> id in live0 || start <= id < nextId)
    && (forall id :: id in positions0 ==> id in positions && positions[id] == positions0[id])
  }

  lemma BatchGrows(ids: seq<nat>, live: set<nat>, positions: map<nat, Vec3>,
                   start: nat, live0: set<nat>, positions0: map<nat, Vec3>, plan: seq<Vec3>, at: Vec3)
    requires Batch(ids, start + |ids|, live, positions, start, live0, positions0, plan)
    requires forall id :: id in positions0 ==> id < start
    ensures Batch(ids + [start + |ids|], start + |ids| + 1, live + {start + |ids|},
                  positions[start + |ids| := at], start, live0, positions0, plan + [at])
  {
  }

  /** The objects of the scene. */
  class Scene {
    var live: set<nat>
    var positions: map<nat, Vec3>
    var nextId: nat
    /** every `Destroy` call, in order */
    var destroyed: seq<nat>

    ghost predicate Valid()
      reads this
    {
      && (forall id :: id in live ==> id in positions)
      && (forall id :: id in positions ==> id < nextId)
    }

    constructor ()
      ensures Valid() && live == {} && positions == map[] && nextId == 0 && destroyed == []
    {
      live, positions, nextId, destroyed := {}, map[], 0, [];
    }

    /** `Instantiate`: a new object at `at`. */
    method Instantiate(at: Vec3) returns (id: nat)
      requires Valid()
      modifies this`live, this`positions, this`nextId
      ensures Valid()
      ensures id == old(nextId) && nextId == old(nextId) + 1
      ensures live == old(live) + {id} && positions == old(positions)[id := at]
    {
      id := nextId;
      nextId := nextId + 1;
      live := live + {id};
      positions := positions[id := at];
    }

    /** `Destroy`: the object is gone. */
    method Destroy(id: nat)
      requires Valid()
      modifies this`live, this`destroyed
      ensures Valid()
      ensures live == old(live) - {id} && destroyed == old(destroyed) + [id]
    {
      live := live - {id};
      destroyed := destroyed + [id];
    }
  }

  class GameManager {
    const monsterCount: int
    const spawnRadius: real
    const scene: Scene
    /** `spawnedMonsters`, the handles this manager tracks */
    var spawnedMonsters: seq<nat>
    var lastSpawnCenter: Vec3

    /** Tracked handles are distinct objects of the scene. */
    ghost predicate Valid()
      reads this, scene
    {
      && scene.Valid()
      && Distinct(spawnedMonsters)
      && forall i :: 0 <= i < |spawnedMonsters| ==> spawnedMonsters[i] < scene.nextId
    }

    constructor (scene: Scene, monsterCount: int, spawnRadius: real)
      requires scene.Valid()
      ensures Valid()
      ensures this.scene == scene && this.monsterCount == monsterCount && this.spawnRadius == spawnRadius
      ensures spawnedMonsters == [] && lastSpawnCenter == Zero
    {
      this.scene := scene;
      this.monsterCount := monsterCount;
      this.spawnRadius := spawnRadius;
      spawnedMonsters := [];
      lastSpawnCenter := Zero;
    }

    /** How many times the spawn loop runs: `monsterCount`, or none when it is
        negative. */
    function Iterations(): (r: nat)
    {
      if monsterCount < 0 then 0 else monsterCount
    }

    /** Destroys the tracked batch, then runs `monsterCount` spawns, each
        creating a monster at the first successful sample of its ten attempts
        and tracking it, or creating nothing when all ten fail. Afterwards the
        manager tracks exactly the monsters this call created, at the planned
        positions. */
    method SpawnMonsters(center: Vec3, sample: nat -> nat -> Option<Vec3>)
      requires Valid()
      modifies this`spawnedMonsters, this`lastSpawnCenter, scene
      ensures Valid()
      ensures lastSpawnCenter == center
      ensures scene.destroyed == old(scene.destroyed) + LiveOnly(old(spawnedMonsters), old(scene.live))
      ensures |spawnedMonsters| == |Plan(sample, Iterations())|
      ensures scene.nextId == old(scene.nextId) + |spawnedMonsters|
      ensures forall j :: 0 <= j < |spawnedMonsters| ==>
                && spawnedMonsters[j] == old(scene.nextId) + j
                && spawnedMonsters[j] in scene.positions
                && scene.positions[spawnedMonsters[j]] == Plan(sample, Iterations())[j]
      ensures forall id :: id in scene.live <==> (id in old(scene.live) && id !in old(spawnedMonsters)) || id in spawnedMonsters
      ensures forall id :: id in old(scene.positions) ==> id in scene.positions && scene.positions[id] == old(scene.positions)[id]
    {
      lastSpawnCenter := center;
      DestroyMonsters();
      ghost var start := scene.nextId;
      SpawnBatch(sample);
      forall id: nat | start <= id < scene.nextId
        ensures id in spawnedMonsters
      {
        assert spawnedMonsters[id - start] == id;
      }
    }

    /** The spawn loop of `SpawnMonsters`, run with nothing tracked. */
    method SpawnBatch(sample: nat -> nat -> Option<Vec3>)
      requires Valid() && spawnedMonsters == []
      modifies this`spawnedMonsters, scene`live, scene`positions, scene`nextId
      ensures Valid()
      ensures Batch(spawnedMonsters, scene.nextId, scene.live, scene.positions,
                    old(scene.nextId), old(scene.live), old(scene.positions), Plan(sample, Iterations()))
    {
      ghost var start, live0, positions0 := scene.nextId, scene.live, scene.positions;
      var i := 0;
      while i < monsterCount
        invariant 0 <= i <= Iterations()
        invariant Valid()
        invariant Batch(spawnedMonsters, scene.nextId, scene.live, scene.positions, start, live0, positions0, Plan(sample, i))
      {
        ghost var ids, live, positions := spawnedMonsters, scene.live, scene.positions;
        SpawnOne(sample(i));
        assert Plan(sample, i + 1) == Plan(sample, i) + SpawnedBy(sample(i));
        if FirstSuccess(sample(i), MaxAttempts).Some? {
          var at := FirstSuccess(sample(i), MaxAttempts).value;
          BatchGrows(ids, live, positions, start, live0, positions0, Plan(sample, i), at);
          assert Plan(sample, i + 1) == Plan(sample, i) + [at];
        } else {
          assert Plan(sample, i + 1) == Plan(sample, i);
        }
        i := i + 1;
      }
    }

    /** One iteration of the spawn loop: sample a position with the retry
        helper and, unless it came back invalid, instantiate a monster there
        and track it. */
    method SpawnOne(row: nat -> Option<Vec3>)
      requires Valid()
      modifies this`spawnedMonsters, scene`live, scene`positions, scene`nextId
      ensures Valid()
      ensures FirstSuccess(row, MaxAttempts).None? ==>
        spawnedMonsters == old(spawnedMonsters) && unchanged(scene)
      ensures FirstSuccess(row, MaxAttempts).Some? ==>
        && spawnedMonsters == old(spawnedMonsters) + [old(scene.nextId)]
        && scene.nextId == old(scene.nextId) + 1
        && scene.live == old(scene.live) + {old(scene.nextId)}
        && scene.positions == old(scene.positions)[old(scene.nextId) := FirstSuccess(row, MaxAttempts).value]
    {
      var spawnPos, _ := GetRandomNavMeshPosition(row);
      if spawnPos.None? {
        return;
      }
      InstantiateTracked(spawnPos.value);
    }

    /** The body of the spawn loop for a valid position: instantiate a monster
        there and track it. */
    method InstantiateTracked(at: Vec3)
      requires Valid()
      modifies this`spawnedMonsters, scene`live, scene`positions, scene`nextId
      ensures Valid()
      ensures spawnedMonsters == old(spawnedMonsters) + [old(scene.nextId)]
      ensures scene.nextId == old(scene.nextId) + 1
      ensures scene.live == old(scene.live) + {old(scene.nextId)}
      ensures scene.positions == old(scene.positions)[old(scene.nextId) := at]
    {
      var monster := scene.Instantiate(at);
      spawnedMonsters := spawnedMonsters + [monster];
    }

    /** Destroys every tracked object that is still alive, once each, skips
        the dead ones, and stops tracking them all. */
    method DestroyMonsters()
      requires Valid()
      modifies this`spawnedMonsters, scene`live, scene`destroyed
      ensures Valid() && spawnedMonsters == []
      ensures scene.destroyed == old(scene.destroyed) + LiveOnly(old(spawnedMonsters), old(scene.live))
      ensures forall id :: id in scene.live <==> id in old(scene.live) && id !in old(spawnedMonsters)
    {
      var i := 0;
      while i < |spawnedMonsters|
        invariant 0 <= i <= |spawnedMonsters|
        invariant spawnedMonsters == old(spawnedMonsters) && Distinct(spawnedMonsters)
        invariant scene.Valid()
        invariant forall id :: id in scene.live <==> id in old(scene.live) && id !in spawnedMonsters[..i]
        invariant scene.destroyed == old(scene.destroyed) + LiveOnly(spawnedMonsters[..i], old(scene.live))
      {
        var monster := spawnedMonsters[i];
        assert spawnedMonsters[..i + 1] == spawnedMonsters[..i] + [monster];
        assert monster !in spawnedMonsters[..i];
        if monster in scene.live {
          scene.Destroy(monster);
        }
        i := i + 1;
      }
      assert spawnedMonsters[..i] == spawnedMonsters;
      spawnedMonsters := [];
    }

    /** At most ten sampling attempts; the first success is returned, and
        `None`, the invalid position, only when all ten failed. `attempts` is
        how many samples were drawn. */
    method GetRandomNavMeshPosition(sample: nat -> Option<Vec3>) returns (position: Option<Vec3>, attempts: nat)
      ensures 1 <= attempts <= MaxAttempts
      ensures position == sample(attempts - 1)
      ensures forall k :: 0 <= k < attempts - 1 ==> sample(k).None?
      ensures position.None? ==> attempts == MaxAttempts
      ensures position == FirstSuccess(sample, MaxAttempts)
    {
      var i := 0;
      while i < MaxAttempts
        invariant 0 <= i <= MaxAttempts
        invariant forall k :: 0 <= k < i ==> sample(k).None?
      {
        var hit := sample(i);
        if hit.Some? {
          FirstSuccessIsFirst(sample, MaxAttempts, i);
          return hit, i + 1;
        }
        i := i + 1;
      }
      FirstSuccessFails(sample, MaxAttempts);
      return None, MaxAttempts;
    }

    /** Creates a monster at `position` without tracking it. */
    method SpawnMonsterAtPosition(position: Vec3)
      requires Valid()
      modifies scene`live, scene`positions, scene`nextId
      ensures Valid()
      ensures scene.nextId == old(scene.nextId) + 1
      ensures scene.live == old(scene.live) + {old(scene.nextId)}
      ensures scene.positions == old(scene.positions)[old(scene.nextId) := position]
      ensures old(scene.nextId) !in spawnedMonsters
    {
      var _ := scene.Instantiate(position);
    }
  }

  /** A monster created by `SpawnMonsterAtPosition` outlives the next
      `DestroyMonsters`: the manager never destroys what it does not track. */
  method UntrackedSurvivesDestroy(manager: GameManager, position: Vec3) returns (id: nat)
    requires manager.Valid()
    modifies manager, manager.scene
    ensures manager.Valid() && |old(manager.scene.destroyed)| <= |manager.scene.destroyed|
    ensures id in manager.scene.live && manager.scene.positions[id] == position
    ensures id !in manager.scene.destroyed[|old(manager.scene.destroyed)|..]
  {
    id := manager.scene.nextId;
    manager.SpawnMonsterAtPosition(position);
    ghost var tracked := manager.spawnedMonsters;
    ghost var live := manager.scene.live;
    manager.DestroyMonsters();
    DestroyedOnce(tracked, live, id);
    assert manager.scene.destroyed[|old(manager.scene.destroyed)|..] == LiveOnly(tracked, live);
  }
}
