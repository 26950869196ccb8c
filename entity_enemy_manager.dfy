/** The newer enemy manager (src/entities/enemy/enemyManager.ts). It spawns enemies with damage
    20 and health 100 at a random point of the room's floor mesh, or of the room's own rectangle
    inset by one unit when no floor mesh is found, and forwards update, toggle and clear to every
    enemy it holds. The scene's meshes are a parameter; `Math.random()` is an oracle, and the
    i-th enemy of a spawning call takes draws 2i (for x) and 2i + 1 (for z). */
module EntityEnemyManagers {
  import opened Geometry
  import opened Outcomes
  import Environments
  import EntityEnemies
  import PlayerControllers
  import EnemyManagers

  const ENEMY_DAMAGE: real := 20.0
  const ENEMY_HEALTH: real := 100.0
  /** A floor spawn point lies this far above the top of the floor's bounding box. */
  const FLOOR_CLEARANCE: real := 0.5
  /** A fallback spawn point lies this far above the room's position. */
  const FALLBACK_HEIGHT: real := 1.0
  /** The fallback rectangle is this far inside the room on x and z. */
  const FALLBACK_INSET: real := 1.0

  /** A world-space bounding box. */
  datatype Box = Box(minimum: Vec3, maximum: Vec3)

  /** What the spawner sees of a scene mesh: its name, its `isGround` metadata and its box. */
  datatype SceneMesh = SceneMesh(name: string, isGround: bool, bounds: Box)

  /** The floor mesh of a room is a ground mesh named `<room>_floor`. */
  predicate IsFloorOf(m: SceneMesh, roomName: string) {
    m.isGround && m.name == roomName + "_floor"
  }

  /** `meshes.find(...)` from index `start` on: the first floor mesh of the room, if any. */
  function FindFloorFrom(meshes: seq<SceneMesh>, roomName: string, start: nat): (r: Option<nat>)
    requires start <= |meshes|
    ensures r.None? <==> forall j :: start <= j < |meshes| ==> !IsFloorOf(meshes[j], roomName)
    ensures r.Some? ==> start <= r.value < |meshes| && IsFloorOf(meshes[r.value], roomName)
    ensures r.Some? ==> forall j :: start <= j < r.value ==> !IsFloorOf(meshes[j], roomName)
    decreases |meshes| - start
  {
    if start == |meshes| then None
    else if IsFloorOf(meshes[start], roomName) then Some(start)
    else FindFloorFrom(meshes, roomName, start + 1)
  }

  /** The index of the room's floor mesh in the scene, as `find` returns it. */
  function FindFloor(meshes: seq<SceneMesh>, roomName: string): (r: Option<nat>)
    ensures r.None? <==> forall j :: 0 <= j < |meshes| ==> !IsFloorOf(meshes[j], roomName)
    ensures r.Some? ==> r.value < |meshes| && IsFloorOf(meshes[r.value], roomName)
    ensures r.Some? ==> forall j :: 0 <= j < r.value ==> !IsFloorOf(meshes[j], roomName)
  {
    FindFloorFrom(meshes, roomName, 0)
  }

  /** `Math.random() * (hi - lo) + lo`. */
  function Between(r: UnitInterval, lo: real, hi: real): real {
    Portion(r, hi - lo) + lo
  }

  /** The fraction r of the width w: between 0 and w, and short of w when w is not 0. */
  function Portion(r: UnitInterval, w: real): (p: real)
    ensures w >= 0.0 ==> 0.0 <= p <= w
    ensures w > 0.0 ==> p < w
    ensures w < 0.0 ==> w < p <= 0.0
  {
    ScaledWithin(r, w);
    r * w
  }

  /** A draw lands in [lo, hi) when lo < hi, on lo when the interval is empty, and in (hi, lo]
      when the bounds are reversed. */
  lemma BetweenBounds(r: UnitInterval, lo: real, hi: real)
    ensures lo <= hi ==> lo <= Between(r, lo, hi) <= hi
    ensures lo < hi ==> Between(r, lo, hi) < hi
    ensures hi < lo ==> hi < Between(r, lo, hi) <= lo
  {
  }

  /** A fraction in [0, 1) of w lies between 0 and w, and short of w when w is not 0. */
  lemma ScaledWithin(r: UnitInterval, w: real)
    ensures w >= 0.0 ==> 0.0 <= r * w <= w
    ensures w > 0.0 ==> r * w < w
    ensures w < 0.0 ==> w < r * w <= 0.0
  {
    if w >= 0.0 {
      Product(r, w);
      Product(1.0 - r, w);
      if w > 0.0 {
        StrictProduct(1.0 - r, w);
      }
    } else {
      Product(r, -w);
      StrictProduct(1.0 - r, -w);
    }
  }

  lemma Product(a: real, b: real)
    requires a >= 0.0 && b >= 0.0
    ensures a * b >= 0.0
  {
  }

  lemma StrictProduct(a: real, b: real)
    requires a > 0.0 && b > 0.0
    ensures a * b > 0.0
  {
  }

  /** The floor path: x and z drawn over the floor's box, y just above its top. */
  function FloorSpawn(floor: Box, rx: UnitInterval, rz: UnitInterval): Vec3 {
    Vec3(Between(rx, floor.minimum.x, floor.maximum.x),
         floor.maximum.y + FLOOR_CLEARANCE,
         Between(rz, floor.minimum.z, floor.maximum.z))
  }

  /** `_manualSpawnPosition`: x and z drawn over the room's rectangle inset by one, y one unit
      above the room's position. */
  function ManualSpawn(room: Environments.RoomModel, rx: UnitInterval, rz: UnitInterval): Vec3 {
    Vec3(Between(rx, room.position.x + FALLBACK_INSET, room.position.x + room.size.x - FALLBACK_INSET),
         room.position.y + FALLBACK_HEIGHT,
         Between(rz, room.position.z + FALLBACK_INSET, room.position.z + room.size.z - FALLBACK_INSET))
  }

  /** `_getRandomSpawnPosition`: the floor path when the room's floor mesh is found, the
      fallback otherwise. */
  function SpawnPosition(meshes: seq<SceneMesh>, room: Environments.RoomModel, rx: UnitInterval, rz: UnitInterval): (p: Vec3)
    ensures FindFloor(meshes, room.name).None? ==> p == ManualSpawn(room, rx, rz)
    ensures FindFloor(meshes, room.name).Some? ==>
      p == FloorSpawn(meshes[FindFloor(meshes, room.name).value].bounds, rx, rz)
  {
    match FindFloor(meshes, room.name)
    case None => ManualSpawn(room, rx, rz)
    case Some(i) => FloorSpawn(meshes[i].bounds, rx, rz)
  }

  /** Without a ground mesh named after the room, the fallback is used. */
  lemma MissingFloorFallsBack(meshes: seq<SceneMesh>, room: Environments.RoomModel, rx: UnitInterval, rz: UnitInterval)
    requires forall j :: 0 <= j < |meshes| ==> !IsFloorOf(meshes[j], room.name)
    ensures SpawnPosition(meshes, room, rx, rz) == ManualSpawn(room, rx, rz)
  {
  }

  /** With a found floor whose box has extent on x and z, the spawn point lies in [min, max) on
      both and half a unit above the box. */
  lemma FloorSpawnInBounds(floor: Box, rx: UnitInterval, rz: UnitInterval)
    requires floor.minimum.x < floor.maximum.x && floor.minimum.z < floor.maximum.z
    ensures var p := FloorSpawn(floor, rx, rz);
      floor.minimum.x <= p.x < floor.maximum.x && floor.minimum.z <= p.z < floor.maximum.z &&
      p.y == floor.maximum.y + FLOOR_CLEARANCE
  {
    BetweenBounds(rx, floor.minimum.x, floor.maximum.x);
    BetweenBounds(rz, floor.minimum.z, floor.maximum.z);
  }

  /** In a room more than two units wide and deep, a fallback spawn point lies in
      [p + 1, p + size - 1) on x and z and one unit above the room. */
  lemma ManualSpawnInBounds(room: Environments.RoomModel, rx: UnitInterval, rz: UnitInterval)
    requires room.size.x > 2.0 * FALLBACK_INSET && room.size.z > 2.0 * FALLBACK_INSET
    ensures var p := ManualSpawn(room, rx, rz);
      room.position.x + FALLBACK_INSET <= p.x < room.position.x + room.size.x - FALLBACK_INSET &&
      room.position.z + FALLBACK_INSET <= p.z < room.position.z + room.size.z - FALLBACK_INSET &&
      p.y == room.position.y + FALLBACK_HEIGHT
  {
    BetweenBounds(rx, room.position.x + FALLBACK_INSET, room.position.x + room.size.x - FALLBACK_INSET);
    BetweenBounds(rz, room.position.z + FALLBACK_INSET, room.position.z + room.size.z - FALLBACK_INSET);
  }

  /** The calls a new enemy has received when the spawner is done with it: the behaviour, when
      one is supplied, and nothing else. */
  function SpawnCalls(behavior: Option<nat>): (r: seq<EntityEnemies.Call>)
    ensures behavior.None? <==> r == []
    ensures behavior.Some? ==> r == [EntityEnemies.BehaviorSet(behavior.value)]
  {
    match behavior
    case None => []
    case Some(id) => [EntityEnemies.BehaviorSet(id)]
  }

  class EnemyManager {
    const player: PlayerControllers.PlayerEntity
    var enemies: seq<EntityEnemies.Enemy>

    /** The list holds each enemy once. */
    predicate Valid()
      reads this
    {
      forall i, j :: 0 <= i < j < |enemies| ==> enemies[i] != enemies[j]
    }

    constructor (player: PlayerControllers.PlayerEntity)
      ensures this.player == player && enemies == [] && Valid()
    {
      this.player := player;
      enemies := [];
    }

    /** Whether `e` is the i-th enemy of one spawning call into `room`. */
    predicate IsSpawned(e: EntityEnemies.Enemy, i: nat, room: Environments.RoomModel, meshes: seq<SceneMesh>,
                        behavior: Option<nat>, random: nat -> UnitInterval)
      reads e
    {
      e.name == EnemyManagers.EnemyName(i) && e.player == player &&
      e.damage == ENEMY_DAMAGE && e.health == ENEMY_HEALTH &&
      e.position == SpawnPosition(meshes, room, random(2 * i), random(2 * i + 1)) &&
      e.calls == SpawnCalls(behavior)
    }

    /** `spawnEnemies`: appends `amount` new enemies (none when amount <= 0) and keeps the
        enemies already held. */
    method SpawnEnemies(room: Environments.RoomModel, amount: int, behavior: Option<nat>,
                        meshes: seq<SceneMesh>, random: nat -> UnitInterval)
      requires Valid()
      modifies this
      ensures Valid()
      ensures |enemies| == |old(enemies)| + EnemyManagers.SpawnCount(amount)
      ensures enemies[..|old(enemies)|] == old(enemies)
      ensures forall k :: |old(enemies)| <= k < |enemies| ==>
        fresh(enemies[k]) && IsSpawned(enemies[k], k - |old(enemies)|, room, meshes, behavior, random)
    {
      var i := 0;
      while i < amount
        invariant 0 <= i && (amount >= 0 ==> i <= amount) && (amount < 0 ==> i == 0)
        invariant |enemies| == |old(enemies)| + i
        invariant enemies[..|old(enemies)|] == old(enemies)
        invariant Valid()
        invariant forall k :: |old(enemies)| <= k < |enemies| ==>
          fresh(enemies[k]) && IsSpawned(enemies[k], k - |old(enemies)|, room, meshes, behavior, random)
      {
        var spawnPosition := SpawnPosition(meshes, room, random(2 * i), random(2 * i + 1));
        var enemy := new EntityEnemies.Enemy(EnemyManagers.EnemyName(i), player, spawnPosition, ENEMY_DAMAGE, ENEMY_HEALTH);
        if behavior.Some? {
          enemy.SetAIBehavior(behavior.value);
        }
        enemies := enemies + [enemy];
        i := i + 1;
      }
    }

    /** Whether every held enemy received exactly the call `c` since `old`, and nothing else of
        it changed. */
    twostate predicate EachReceived(c: EntityEnemies.Call)
      reads this, set e | e in enemies
    {
      enemies == old(enemies) &&
      forall k :: 0 <= k < |enemies| ==>
        enemies[k].calls == old(enemies[k].calls) + [c] &&
        enemies[k].health == old(enemies[k].health) && enemies[k].position == old(enemies[k].position)
    }

    /** `updateEnemies`: every enemy is updated once. */
    method UpdateEnemies()
      requires Valid()
      modifies set e | e in enemies
      ensures EachReceived(EntityEnemies.Updated)
    {
      for i := 0 to |enemies|
        invariant forall k :: 0 <= k < i ==>
          enemies[k].calls == old(enemies[k].calls) + [EntityEnemies.Updated] &&
          enemies[k].health == old(enemies[k].health) && enemies[k].position == old(enemies[k].position)
        invariant forall k :: i <= k < |enemies| ==>
          enemies[k].calls == old(enemies[k].calls) &&
          enemies[k].health == old(enemies[k].health) && enemies[k].position == old(enemies[k].position)
      {
        enemies[i].Update();
      }
    }

    /** `toggleAllEnemies`: every enemy is toggled once. */
    method ToggleAllEnemies()
      requires Valid()
      modifies set e | e in enemies
      ensures EachReceived(EntityEnemies.Toggled)
    {
      for i := 0 to |enemies|
        invariant forall k :: 0 <= k < i ==>
          enemies[k].calls == old(enemies[k].calls) + [EntityEnemies.Toggled] &&
          enemies[k].health == old(enemies[k].health) && enemies[k].position == old(enemies[k].position)
        invariant forall k :: i <= k < |enemies| ==>
          enemies[k].calls == old(enemies[k].calls) &&
          enemies[k].health == old(enemies[k].health) && enemies[k].position == old(enemies[k].position)
      {
        enemies[i].ToggleActiveState();
      }
    }

    /** `clearEnemies`: every held enemy is disposed once and the list empties. */
    method ClearEnemies()
      requires Valid()
      modifies this, set e | e in enemies
      ensures enemies == [] && Valid()
      ensures forall e :: e in old(enemies) ==> e.calls == old(e.calls) + [EntityEnemies.Disposed]
    {
      for i := 0 to |enemies|
        invariant enemies == old(enemies)
        invariant forall k :: 0 <= k < i ==>
          enemies[k].calls == old(enemies[k].calls) + [EntityEnemies.Disposed]
        invariant forall k :: i <= k < |enemies| ==> enemies[k].calls == old(enemies[k].calls)
      {
        enemies[i].Dispose();
      }
      enemies := [];
    }
  }
}
