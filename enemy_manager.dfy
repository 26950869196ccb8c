/** The older enemy manager (src/enemyManager.ts): it spawns enemies at a random inner corner
    of a room, named by their index within the spawning call, and forwards update, toggle and
    clear to every enemy it holds. `Math.random()` is an oracle: the i-th draw of a spawning call
    is `random(i)`. `dispose`, which the entity base class provides, is recorded in order. */
module EnemyManagers {
  import opened Geometry
  import opened Outcomes
  import Decimal
  import Rooms
  import Enemies
  import CharacterControllers

  /** Spawn points lie at this height. */
  const SPAWN_HEIGHT: real := 1.0
  /** Spawn corners are this far inside the room on x and z. */
  const CORNER_INSET: real := 1.0

  /** The four candidate spawn points, in the order the source lists them: near x and near z,
      far x, far z, then both far. */
  function Corners(position: Vec3, size: Vec3): (r: seq<Vec3>)
    ensures |r| == 4
    ensures forall c :: c in r ==> c.y == SPAWN_HEIGHT
    ensures forall c :: c in r ==>
      (c.x == position.x + CORNER_INSET || c.x == position.x + size.x - CORNER_INSET) &&
      (c.z == position.z + CORNER_INSET || c.z == position.z + size.z - CORNER_INSET)
  {
    var nearX := position.x + CORNER_INSET;
    var farX := position.x + size.x - CORNER_INSET;
    var nearZ := position.z + CORNER_INSET;
    var farZ := position.z + size.z - CORNER_INSET;
    [Vec3(nearX, SPAWN_HEIGHT, nearZ), Vec3(farX, SPAWN_HEIGHT, nearZ),
     Vec3(nearX, SPAWN_HEIGHT, farZ), Vec3(farX, SPAWN_HEIGHT, farZ)]
  }

  /** `Math.floor(r * 4)`: each corner owns one quarter of the unit interval. */
  function CornerIndex(r: UnitInterval): (i: nat)
    ensures i < 4
    ensures i as real <= r * 4.0 < i as real + 1.0
  {
    (r * 4.0).Floor
  }

  /** Every corner is drawn by some value of the oracle: the start of its quarter. */
  lemma EveryCornerDrawn(k: nat)
    requires k < 4
    ensures CornerIndex(k as real / 4.0) == k
  {
    var r: UnitInterval := k as real / 4.0;
    assert r * 4.0 == k as real;
  }

  /** `_getRandomSpawnPosition`. */
  function SpawnPosition(room: Rooms.Room, r: UnitInterval): (p: Vec3)
    ensures p in Corners(room.position, room.size)
  {
    Corners(room.position, room.size)[CornerIndex(r)]
  }

  /** In a room at least two units wide and deep, every spawn point lies inside the room's floor
      rectangle, one unit clear of the walls' inner faces' anchor lines. */
  lemma SpawnInsideRoom(room: Rooms.Room, r: UnitInterval)
    requires room.size.x >= 2.0 * CORNER_INSET && room.size.z >= 2.0 * CORNER_INSET
    ensures var p := SpawnPosition(room, r);
      room.position.x + CORNER_INSET <= p.x <= room.position.x + room.size.x - CORNER_INSET &&
      room.position.z + CORNER_INSET <= p.z <= room.position.z + room.size.z - CORNER_INSET &&
      p.y == SPAWN_HEIGHT
  {
    var p := SpawnPosition(room, r);
    assert p in Corners(room.position, room.size);
  }

  /** `enemy_${i}`. */
  function EnemyName(i: nat): (s: string)
    ensures |s| > 6 && s[..6] == "enemy_"
  {
    "enemy_" + Decimal.NatToString(i)
  }

  /** Enemies spawned by one call carry distinct names. */
  lemma EnemyNamesDistinct(i: nat, j: nat)
    requires i != j
    ensures EnemyName(i) != EnemyName(j)
  {
    if EnemyName(i) == EnemyName(j) {
      assert Decimal.NatToString(i) == EnemyName(i)[6..] == EnemyName(j)[6..] == Decimal.NatToString(j);
      Decimal.NatToStringInjective(i, j);
    }
  }

  /** The number of loop iterations `for (i = 0; i < amount; i++)` makes. */
  function SpawnCount(amount: int): (n: nat)
    ensures amount <= 0 ==> n == 0
    ensures amount > 0 ==> n == amount
  {
    if amount > 0 then amount else 0
  }

  /** The state a freshly spawned enemy starts in: active, with its mesh above the chosen corner
      and its node at the origin, running the supplied behaviour or the default. */
  function SpawnedState(room: Rooms.Room, r: UnitInterval, behavior: Option<Enemies.Behavior>): (s: Enemies.EnemyState)
    ensures s.isActive && s.hasBody && s.effects == []
    ensures behavior.Some? ==> s.behavior == behavior.value
    ensures behavior.None? ==> s.behavior == Enemies.DefaultBehavior
    ensures s.meshPosition == Add(SpawnPosition(room, r), Enemies.SPAWN_LIFT)
    ensures s.position == Zero
  {
    Enemies.EnemyState(true, behavior.GetOr(Enemies.DefaultBehavior), true, Zero, Add(SpawnPosition(room, r), Enemies.SPAWN_LIFT), [])
  }

  /** The first update of a freshly spawned enemy on the default behaviour steers from the
      node's position, the origin, whichever corner its mesh was placed at. */
  lemma SpawnedEnemySteersFromOrigin(room: Rooms.Room, r: UnitInterval, playerPosition: Vec3)
    ensures Enemies.UpdateStep(SpawnedState(room, r, None), playerPosition).effects
      == Enemies.DefaultSteering(Zero, playerPosition)
  {
  }

  class EnemyManager {
    const player: CharacterControllers.Player
    var enemies: seq<Enemies.Enemy>
    /** The enemies handed to `dispose`, in order. */
    var disposed: seq<Enemies.Enemy>

    /** The list holds each enemy once, and every enemy chases this manager's player. */
    predicate Valid()
      reads this, enemies
    {
      (forall i, j :: 0 <= i < j < |enemies| ==> enemies[i] != enemies[j]) &&
      (forall k :: 0 <= k < |enemies| ==> enemies[k].player == player)
    }

    constructor (player: CharacterControllers.Player)
      ensures this.player == player && enemies == [] && disposed == []
      ensures Valid()
    {
      this.player := player;
      enemies := [];
      disposed := [];
    }

    /** Whether `e` is the i-th enemy of one spawning call into `room`. */
    predicate IsSpawned(e: Enemies.Enemy, i: nat, room: Rooms.Room, behavior: Option<Enemies.Behavior>, random: nat -> UnitInterval)
      reads e
    {
      e.name == EnemyName(i) && e.player == player && e.State() == SpawnedState(room, random(i), behavior)
    }

    /** `spawnEnemies`: appends `amount` new enemies (none when amount <= 0), the i-th named
        `enemy_i` and placed by the i-th random draw; the enemies already held are kept. */
    method SpawnEnemies(room: Rooms.Room, amount: int, behavior: Option<Enemies.Behavior>, random: nat -> UnitInterval)
      requires Valid()
      modifies this
      ensures Valid()
      ensures disposed == old(disposed)
      ensures |enemies| == |old(enemies)| + SpawnCount(amount)
      ensures enemies[..|old(enemies)|] == old(enemies)
      ensures forall k :: |old(enemies)| <= k < |enemies| ==>
        fresh(enemies[k]) && IsSpawned(enemies[k], k - |old(enemies)|, room, behavior, random)
    {
      var i := 0;
      while i < amount
        invariant 0 <= i && (amount >= 0 ==> i <= amount) && (amount < 0 ==> i == 0)
        invariant |enemies| == |old(enemies)| + i
        invariant enemies[..|old(enemies)|] == old(enemies)
        invariant Valid() && disposed == old(disposed)
        invariant forall k :: |old(enemies)| <= k < |enemies| ==>
          fresh(enemies[k]) && IsSpawned(enemies[k], k - |old(enemies)|, room, behavior, random)
      {
        var spawnPosition := SpawnPosition(room, random(i));
        var enemy := new Enemies.Enemy(EnemyName(i), player, spawnPosition);
        if behavior.Some? {
          enemy.SetAIBehavior(behavior.value);
        }
        enemies := enemies + [enemy];
        i := i + 1;
      }
    }

    /** `updateEnemies`: every enemy takes one update step, against the shared player. */
    method UpdateEnemies()
      requires Valid()
      modifies set e | e in enemies
      ensures forall k :: 0 <= k < |enemies| ==>
        enemies[k].State() == Enemies.UpdateStep(old(enemies[k].State()), player.position)
    {
      for i := 0 to |enemies|
        invariant forall k :: 0 <= k < i ==>
          enemies[k].State() == Enemies.UpdateStep(old(enemies[k].State()), player.position)
        invariant forall k :: i <= k < |enemies| ==> enemies[k].State() == old(enemies[k].State())
      {
        enemies[i].Update();
      }
    }

    /** `toggleAllEnemies`: every enemy's active flag flips once. */
    method ToggleAllEnemies()
      requires Valid()
      modifies set e | e in enemies
      ensures forall k :: 0 <= k < |enemies| ==>
        enemies[k].State() == Enemies.Toggle(old(enemies[k].State()))
    {
      for i := 0 to |enemies|
        invariant forall k :: 0 <= k < i ==>
          enemies[k].State() == Enemies.Toggle(old(enemies[k].State()))
        invariant forall k :: i <= k < |enemies| ==> enemies[k].State() == old(enemies[k].State())
      {
        enemies[i].ToggleActiveState();
      }
    }

    /** `clearEnemies`: every held enemy is disposed once, in order, and the list empties. */
    method ClearEnemies()
      modifies this
      ensures enemies == [] && disposed == old(disposed) + old(enemies)
      ensures Valid()
    {
      disposed := disposed + enemies;
      enemies := [];
    }
  }
}
