/** The older enemy (src/enemy.ts): an active flag, a replaceable behaviour slot that `update`
    runs once per frame while the enemy is active and has a body, and the default behaviour,
    which steers horizontally towards the player at speed 4. A behaviour other than the default
    is a callback whose effect is not part of this model; running it is recorded. Velocities
    are kept symbolic (`Heading`), so no square root is taken. */
module Enemies {
  import opened Geometry
  import CharacterControllers

  const SPEED: real := 4.0
  const MAX_SPEED: real := 5.0
  /** The default behaviour stops below this horizontal distance to the player. */
  const STOP_DISTANCE: real := 0.1
  /** The mesh sits this far above the spawn point, relative to the enemy node it is
      parented to. */
  const SPAWN_LIFT: Vec3 := Vec3(0.0, 1.0, 0.0)

  /** The behaviour slot: the bound default, or a callback known by an identifier. */
  datatype Behavior = DefaultBehavior | CustomBehavior(id: nat)

  /** What the enemy hands to its body or to outside code, in order. */
  datatype Effect =
    | VelocitySet(velocity: VelocityCommand)
    /** `_clampVelocity(maxSpeed)`, inherited from the entity base class. */
    | VelocityClamped(maxSpeed: real)
    | BehaviorRan(id: nat)

  /** `position` is the enemy node's own position, which `_defaultBehavior` reads;
      `meshPosition` is the sphere mesh's local position under that node, which the
      constructor sets and the physics body moves. */
  datatype EnemyState = EnemyState(isActive: bool, behavior: Behavior, hasBody: bool, position: Vec3, meshPosition: Vec3, effects: seq<Effect>)

  /** Whether the horizontal distance is below STOP_DISTANCE, compared squared. */
  predicate TooClose(direction: Vec3) {
    HorizontalLengthSquared(direction) < STOP_DISTANCE * STOP_DISTANCE
  }

  /** For a length d >= 0, comparing squares is comparing lengths. */
  lemma SquaredComparison(d: real)
    requires d >= 0.0
    ensures d < STOP_DISTANCE <==> d * d < STOP_DISTANCE * STOP_DISTANCE
  {
    if d >= STOP_DISTANCE {
      NonNegativeProduct(d - STOP_DISTANCE, d);
      assert d * d >= STOP_DISTANCE * d >= STOP_DISTANCE * STOP_DISTANCE;
    } else {
      NonNegativeProduct(STOP_DISTANCE - d, d);
      assert d * d <= STOP_DISTANCE * d < STOP_DISTANCE * STOP_DISTANCE;
    }
  }

  lemma NonNegativeProduct(a: real, b: real)
    requires a >= 0.0 && b >= 0.0
    ensures a * b >= 0.0
  {
  }

  /** `_defaultBehavior`: the direction to the player with y zeroed; nothing when it is too
      short, otherwise its normalisation times SPEED, followed by the clamp to MAX_SPEED. */
  function DefaultSteering(enemyPosition: Vec3, playerPosition: Vec3): (r: seq<Effect>)
    ensures TooClose(Sub(playerPosition, enemyPosition)) <==> r == []
    ensures r != [] ==> r == [VelocitySet(Heading(Horizontal(Sub(playerPosition, enemyPosition)), SPEED, 0.0)), VelocityClamped(MAX_SPEED)]
  {
    var direction := Horizontal(Sub(playerPosition, enemyPosition));
    if HorizontalLengthSquared(direction) < STOP_DISTANCE * STOP_DISTANCE then []
    else [VelocitySet(Heading(direction, SPEED, 0.0)), VelocityClamped(MAX_SPEED)]
  }

  /** The default behaviour only ever steers horizontally, below the clamp, without lift. */
  lemma DefaultSteeringIsHorizontal(enemyPosition: Vec3, playerPosition: Vec3)
    ensures forall e :: e in DefaultSteering(enemyPosition, playerPosition) && e.VelocitySet? ==>
      e.velocity.direction.y == 0.0 && e.velocity.lift == 0.0 && e.velocity.speed <= MAX_SPEED
  {
  }

  /** `update`: nothing while inactive or bodiless; otherwise the behaviour in the slot runs
      once. */
  function UpdateStep(s: EnemyState, playerPosition: Vec3): (r: EnemyState)
    ensures r == s.(effects := r.effects)
    ensures !s.isActive || !s.hasBody ==> r == s
    ensures s.isActive && s.hasBody && s.behavior.CustomBehavior? ==> r.effects == s.effects + [BehaviorRan(s.behavior.id)]
    ensures s.isActive && s.hasBody && s.behavior.DefaultBehavior? ==> r.effects == s.effects + DefaultSteering(s.position, playerPosition)
  {
    if !s.isActive || !s.hasBody then s
    else match s.behavior
      case DefaultBehavior => s.(effects := s.effects + DefaultSteering(s.position, playerPosition))
      case CustomBehavior(id) => s.(effects := s.effects + [BehaviorRan(id)])
  }

  function Toggle(s: EnemyState): (r: EnemyState)
    ensures r.isActive != s.isActive && r.(isActive := s.isActive) == s
  {
    s.(isActive := !s.isActive)
  }

  function SetBehavior(s: EnemyState, b: Behavior): (r: EnemyState)
    ensures r.behavior == b && r.(behavior := s.behavior) == s
  {
    s.(behavior := b)
  }

  /** Toggling twice restores the enemy. */
  lemma ToggleTwice(s: EnemyState)
    ensures Toggle(Toggle(s)) == s
  {
  }

  /** Deactivating an active enemy makes every later update a no-op until it is toggled back. */
  lemma {:induction false} InactiveFramesChangeNothing(s: EnemyState, players: seq<Vec3>)
    requires !s.isActive
    ensures UpdateFrames(s, players) == s
  {
    if players != [] {
      InactiveFramesChangeNothing(s, players[..|players| - 1]);
    }
  }

  /** A run of updates against the given player positions. */
  function UpdateFrames(s: EnemyState, players: seq<Vec3>): EnemyState
    decreases |players|
  {
    if players == [] then s else UpdateStep(UpdateFrames(s, players[..|players| - 1]), players[|players| - 1])
  }

  /** After `setAIBehavior(b)` with b a callback, each update of an active enemy with a body runs
      b exactly once, whatever the behaviour was. */
  lemma SetBehaviorIsUsed(s: EnemyState, id: nat, players: seq<Vec3>)
    requires s.isActive && s.hasBody
    ensures var t := UpdateFrames(SetBehavior(s, CustomBehavior(id)), players);
      t.effects == s.effects + seq(|players|, _ => BehaviorRan(id))
      && t == SetBehavior(s, CustomBehavior(id)).(effects := t.effects)
    decreases |players|
  {
    if players != [] {
      var init := players[..|players| - 1];
      SetBehaviorIsUsed(s, id, init);
      assert seq(|init|, _ => BehaviorRan(id)) + [BehaviorRan(id)] == seq(|players|, _ => BehaviorRan(id));
    }
  }

  class Enemy {
    const name: string
    const player: CharacterControllers.Player
    var isActive: bool
    var behavior: Behavior
    /** Whether the entity base class gave the enemy a physics body. */
    var hasBody: bool
    /** The enemy node's own position; nothing in this model moves it. */
    var position: Vec3
    /** The mesh's local position under the node. */
    var meshPosition: Vec3
    var effects: seq<Effect>

    /** A new enemy is active, runs the default behaviour and has its body, with its mesh
        one unit above the spawn point; the node itself stays at the origin, where a new
        transform node starts. */
    constructor (name: string, player: CharacterControllers.Player, spawnPosition: Vec3)
      ensures this.name == name && this.player == player
      ensures State() == EnemyState(true, DefaultBehavior, true, Zero, Add(spawnPosition, SPAWN_LIFT), [])
    {
      this.name := name;
      this.player := player;
      isActive := true;
      behavior := DefaultBehavior;
      hasBody := true;
      position := Zero;
      meshPosition := Add(spawnPosition, SPAWN_LIFT);
      effects := [];
    }

    function State(): EnemyState
      reads this
    {
      EnemyState(isActive, behavior, hasBody, position, meshPosition, effects)
    }

    method Update()
      modifies this
      ensures State() == UpdateStep(old(State()), player.position)
    {
      if !isActive || !hasBody {
        return;
      }
      match behavior
      case DefaultBehavior =>
        var direction := Horizontal(Sub(player.position, position));
        if HorizontalLengthSquared(direction) < STOP_DISTANCE * STOP_DISTANCE {
          return;
        }
        effects := effects + [VelocitySet(Heading(direction, SPEED, 0.0))];
        effects := effects + [VelocityClamped(MAX_SPEED)];
      case CustomBehavior(id) =>
        effects := effects + [BehaviorRan(id)];
    }

    method ToggleActiveState()
      modifies this
      ensures State() == Toggle(old(State()))
    {
      isActive := !isActive;
    }

    method SetAIBehavior(b: Behavior)
      modifies this
      ensures State() == SetBehavior(old(State()), b)
    {
      behavior := b;
    }
  }
}
