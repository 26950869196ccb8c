/** Enemy decorators (src/entities/enemy/enemy-types/): a decorator is an enemy built from the
    attributes of the enemy it wraps and forwards `update` to it; the slime decorator adds a
    bounce that, once per 1.5 seconds of frame time, writes a slow horizontal velocity towards
    the player plus an upward speed of 6 to the wrapped enemy's body. The frame time is a
    parameter (`deltaMs`, what `getEngine().getDeltaTime()` returns). */
module EnemyDecorators {
  import opened Geometry
  import opened Outcomes
  import EntityEnemies
  import PlayerControllers

  const BOUNCE_INTERVAL: real := 1.5
  const BOUNCE_STRENGTH: real := 6.0
  const BOUNCE_SPEED: real := 1.5
  const SLIME_THREAT_LEVEL: real := 0.5

  /** `EnemyDecorator`, the enemy part that every decorator shares. */
  class EnemyDecorator {
    const wrapped: EntityEnemies.Enemy
    const name: string
    const player: PlayerControllers.PlayerEntity
    const damage: real
    var health: real
    /** The decorator's own entity position, copied from the wrapped enemy when it is built. */
    var position: Vec3

    /** Built from the wrapped enemy's name, player, position, damage and health, keeping a
        reference to it and leaving it as it was. */
    constructor (enemy: EntityEnemies.Enemy)
      ensures wrapped == enemy
      ensures name == enemy.name && player == enemy.player && position == enemy.position
      ensures damage == enemy.damage && health == enemy.health
      ensures unchanged(enemy)
    {
      wrapped := enemy;
      name := enemy.name;
      player := enemy.player;
      position := enemy.position;
      damage := enemy.damage;
      health := enemy.health;
    }

    /** `update`: the wrapped enemy is updated once; the decorator itself changes nothing. */
    method Update()
      modifies wrapped
      ensures wrapped.calls == old(wrapped.calls) + [EntityEnemies.Updated]
      ensures wrapped.health == old(wrapped.health) && wrapped.position == old(wrapped.position)
    {
      wrapped.Update();
    }
  }

  /** One bounce-timer step: the new timer and the velocity written, if any. */
  datatype BounceStep = BounceStep(timer: real, velocity: Option<VelocityCommand>)

  /** The timer grows by the frame time in seconds; reaching the interval resets it and writes
      the bounce: the horizontal direction from `own` to `target` at speed 1.5, lifted by 6. */
  function Bounce(timer: real, deltaMs: real, own: Vec3, target: Vec3): (r: BounceStep)
    ensures r.velocity.None? <==> timer + deltaMs / 1000.0 < BOUNCE_INTERVAL
    ensures r.velocity.None? ==> r.timer == timer + deltaMs / 1000.0
    ensures r.velocity.Some? ==> r.timer == 0.0
    ensures r.velocity.Some? ==> r.velocity.value.direction.y == 0.0
    ensures r.velocity.Some? ==> r.velocity.value == Heading(Horizontal(Sub(target, own)), BOUNCE_SPEED, BOUNCE_STRENGTH)
  {
    var grown := timer + deltaMs / 1000.0;
    if grown >= BOUNCE_INTERVAL then BounceStep(0.0, Some(Heading(Horizontal(Sub(target, own)), BOUNCE_SPEED, BOUNCE_STRENGTH)))
    else BounceStep(grown, None)
  }

  /** With a non-negative frame time, a timer in [0, 1.5) stays in [0, 1.5). */
  lemma BounceTimerInRange(timer: real, deltaMs: real, own: Vec3, target: Vec3)
    requires 0.0 <= timer < BOUNCE_INTERVAL && deltaMs >= 0.0
    ensures 0.0 <= Bounce(timer, deltaMs, own, target).timer < BOUNCE_INTERVAL
  {
  }

  /** The calls the bounce adds to the wrapped enemy's log. */
  function BounceCalls(step: BounceStep): (r: seq<EntityEnemies.Call>)
    ensures step.velocity.None? <==> r == []
    ensures step.velocity.Some? ==> r == [EntityEnemies.VelocitySet(step.velocity.value)]
  {
    match step.velocity
    case None => []
    case Some(v) => [EntityEnemies.VelocitySet(v)]
  }

  /** A run of frames with the given frame times: the timer after them and the number of
      bounces (whether a frame bounces does not depend on the positions). */
  function Frames(timer: real, deltas: seq<real>): (r: (real, nat))
    decreases |deltas|
  {
    if deltas == [] then (timer, 0)
    else
      var (t, n) := Frames(timer, deltas[..|deltas| - 1]);
      var step := Bounce(t, deltas[|deltas| - 1], Zero, Zero);
      (step.timer, n + if step.velocity.Some? then 1 else 0)
  }

  /** Over frames with non-negative times, the timer stays in [0, 1.5) and the slime bounces at
      most once per frame. */
  lemma {:induction false} FramesKeepTimerInRange(timer: real, deltas: seq<real>)
    requires 0.0 <= timer < BOUNCE_INTERVAL
    requires forall i :: 0 <= i < |deltas| ==> deltas[i] >= 0.0
    ensures 0.0 <= Frames(timer, deltas).0 < BOUNCE_INTERVAL
    ensures Frames(timer, deltas).1 <= |deltas|
    decreases |deltas|
  {
    if deltas != [] {
      FramesKeepTimerInRange(timer, deltas[..|deltas| - 1]);
    }
  }

  /** `SlimeEnemyDecorator`: the decorator part, the bounce timer and the threat level. */
  class SlimeEnemyDecorator {
    const base: EnemyDecorator
    var bounceTimer: real
    const threatLevel: real

    constructor (enemy: EntityEnemies.Enemy)
      ensures fresh(base) && base.wrapped == enemy
      ensures base.name == enemy.name && base.player == enemy.player && base.position == enemy.position
      ensures base.damage == enemy.damage && base.health == enemy.health
      ensures bounceTimer == 0.0 && threatLevel == SLIME_THREAT_LEVEL
      ensures unchanged(enemy)
    {
      base := new EnemyDecorator(enemy);
      bounceTimer := 0.0;
      threatLevel := SLIME_THREAT_LEVEL;
    }

    /** `update`: the base update first (which updates the wrapped enemy), then the bounce,
        measured from the decorator's own position and written to the wrapped enemy's body. */
    method Update(deltaMs: real)
      modifies this, base.wrapped
      ensures var step := Bounce(old(bounceTimer), deltaMs, base.position, base.wrapped.player.position);
        bounceTimer == step.timer &&
        base.wrapped.calls == old(base.wrapped.calls) + [EntityEnemies.Updated] + BounceCalls(step)
      ensures base.wrapped.health == old(base.wrapped.health) && base.wrapped.position == old(base.wrapped.position)
    {
      base.Update();
      bounceTimer := bounceTimer + deltaMs / 1000.0;
      if bounceTimer >= BOUNCE_INTERVAL {
        bounceTimer := 0.0;
        var direction := Horizontal(Sub(base.wrapped.player.position, base.position));
        base.wrapped.SetLinearVelocity(Heading(direction, BOUNCE_SPEED, BOUNCE_STRENGTH));
      }
    }
  }

  /** A stack of decorators around an enemy, for any nesting: the innermost enemy counts its
      updates, a plain decorator forwards, and a slime decorator forwards and then steps its
      timer (its bounce target is not tracked here). */
  datatype EnemyStack =
    | Core(updates: nat)
    | Plain(inner: EnemyStack)
    | Slime(timer: real, inner: EnemyStack)

  function StackUpdate(s: EnemyStack, deltaMs: real): EnemyStack {
    match s
    case Core(n) => Core(n + 1)
    case Plain(inner) => Plain(StackUpdate(inner, deltaMs))
    case Slime(t, inner) => Slime(Bounce(t, deltaMs, Zero, Zero).timer, StackUpdate(inner, deltaMs))
  }

  function CoreUpdates(s: EnemyStack): nat {
    match s
    case Core(n) => n
    case Plain(inner) => CoreUpdates(inner)
    case Slime(_, inner) => CoreUpdates(inner)
  }

  function Depth(s: EnemyStack): nat {
    match s
    case Core(_) => 0
    case Plain(inner) => 1 + Depth(inner)
    case Slime(_, inner) => 1 + Depth(inner)
  }

  predicate TimersInRange(s: EnemyStack) {
    match s
    case Core(_) => true
    case Plain(inner) => TimersInRange(inner)
    case Slime(t, inner) => 0.0 <= t < BOUNCE_INTERVAL && TimersInRange(inner)
  }

  /** However deep the nesting, one update reaches the innermost enemy exactly once and keeps
      the stack's shape. */
  lemma {:induction false} UpdateReachesCoreOnce(s: EnemyStack, deltaMs: real)
    ensures CoreUpdates(StackUpdate(s, deltaMs)) == CoreUpdates(s) + 1
    ensures Depth(StackUpdate(s, deltaMs)) == Depth(s)
  {
    match s
    case Core(_) =>
    case Plain(inner) => UpdateReachesCoreOnce(inner, deltaMs);
    case Slime(_, inner) => UpdateReachesCoreOnce(inner, deltaMs);
  }

  /** With a non-negative frame time every slime timer in the stack stays in [0, 1.5). */
  lemma {:induction false} StackTimersInRange(s: EnemyStack, deltaMs: real)
    requires TimersInRange(s) && deltaMs >= 0.0
    ensures TimersInRange(StackUpdate(s, deltaMs))
  {
    match s
    case Core(_) =>
    case Plain(inner) => StackTimersInRange(inner, deltaMs);
    case Slime(t, inner) =>
      BounceTimerInRange(t, deltaMs, Zero, Zero);
      StackTimersInRange(inner, deltaMs);
  }
}
