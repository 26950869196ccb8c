/** What the two player revisions (src/characterController.ts and
    src/controller/playerController.ts) share: their constants, which agree, the log of what
    they hand to the physics engine and the timers, the damping formula, the shapes of a
    collision event they read, and the effects of one frame. */
module PlayerPhysics {
  import opened Geometry
  import opened Outcomes
  import Rooms
  import AzertyInputs

  const BULLET_DAMAGE: real := 30.0
  const DAMPING_FACTOR: real := 0.95
  /** The damage taken from a lethal entity that carries no `damage` of its own. */
  const DEFAULT_CONTACT_DAMAGE: real := 10.0
  const JUMP_FORCE: Vec3 := Vec3(0.0, 10.0, 0.0)
  const DAMAGE_COOLDOWN_MS: nat := 2000
  const TELEPORT_COOLDOWN_MS: nat := 5000
  const SHOOT_COOLDOWN_MS: nat := 300

  /** The three one-shot timers the player starts. */
  datatype Timer = DamageImmunity | TeleportCooldown | ShootCooldown

  /** What the player hands to code outside the model, in order. */
  datatype Effect =
    | TimerStarted(timer: Timer, delayMs: nat)
    | DeathCallback
    | RoomExitHook(room: Rooms.Room)
    | RoomEnterHook(room: Rooms.Room)
    /** `_applyMovement` for the input axes: a camera-relative push of MOVE_FORCE. */
    | MovementForce(horizontal: int, vertical: int)
    /** The upward force of SLOPE_GRAVITY * sin(SLOPE_ANGLE) applied while on a slope. */
    | SlopeCounterForce
    | JumpImpulse(impulse: Vec3)
    | AngularVelocityCleared
    | BulletFired(damage: real)

  /** `_dampenVelocity`: on a slope the body stops; elsewhere horizontal speed is scaled by
      DAMPING_FACTOR and vertical speed is kept. */
  function Damped(v: Vec3, onSlope: bool): (r: Vec3)
    ensures onSlope ==> r == Zero
    ensures !onSlope ==> r.y == v.y && r.x == DAMPING_FACTOR * v.x && r.z == DAMPING_FACTOR * v.z
  {
    if onSlope then Zero else Vec3(v.x * DAMPING_FACTOR, v.y, v.z * DAMPING_FACTOR)
  }

  /** Damping off a slope never speeds the body up horizontally. */
  lemma DampingSlowsDown(v: Vec3)
    ensures HorizontalLengthSquared(Damped(v, false)) == 0.9025 * HorizontalLengthSquared(v)
    ensures HorizontalLengthSquared(Damped(v, false)) <= HorizontalLengthSquared(v)
  {
    var d := Damped(v, false);
    assert d.x * d.x == 0.9025 * (v.x * v.x);
    assert d.z * d.z == 0.9025 * (v.z * v.z);
  }

  function Power(base: real, n: nat): real {
    if n == 0 then 1.0 else base * Power(base, n - 1)
  }

  /** The velocity after `n` frames of damping off a slope. */
  function DampedFrames(v: Vec3, n: nat): Vec3 {
    if n == 0 then v else Damped(DampedFrames(v, n - 1), false)
  }

  /** After n frames with no input off a slope, horizontal speed is DAMPING_FACTOR^n of what it
      was and vertical speed is unchanged. */
  lemma {:induction false} DampingDecays(v: Vec3, n: nat)
    ensures DampedFrames(v, n) == Vec3(Power(DAMPING_FACTOR, n) * v.x, v.y, Power(DAMPING_FACTOR, n) * v.z)
  {
    if n > 0 {
      DampingDecays(v, n - 1);
      var p := Power(DAMPING_FACTOR, n - 1);
      assert DAMPING_FACTOR * (p * v.x) == (DAMPING_FACTOR * p) * v.x;
      assert DAMPING_FACTOR * (p * v.z) == (DAMPING_FACTOR * p) * v.z;
    }
  }

  // ---------------------------------------------------------------------------------------
  // Collision events.

  datatype EventKind = CollisionStarted | CollisionFinished | OtherCollisionEvent

  /** The parts of an entity's metadata the player reads. */
  datatype EntityInfo = EntityInfo(isLethal: bool, damage: Option<real>)

  /** The damage a lethal entity deals: its own `damage`, or 10 when it has none. */
  function ContactDamage(entity: EntityInfo): (d: real)
    ensures entity.damage.Some? ==> d == entity.damage.value
    ensures entity.damage.None? ==> d == DEFAULT_CONTACT_DAMAGE
  {
    entity.damage.GetOr(DEFAULT_CONTACT_DAMAGE)
  }

  /** The player's grounded and slope flags. */
  datatype GroundFlags = GroundFlags(isGrounded: bool, isOnSlope: bool)

  /** The ground listener's rule: starting a contact with ground sets the grounded flag and
      takes the slope flag from the metadata (false when absent); finishing one clears both;
      anything else leaves them. */
  function GroundContact(flags: GroundFlags, kind: EventKind, isGround: bool, isSlope: Option<bool>): (r: GroundFlags)
    ensures isGround && kind == CollisionStarted ==> r == GroundFlags(true, isSlope.GetOr(false))
    ensures isGround && kind == CollisionFinished ==> r == GroundFlags(false, false)
    ensures !isGround || kind == OtherCollisionEvent ==> r == flags
    ensures r.isOnSlope ==> r.isGrounded || flags.isOnSlope
  {
    if kind == CollisionStarted && isGround then GroundFlags(true, isSlope.GetOr(false))
    else if kind == CollisionFinished && isGround then GroundFlags(false, false)
    else flags
  }

  // ---------------------------------------------------------------------------------------
  // The effects of one frame.

  /** Whether the input asks for movement: the move vector (horizontal, 0, vertical) has
      positive length. */
  predicate Moving(input: AzertyInputs.Reading) {
    input.horizontal != 0 || input.vertical != 0
  }

  /** The forces the steering part of a frame hands to the engine: the movement force when
      there is input, then the slope counter-force when on a slope. */
  function SteerEffects(input: AzertyInputs.Reading, slopeHit: bool): (r: seq<Effect>)
    ensures MovementForce(input.horizontal, input.vertical) in r <==> Moving(input)
    ensures SlopeCounterForce in r <==> slopeHit
    ensures |r| <= 2
  {
    (if Moving(input) then [MovementForce(input.horizontal, input.vertical)] else [])
    + (if slopeHit then [SlopeCounterForce] else [])
  }

  /** What a jump hands out: the impulse, exactly when jump is held on the ground. */
  function JumpEffects(jump: bool, grounded: bool): (r: seq<Effect>)
    ensures JumpImpulse(JUMP_FORCE) in r <==> jump && grounded
    ensures |r| <= 1
  {
    if jump && grounded then [JumpImpulse(JUMP_FORCE)] else []
  }

  /** What a shot hands out: the bullet, then the cooldown timer. */
  function ShotEffects(fired: bool): (r: seq<Effect>)
    ensures BulletFired(BULLET_DAMAGE) in r <==> fired
    ensures TimerStarted(ShootCooldown, SHOOT_COOLDOWN_MS) in r <==> fired
  {
    if fired then [BulletFired(BULLET_DAMAGE), TimerStarted(ShootCooldown, SHOOT_COOLDOWN_MS)] else []
  }

  /** The `canShoot` flag and the held shoot key. */
  datatype ShotFlags = ShotFlags(canShoot: bool, shootHeld: bool)

  /** The shot's gate, shared by both controllers: a held shoot while shooting is allowed fires
      and clears both flags; otherwise both are left as they were. */
  function ShotGate(flags: ShotFlags): (r: ShotFlags)
    ensures r != flags <==> flags.canShoot && flags.shootHeld
    ensures r.canShoot ==> flags.canShoot && !r.shootHeld
  {
    if flags.canShoot && flags.shootHeld then ShotFlags(false, false) else flags
  }

  /** The effects one frame adds, in order: steering forces, the jump impulse, the angular
      reset, the shot. */
  function FrameEffects(input: AzertyInputs.Reading, slopeHit: bool, grounded: bool, canShoot: bool): seq<Effect> {
    SteerEffects(input, slopeHit)
    + JumpEffects(input.jump, grounded)
    + [AngularVelocityCleared] + ShotEffects(input.shoot && canShoot)
  }

  /** A frame applies the jump impulse exactly when jump is held and the player is grounded,
      and fires a bullet of 30 and starts the 300 ms cooldown exactly when shoot is held and
      shooting is allowed. */
  lemma FrameEffectsExactly(input: AzertyInputs.Reading, slopeHit: bool, grounded: bool, canShoot: bool)
    ensures JumpImpulse(JUMP_FORCE) in FrameEffects(input, slopeHit, grounded, canShoot) <==> input.jump && grounded
    ensures BulletFired(BULLET_DAMAGE) in FrameEffects(input, slopeHit, grounded, canShoot) <==> input.shoot && canShoot
    ensures TimerStarted(ShootCooldown, SHOOT_COOLDOWN_MS) in FrameEffects(input, slopeHit, grounded, canShoot) <==> input.shoot && canShoot
  {
    var steer := SteerEffects(input, slopeHit);
    var shot := ShotEffects(input.shoot && canShoot);
    assert JumpImpulse(JUMP_FORCE) !in steer && BulletFired(BULLET_DAMAGE) !in steer;
    assert TimerStarted(ShootCooldown, SHOOT_COOLDOWN_MS) !in steer;
  }

  lemma AppendRegroups<T>(e: seq<T>, a: seq<T>, b: seq<T>, c: seq<T>, d: seq<T>)
    ensures e + a + b + c + d == e + (a + b + c + d)
  {
  }
}
