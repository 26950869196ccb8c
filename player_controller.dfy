/** The newer player controller (src/controller/playerController.ts). The health, the
    cooldown flags and the physics body belong to a separate player entity, whose own file is
    not part of this model: the controller only reads and writes its `_canTeleport`,
    `_canShoot` and body, and passes contact damage to its `takeDamage`. Doors name their
    target room directly, a door teleport always lands at (0, 1, 0), and the environment is
    told which room the player entered. */
module PlayerControllers {
  import opened Geometry
  import opened Outcomes
  import opened PlayerPhysics
  import AzertyInputs
  import KeyMaps
  import Environments

  const BODY_Y_POSITION: real := 0.0
  /** Where a door teleport puts the body, whatever the target room. */
  const DOOR_ARRIVAL: Vec3 := Vec3(0.0, 1.0, 0.0)

  /** The player entity as far as the controller uses it. `damageRequests` lists the amounts
      passed to `takeDamage`, whose effect is not part of this model. */
  class PlayerEntity {
    var canTeleport: bool
    var canShoot: bool
    /** Whether `_initPhysicsMesh` has given the entity a physics body. */
    var hasBody: bool
    var position: Vec3
    var velocity: Vec3
    var damageRequests: seq<real>

    constructor (canTeleport: bool, canShoot: bool, position: Vec3)
      ensures this.canTeleport == canTeleport && this.canShoot == canShoot && this.position == position
      ensures !hasBody && velocity == Zero && damageRequests == []
    {
      this.canTeleport := canTeleport;
      this.canShoot := canShoot;
      this.position := position;
      hasBody := false;
      velocity := Zero;
      damageRequests := [];
    }

    /** `_initPhysicsMesh(mesh, …)`: the entity gets a body built on `mesh`, so the body's
        transform node is that mesh and starts at the mesh's position. */
    method InitPhysics(meshPosition: Vec3)
      modifies this
      ensures hasBody && position == meshPosition
      ensures canTeleport == old(canTeleport) && canShoot == old(canShoot)
      ensures velocity == old(velocity) && damageRequests == old(damageRequests)
    {
      hasBody := true;
      position := meshPosition;
    }

    method TakeDamage(amount: real)
      modifies this
      ensures damageRequests == old(damageRequests) + [amount]
      ensures canTeleport == old(canTeleport) && canShoot == old(canShoot) && hasBody == old(hasBody)
      ensures position == old(position) && velocity == old(velocity)
    {
      damageRequests := damageRequests + [amount];
    }
  }

  /** Everything the controller's operations read or write: its own flags and current room, the
      environment's current view, the entity's flags and body, the damage passed on, and the
      effects handed to the engine. */
  datatype ControllerState = ControllerState(
    isGrounded: bool, isOnSlope: bool, currentRoom: Option<Environments.RoomModel>,
    view: Option<Environments.RoomModel>, canTeleport: bool, canShoot: bool, hasBody: bool,
    position: Vec3, velocity: Vec3, damageRequests: seq<real>, effects: seq<Effect>)

  /** The metadata of the other body's transform node. A door is present exactly when `isDoor`
      is set, and is its `connectedRoom`. */
  datatype Metadata = Metadata(isGround: bool, isSlope: Option<bool>, door: Option<Environments.RoomModel>, entity: Option<EntityInfo>)

  /** A collision event; `meta` is None when the other body has no transform node or no
      metadata. */
  datatype CollisionEvent = CollisionEvent(kind: EventKind, meta: Option<Metadata>)

  // ---------------------------------------------------------------------------------------
  // Doors and timers.

  /** `_teleportToRoom`: the body goes to DOOR_ARRIVAL, the environment shows the room, and the
      room becomes current. */
  function TeleportTo(s: ControllerState, room: Environments.RoomModel): (r: ControllerState)
    ensures r.position == DOOR_ARRIVAL && r.view == Some(room) && r.currentRoom == Some(room)
    ensures r.(position := s.position, view := s.view, currentRoom := s.currentRoom) == s
  {
    s.(position := DOOR_ARRIVAL, view := Some(room), currentRoom := Some(room))
  }

  /** Of two teleports in a row only the second counts: the body, view and current room are
      those of the last room. */
  lemma LastTeleportWins(s: ControllerState, first: Environments.RoomModel, second: Environments.RoomModel)
    ensures TeleportTo(TeleportTo(s, first), second) == TeleportTo(s, second)
  {
  }

  /** `_handleDoorCollision`: refused while the teleport cooldown runs; otherwise teleports to
      the door's room and starts the 5000 ms cooldown. */
  function DoorCollision(s: ControllerState, room: Environments.RoomModel): (r: ControllerState)
    ensures !s.canTeleport ==> r == s
    ensures s.canTeleport ==> r.position == DOOR_ARRIVAL && r.currentRoom == Some(room) && r.view == Some(room)
    ensures s.canTeleport ==> !r.canTeleport && r.effects == s.effects + [TimerStarted(TeleportCooldown, TELEPORT_COOLDOWN_MS)]
    ensures r.(position := s.position, currentRoom := s.currentRoom, view := s.view, canTeleport := s.canTeleport, effects := s.effects) == s
  {
    if !s.canTeleport then s
    else
      var t := TeleportTo(s, room);
      t.(canTeleport := false, effects := t.effects + [TimerStarted(TeleportCooldown, TELEPORT_COOLDOWN_MS)])
  }

  /** A timer's callback. The controller starts no damage-immunity timer, so that one
      changes nothing here. */
  function Expire(s: ControllerState, t: Timer): (r: ControllerState)
    ensures t == TeleportCooldown ==> r == s.(canTeleport := true)
    ensures t == ShootCooldown ==> r == s.(canShoot := true)
    ensures t == DamageImmunity ==> r == s
  {
    match t
    case TeleportCooldown => s.(canTeleport := true)
    case ShootCooldown => s.(canShoot := true)
    case DamageImmunity => s
  }

  /** Where the player lands does not depend on which door was taken: any two door teleports
      leave the body at the same place, and only the current room and view differ. */
  lemma ArrivalIgnoresRoom(s: ControllerState, a: Environments.RoomModel, b: Environments.RoomModel)
    requires s.canTeleport
    ensures DoorCollision(s, a).position == DoorCollision(s, b).position == DOOR_ARRIVAL
    ensures DoorCollision(s, a).(currentRoom := None, view := None) == DoorCollision(s, b).(currentRoom := None, view := None)
  {
  }

  /** A second door before the cooldown expires is refused; after it expires, the second door
      is taken. */
  lemma SecondDoorWaitsForCooldown(s: ControllerState, first: Environments.RoomModel, second: Environments.RoomModel)
    requires s.canTeleport
    ensures DoorCollision(DoorCollision(s, first), second) == DoorCollision(s, first)
    ensures DoorCollision(Expire(DoorCollision(s, first), TeleportCooldown), second).currentRoom == Some(second)
    ensures DoorCollision(Expire(DoorCollision(s, first), TeleportCooldown), second).view == Some(second)
  {
  }

  // ---------------------------------------------------------------------------------------
  // Collision events.

  /** The first listener: ground contact sets or clears the grounded and slope flags. */
  function GroundListener(s: ControllerState, e: CollisionEvent): (r: ControllerState)
    ensures e.meta.Some? && e.meta.value.isGround && e.kind == CollisionStarted ==>
      r == s.(isGrounded := true, isOnSlope := e.meta.value.isSlope.GetOr(false))
    ensures e.meta.Some? && e.meta.value.isGround && e.kind == CollisionFinished ==>
      r == s.(isGrounded := false, isOnSlope := false)
    ensures e.meta.None? || !e.meta.value.isGround || e.kind == OtherCollisionEvent ==> r == s
  {
    if e.meta.None? then s
    else
      var g := GroundContact(GroundFlags(s.isGrounded, s.isOnSlope), e.kind, e.meta.value.isGround, e.meta.value.isSlope);
      s.(isGrounded := g.isGrounded, isOnSlope := g.isOnSlope)
  }

  /** The second listener: a started contact with a door goes to `_handleDoorCollision` with
      the door's room. */
  function DoorListener(s: ControllerState, e: CollisionEvent): (r: ControllerState)
    ensures e.kind == CollisionStarted && e.meta.Some? && e.meta.value.door.Some? ==>
      r == DoorCollision(s, e.meta.value.door.value)
    ensures !(e.kind == CollisionStarted && e.meta.Some? && e.meta.value.door.Some?) ==> r == s
  {
    if e.kind == CollisionStarted && e.meta.Some? && e.meta.value.door.Some? then
      DoorCollision(s, e.meta.value.door.value)
    else s
  }

  /** The third listener: a started contact with a lethal entity passes its damage, or 10, to
      the player entity's `takeDamage`. */
  function EntityListener(s: ControllerState, e: CollisionEvent): (r: ControllerState)
    ensures (e.kind == CollisionStarted && e.meta.Some? && e.meta.value.entity.Some? && e.meta.value.entity.value.isLethal) ==>
      r == s.(damageRequests := s.damageRequests + [ContactDamage(e.meta.value.entity.value)])
    ensures !(e.kind == CollisionStarted && e.meta.Some? && e.meta.value.entity.Some? && e.meta.value.entity.value.isLethal) ==>
      r == s
  {
    if e.kind != CollisionStarted || e.meta.None? || e.meta.value.entity.None? || !e.meta.value.entity.value.isLethal then s
    else s.(damageRequests := s.damageRequests + [ContactDamage(e.meta.value.entity.value)])
  }

  /** One collision event runs the three listeners in the order they were registered. An event
      without metadata changes nothing, and only a lethal entity adds a damage request, at most
      one. */
  function CollisionStep(s: ControllerState, e: CollisionEvent): (r: ControllerState)
    ensures e.meta.None? ==> r == s
    ensures r.damageRequests == s.damageRequests
      || (e.meta.Some? && e.meta.value.entity.Some? && e.meta.value.entity.value.isLethal
          && r.damageRequests == s.damageRequests + [ContactDamage(e.meta.value.entity.value)])
  {
    EntityListener(DoorListener(GroundListener(s, e), e), e)
  }

  /** Only a started contact can teleport or hurt: a finished contact at most clears the
      ground flags. */
  lemma FinishedContactOnlyLeavesGround(s: ControllerState, e: CollisionEvent)
    requires e.kind == CollisionFinished
    ensures CollisionStep(s, e) == GroundListener(s, e)
    ensures CollisionStep(s, e).(isGrounded := s.isGrounded, isOnSlope := s.isOnSlope) == s
  {
  }

  /** A door that is also lethal both teleports (cooldown permitting) and passes on its
      damage, in that order, and the teleport does not depend on the damage. */
  lemma LethalDoorTeleportsAndHurts(s: ControllerState, room: Environments.RoomModel, entity: EntityInfo)
    requires entity.isLethal && s.canTeleport
    ensures var e := CollisionEvent(CollisionStarted, Some(Metadata(false, None, Some(room), Some(entity))));
      var t := CollisionStep(s, e);
      && t.currentRoom == Some(room) && t.position == DOOR_ARRIVAL && !t.canTeleport
      && t.damageRequests == s.damageRequests + [ContactDamage(entity)]
  {
  }

  // ---------------------------------------------------------------------------------------
  // The per-frame update.

  /** The new state, and the input fields as `update` leaves them (it clears `shoot`). */
  datatype Frame = Frame(state: ControllerState, input: AzertyInputs.Reading)

  /** The slope flag from the rays, then movement or damping, then the slope counter-force. */
  function SteerStep(s: ControllerState, input: AzertyInputs.Reading, slopeHit: bool): (r: ControllerState)
    ensures r == s.(isOnSlope := slopeHit, velocity := r.velocity, effects := r.effects)
    ensures Moving(input) ==> r.velocity == s.velocity
    ensures !Moving(input) ==> r.velocity == Damped(s.velocity, slopeHit)
    ensures r.effects == s.effects + SteerEffects(input, slopeHit)
  {
    var s1 := s.(isOnSlope := slopeHit);
    var s2 := if Moving(input) then s1 else s1.(velocity := Damped(s1.velocity, s1.isOnSlope));
    s2.(effects := s2.effects + SteerEffects(input, slopeHit))
  }

  /** The jump: only a grounded player jumps, which hands JUMP_FORCE to the engine and leaves
      the ground. */
  function JumpStep(s: ControllerState, jump: bool): (r: ControllerState)
    ensures r == s.(isGrounded := r.isGrounded, effects := r.effects)
    ensures r.isGrounded <==> s.isGrounded && !jump
    ensures r.effects == s.effects + JumpEffects(jump, s.isGrounded)
  {
    if jump && s.isGrounded then s.(isGrounded := false, effects := s.effects + JumpEffects(jump, s.isGrounded)) else s
  }

  /** The shot (`_shootBullet` and the timer after it): when shoot is held and the entity may
      shoot, the input's shoot flag and `canShoot` are cleared, a bullet of BULLET_DAMAGE is
      fired and the shoot cooldown starts; otherwise nothing changes. */
  function ShootStep(s: ControllerState, input: AzertyInputs.Reading): (f: Frame)
    ensures f.state == s.(canShoot := f.state.canShoot, effects := f.state.effects)
    ensures f.state.canShoot <==> s.canShoot && !input.shoot
    ensures f.input == input.(shoot := input.shoot && !s.canShoot)
    ensures f.state.effects == s.effects + ShotEffects(input.shoot && s.canShoot)
  {
    var g := ShotGate(ShotFlags(s.canShoot, input.shoot));
    Frame(s.(canShoot := g.canShoot, effects := s.effects + ShotEffects(input.shoot && s.canShoot)), input.(shoot := g.shootHeld))
  }

  /** `update` with the body present, after the input controller has produced `input`: steering,
      jump, angular reset, shot. The current room, the view, the teleport cooldown, the body's
      position and the damage passed on never change in a frame. */
  function BodyFrame(s: ControllerState, input: AzertyInputs.Reading, slopeHit: bool): (f: Frame)
    ensures f.state.currentRoom == s.currentRoom && f.state.view == s.view
    ensures f.state.canTeleport == s.canTeleport && f.state.hasBody == s.hasBody
    ensures f.state.position == s.position && f.state.damageRequests == s.damageRequests
    ensures f.state.isOnSlope == slopeHit
    ensures f.state.isGrounded <==> s.isGrounded && !input.jump
    ensures f.state.canShoot <==> s.canShoot && !input.shoot
    ensures f.input == input.(shoot := input.shoot && !s.canShoot)
  {
    var steered := SteerStep(s, input, slopeHit);
    var jumped := JumpStep(steered, input.jump);
    ShootStep(jumped.(effects := jumped.effects + [AngularVelocityCleared]), input)
  }

  /** A frame damps the velocity when there is no input and hands the frame's effects to the
      engine after the earlier ones. */
  lemma BodyFrameMotion(s: ControllerState, input: AzertyInputs.Reading, slopeHit: bool)
    ensures var f := BodyFrame(s, input, slopeHit);
      && (!Moving(input) ==> f.state.velocity == Damped(s.velocity, slopeHit))
      && (Moving(input) ==> f.state.velocity == s.velocity)
      && f.state.effects == s.effects + FrameEffects(input, slopeHit, s.isGrounded, s.canShoot)
  {
    var steered := SteerStep(s, input, slopeHit);
    var jumped := JumpStep(steered, input.jump);
    assert jumped.velocity == steered.velocity;
    var jump := JumpEffects(input.jump, s.isGrounded);
    var shot := ShotEffects(input.shoot && s.canShoot);
    var f := ShootStep(jumped.(effects := jumped.effects + [AngularVelocityCleared]), input);
    assert f.state.effects == s.effects + SteerEffects(input, slopeHit) + jump + [AngularVelocityCleared] + shot;
    AppendRegroups(s.effects, SteerEffects(input, slopeHit), jump, [AngularVelocityCleared], shot);
  }

  /** `update`: with no body it warns and changes nothing, not even the input fields; otherwise
      the input controller reads `keys` first. */
  function UpdateStep(s: ControllerState, fields: AzertyInputs.Reading, keys: KeyMaps.KeyMap, slopeHit: bool): (f: Frame)
    ensures !s.hasBody ==> f == Frame(s, fields)
    ensures s.hasBody ==> f == BodyFrame(s, AzertyInputs.Read(keys), slopeHit)
  {
    if !s.hasBody then Frame(s, fields) else BodyFrame(s, AzertyInputs.Read(keys), slopeHit)
  }

  /** A run of frames with the body present and no timer expiring. */
  function Frames(s: ControllerState, inputs: seq<AzertyInputs.Reading>, slopes: seq<bool>): ControllerState
    requires |inputs| == |slopes|
    decreases |inputs|
  {
    if inputs == [] then s
    else
      var last := |inputs| - 1;
      BodyFrame(Frames(s, inputs[..last], slopes[..last]), inputs[last], slopes[last]).state
  }

  /** Once a shot has cleared `canShoot`, no later frame can shoot until the cooldown expires,
      and frames never move the body's position or change the current room. */
  lemma {:induction false} FramesKeepCooldown(s: ControllerState, inputs: seq<AzertyInputs.Reading>, slopes: seq<bool>)
    requires |inputs| == |slopes|
    ensures !s.canShoot ==> !Frames(s, inputs, slopes).canShoot
    ensures Frames(s, inputs, slopes).position == s.position
    ensures Frames(s, inputs, slopes).currentRoom == s.currentRoom
    decreases |inputs|
  {
    if inputs != [] {
      var last := |inputs| - 1;
      FramesKeepCooldown(s, inputs[..last], slopes[..last]);
    }
  }

  // ---------------------------------------------------------------------------------------
  // The controller object.

  class PlayerController {
    /** The input controller the constructor creates and `update` polls. */
    const input: AzertyInputs.InputController
    const player: PlayerEntity
    const environment: Environments.Environment
    var isGrounded: bool
    var isOnSlope: bool
    var currentRoom: Option<Environments.RoomModel>
    var effects: seq<Effect>

    constructor (player: PlayerEntity, room: Environments.RoomModel, environment: Environments.Environment)
      ensures fresh(input) && input.inputMap == map[] && input.Fields() == AzertyInputs.Reading(0, 0, false, 0, 0, 0, false)
      ensures this.player == player && this.environment == environment
      ensures !isGrounded && !isOnSlope && currentRoom == Some(room) && effects == []
    {
      input := new AzertyInputs.InputController();
      this.player := player;
      this.environment := environment;
      isGrounded, isOnSlope := false, false;
      currentRoom := Some(room);
      effects := [];
    }

    function State(): ControllerState
      reads this, player, environment
    {
      ControllerState(isGrounded, isOnSlope, currentRoom, environment.currentRoomView,
                      player.canTeleport, player.canShoot, player.hasBody,
                      player.position, player.velocity, player.damageRequests, effects)
    }

    /** `initialize`: the entity gets its body, which is lifted to BODY_Y_POSITION + 1. */
    method Initialize()
      modifies player
      ensures State() == old(State()).(hasBody := true, position := Vec3(0.0, BODY_Y_POSITION + 1.0, 0.0))
    {
      // A new cylinder sits at the origin of its parent; only its y is then set.
      var meshPosition := Vec3(0.0, BODY_Y_POSITION, 0.0);
      player.InitPhysics(meshPosition);
      player.position := player.position.(y := BODY_Y_POSITION + 1.0);
    }

    method TeleportToRoom(room: Environments.RoomModel)
      modifies this, player, environment
      ensures State() == TeleportTo(old(State()), room)
    {
      player.position := DOOR_ARRIVAL;
      environment.PlayerEnter(room);
      currentRoom := Some(room);
    }

    method HandleDoorCollision(room: Environments.RoomModel)
      modifies this, player, environment
      ensures State() == DoorCollision(old(State()), room)
    {
      if !player.canTeleport {
        return;
      }
      TeleportToRoom(room);
      player.canTeleport := false;
      effects := effects + [TimerStarted(TeleportCooldown, TELEPORT_COOLDOWN_MS)];
    }

    /** One collision event, delivered to the three listeners in registration order. */
    method HandleCollision(e: CollisionEvent)
      modifies this, player, environment
      ensures State() == CollisionStep(old(State()), e)
    {
      if e.meta.Some? {
        var meta := e.meta.value;
        if e.kind == CollisionStarted && meta.isGround {
          isGrounded := true;
          isOnSlope := meta.isSlope.GetOr(false);
        } else if e.kind == CollisionFinished && meta.isGround {
          isGrounded := false;
          isOnSlope := false;
        }
      }
      if e.kind == CollisionStarted && e.meta.Some? && e.meta.value.door.Some? {
        HandleDoorCollision(e.meta.value.door.value);
      }
      if e.kind != CollisionStarted || e.meta.None? {
        return;
      }
      var entity := e.meta.value.entity;
      if entity.Some? && entity.value.isLethal {
        player.TakeDamage(entity.value.damage.GetOr(DEFAULT_CONTACT_DAMAGE));
      }
    }

    /** One frame; `slopeHit` is what the downward slope rays report. */
    method Update(slopeHit: bool)
      modifies this, player, input
      ensures input.inputMap == old(input.inputMap)
      ensures Frame(State(), input.Fields()) == UpdateStep(old(State()), old(input.Fields()), old(input.inputMap), slopeHit)
    {
      if !player.hasBody {
        return;
      }
      input.Update();
      Steer(input.Fields(), slopeHit);
      Jump(input.jump);
      effects := effects + [AngularVelocityCleared];
      Shoot();
    }

    /** Slope flag, movement or damping, slope counter-force. */
    method Steer(reading: AzertyInputs.Reading, slopeHit: bool)
      modifies this, player
      ensures State() == SteerStep(old(State()), reading, slopeHit)
    {
      isOnSlope := slopeHit;
      if reading.horizontal != 0 || reading.vertical != 0 {
        effects := effects + [MovementForce(reading.horizontal, reading.vertical)];
      } else {
        var v := player.velocity;
        player.velocity := if isOnSlope then Zero else Vec3(v.x * DAMPING_FACTOR, v.y, v.z * DAMPING_FACTOR);
      }
      if isOnSlope {
        effects := effects + [SlopeCounterForce];
      }
    }

    method Jump(jump: bool)
      modifies this
      ensures State() == JumpStep(old(State()), jump)
    {
      if jump && isGrounded {
        effects := effects + [JumpImpulse(JUMP_FORCE)];
        isGrounded := false;
      }
    }

    method Shoot()
      modifies this, player, input
      ensures input.inputMap == old(input.inputMap)
      ensures Frame(State(), input.Fields()) == ShootStep(old(State()), old(input.Fields()))
    {
      if input.shoot && player.canShoot {
        input.shoot := false;
        player.canShoot := false;
        effects := effects + [BulletFired(BULLET_DAMAGE), TimerStarted(ShootCooldown, SHOOT_COOLDOWN_MS)];
      }
    }

    /** A timer's callback running. */
    method TimerFires(t: Timer)
      modifies player
      ensures State() == Expire(old(State()), t)
    {
      match t
      case TeleportCooldown => player.canTeleport := true;
      case ShootCooldown => player.canShoot := true;
      case DamageImmunity =>
    }

    /** The `position` getter: the body's position, or the origin while there is no body. */
    function Position(): Vec3
      reads this, player
    {
      if player.hasBody then player.position else Zero
    }
  }
}
