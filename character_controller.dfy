/** The older player (src/characterController.ts): health with a damage-immunity window and
    an optional death callback, a teleport cooldown driven by exit collisions, ground and
    slope flags driven by collision events, and the per-frame jump, damping and shooting
    rules. The physics body is abstract: a position, a velocity, and a log of the forces and
    impulses handed to the engine. Each `setTimeout` becomes a started-timer entry in that log
    and a separate expiry step. */
module CharacterControllers {
  import opened Geometry
  import opened Outcomes
  import Rooms
  import AzertyInputs
  import opened PlayerPhysics

  const FULL_HEALTH: real := 100.0
  /** Calling `onDeath` while it was never assigned throws a TypeError. */
  datatype PlayerError = OnDeathNotAFunction

  // ---------------------------------------------------------------------------------------
  // Health and the damage-immunity window.

  datatype Vitals = Vitals(health: real, canTakeDamage: bool)

  /** The state after a hit, and whether the hit calls `onDeath`. */
  datatype HitResult = HitResult(after: Vitals, diedNow: bool)

  /** `takeDamage` on health alone: an immune player ignores the hit; otherwise health drops by
      exactly `amount` (nothing clamps it), immunity starts, and `onDeath` is due whenever the
      new health is at or below zero, even if it already was before. */
  function Hit(v: Vitals, amount: real): (r: HitResult)
    ensures !v.canTakeDamage ==> r == HitResult(v, false)
    ensures v.canTakeDamage ==> r.after == Vitals(v.health - amount, false)
    ensures r.diedNow <==> v.canTakeDamage && v.health - amount <= 0.0
  {
    if !v.canTakeDamage then HitResult(v, false)
    else HitResult(Vitals(v.health - amount, false), v.health - amount <= 0.0)
  }

  /** What can happen to the player's health: a hit, or the immunity timer running out. */
  datatype DamageEvent = Struck(amount: real) | ImmunityExpired

  /** The health state after a run of events, and how many times `onDeath` was called. */
  datatype Replay = Replay(after: Vitals, deaths: nat)

  /** `takeDamage` and the immunity timer's expiry replayed over a run of events: at most one
      `onDeath` call per event, no change from expiries alone, and, without healing hits, no
      rise in health. */
  function ReplayDamage(v: Vitals, events: seq<DamageEvent>): (r: Replay)
    ensures r.deaths <= |events|
    ensures (forall i :: 0 <= i < |events| ==> events[i].ImmunityExpired?) ==> r.after.health == v.health && r.deaths == 0
    ensures NoHealing(events) ==> r.after.health <= v.health
    decreases |events|
  {
    if events == [] then Replay(v, 0)
    else
      NoHealingTail(events);
      match events[0]
      case ImmunityExpired => ReplayDamage(Vitals(v.health, true), events[1..])
      case Struck(amount) =>
        var h := Hit(v, amount);
        var rest := ReplayDamage(h.after, events[1..]);
        Replay(rest.after, rest.deaths + if h.diedNow then 1 else 0)
  }

  /** A run of hits with no expiry in between. */
  function Strikes(amounts: seq<real>): (r: seq<DamageEvent>)
    ensures |r| == |amounts|
    ensures forall i :: 0 <= i < |r| ==> r[i] == Struck(amounts[i])
  {
    if amounts == [] then [] else [Struck(amounts[0])] + Strikes(amounts[1..])
  }

  /** Each hit preceded by the expiry of the previous immunity window. */
  function SpacedStrikes(amounts: seq<real>): (r: seq<DamageEvent>)
    ensures |r| == 2 * |amounts|
  {
    if amounts == [] then [] else [ImmunityExpired, Struck(amounts[0])] + SpacedStrikes(amounts[1..])
  }

  function Sum(amounts: seq<real>): real {
    if amounts == [] then 0.0 else amounts[0] + Sum(amounts[1..])
  }

  /** No hit heals. */
  predicate NoHealing(events: seq<DamageEvent>) {
    forall i :: 0 <= i < |events| ==> events[i].Struck? ==> events[i].amount >= 0.0
  }

  /** What holds of a run holds of its tail. */
  lemma NoHealingTail(events: seq<DamageEvent>)
    requires events != []
    ensures NoHealing(events) ==> NoHealing(events[1..])
  {
    if NoHealing(events) {
      forall i | 0 <= i < |events[1..]| ensures events[1..][i].Struck? ==> events[1..][i].amount >= 0.0 {
        assert events[1..][i] == events[i + 1];
      }
    }
  }

  /** While immune, any number of hits changes nothing and calls nothing. */
  lemma {:induction false} ImmuneIgnoresStrikes(v: Vitals, amounts: seq<real>)
    requires !v.canTakeDamage
    ensures ReplayDamage(v, Strikes(amounts)) == Replay(v, 0)
    decreases |amounts|
  {
    if amounts != [] {
      assert Strikes(amounts)[1..] == Strikes(amounts[1..]);
      ImmuneIgnoresStrikes(v, amounts[1..]);
    }
  }

  /** When the window has expired before every hit, every hit lands in full. */
  lemma {:induction false} SpacedStrikesAllLand(v: Vitals, amounts: seq<real>)
    ensures ReplayDamage(v, SpacedStrikes(amounts)).after.health == v.health - Sum(amounts)
    ensures amounts != [] ==> !ReplayDamage(v, SpacedStrikes(amounts)).after.canTakeDamage
    decreases |amounts|
  {
    if amounts != [] {
      var evs := SpacedStrikes(amounts);
      assert evs[1..][1..] == SpacedStrikes(amounts[1..]);
      SpacedStrikesAllLand(Vitals(v.health - amounts[0], false), amounts[1..]);
    }
  }

  /** Without healing, a player who ends with positive health was never declared dead. */
  lemma {:induction false} NoDeathWhileAlive(v: Vitals, events: seq<DamageEvent>)
    requires NoHealing(events)
    requires ReplayDamage(v, events).after.health > 0.0
    ensures ReplayDamage(v, events).deaths == 0
    decreases |events|
  {
    if events != [] {
      NoHealingTail(events);
      match events[0]
      case ImmunityExpired =>
        NoDeathWhileAlive(Vitals(v.health, true), events[1..]);
      case Struck(amount) =>
        NoDeathWhileAlive(Hit(v, amount).after, events[1..]);
    }
  }

  /** There is no dead guard: a player at 10 hit for 20, then (after the window) for 5, has
      `onDeath` called twice. */
  lemma DeathRepeatsWithoutGuard()
    ensures ReplayDamage(Vitals(10.0, true), [Struck(20.0), ImmunityExpired, Struck(5.0)]) == Replay(Vitals(-15.0, false), 2)
  {
  }

  // ---------------------------------------------------------------------------------------
  // Exits.

  /** The room on the other side of an exit: `room2` when the current room's name is
      `room1`'s name, `room1` otherwise, including when there is no current room. */
  function ExitTarget(exit: Rooms.Exit, current: Option<Rooms.Room>): (r: Rooms.Room)
    ensures r == exit.room1 || r == exit.room2
    ensures r == exit.room2 <== current.Some? && current.value.name == exit.room1.name
    ensures r == exit.room1 <== current.None? || current.value.name != exit.room1.name
  {
    if current.Some? && current.value.name == exit.room1.name then exit.room2 else exit.room1
  }

  /** With differently named rooms, crossing from either side leads to the other room, and
      crossing back returns. */
  lemma ExitLeadsAcross(exit: Rooms.Exit)
    requires exit.room1.name != exit.room2.name
    ensures ExitTarget(exit, Some(exit.room1)) == exit.room2
    ensures ExitTarget(exit, Some(exit.room2)) == exit.room1
    ensures ExitTarget(exit, Some(ExitTarget(exit, Some(exit.room1)))) == exit.room1
  {
  }

  // ---------------------------------------------------------------------------------------
  // The whole player state and its transitions.

  datatype PlayerState = PlayerState(
    health: real, canTakeDamage: bool, canTeleport: bool, canShoot: bool,
    isGrounded: bool, isOnSlope: bool, currentRoom: Option<Rooms.Room>,
    hasDeathHandler: bool, position: Vec3, velocity: Vec3, effects: seq<Effect>)
  {
    function Life(): Vitals {
      Vitals(health, canTakeDamage)
    }
  }

  /** A transition's new state and whether it threw. */
  datatype Step = Step(state: PlayerState, outcome: Outcome<PlayerError>)

  /** `takeDamage`: health and immunity follow `Hit`; an accepted hit starts the immunity timer
      and then, if due, calls `onDeath`, which throws when it was never assigned. */
  function TakeDamageStep(s: PlayerState, amount: real): (r: Step)
    ensures Hit(s.Life(), amount).after == r.state.Life()
    ensures r.state == s.(health := r.state.health, canTakeDamage := r.state.canTakeDamage, effects := r.state.effects)
    ensures !s.canTakeDamage ==> r == Step(s, Pass)
    ensures s.canTakeDamage ==> (r.state.effects == s.effects + [TimerStarted(DamageImmunity, DAMAGE_COOLDOWN_MS)]
      + (if Hit(s.Life(), amount).diedNow && s.hasDeathHandler then [DeathCallback] else []))
    ensures r.outcome.Fail? <==> Hit(s.Life(), amount).diedNow && !s.hasDeathHandler
  {
    var h := Hit(s.Life(), amount);
    if !s.canTakeDamage then Step(s, Pass)
    else
      var hurt := s.(health := h.after.health, canTakeDamage := false,
                     effects := s.effects + [TimerStarted(DamageImmunity, DAMAGE_COOLDOWN_MS)]);
      if !h.diedNow then Step(hurt, Pass)
      else if hurt.hasDeathHandler then Step(hurt.(effects := hurt.effects + [DeathCallback]), Pass)
      else Step(hurt, Fail(OnDeathNotAFunction))
  }

  /** `_teleportToRoom`: the body moves to the room's centre, the old room's exit hook runs
      before the new room's enter hook, and the new room becomes current. */
  function TeleportTo(s: PlayerState, room: Rooms.Room): (r: PlayerState)
    ensures r.position == room.center && r.currentRoom == Some(room)
    ensures r.effects == s.effects + (if s.currentRoom.Some? then [RoomExitHook(s.currentRoom.value)] else []) + [RoomEnterHook(room)]
    ensures r == s.(position := r.position, currentRoom := r.currentRoom, effects := r.effects)
  {
    var hooks := if s.currentRoom.Some? then [RoomExitHook(s.currentRoom.value)] else [];
    s.(position := room.center, currentRoom := Some(room), effects := s.effects + hooks + [RoomEnterHook(room)])
  }

  /** `_handleExitCollision`: refused while the teleport cooldown runs; otherwise teleports
      across the exit (with the rooms' exit and enter hooks) and then starts the cooldown. */
  function ExitCollision(s: PlayerState, exit: Rooms.Exit): (r: PlayerState)
    ensures !s.canTeleport ==> r == s
    ensures s.canTeleport ==> !r.canTeleport && r.currentRoom == Some(ExitTarget(exit, s.currentRoom))
    ensures s.canTeleport ==> r.position == ExitTarget(exit, s.currentRoom).center
    ensures s.canTeleport ==>
      r.effects == TeleportTo(s, ExitTarget(exit, s.currentRoom)).effects + [TimerStarted(TeleportCooldown, TELEPORT_COOLDOWN_MS)]
    ensures r == s.(canTeleport := r.canTeleport, position := r.position, currentRoom := r.currentRoom, effects := r.effects)
  {
    if !s.canTeleport then s
    else
      var t := TeleportTo(s, ExitTarget(exit, s.currentRoom));
      t.(canTeleport := false, effects := t.effects + [TimerStarted(TeleportCooldown, TELEPORT_COOLDOWN_MS)])
  }

  /** A timer's callback: it re-enables the flag it belongs to. */
  function Expire(s: PlayerState, t: Timer): (r: PlayerState)
    ensures t == DamageImmunity ==> r == s.(canTakeDamage := true)
    ensures t == TeleportCooldown ==> r == s.(canTeleport := true)
    ensures t == ShootCooldown ==> r == s.(canShoot := true)
  {
    match t
    case DamageImmunity => s.(canTakeDamage := true)
    case TeleportCooldown => s.(canTeleport := true)
    case ShootCooldown => s.(canShoot := true)
  }

  /** A second exit collision before the cooldown expires does nothing. */
  lemma SecondExitWaitsForCooldown(s: PlayerState, first: Rooms.Exit, second: Rooms.Exit)
    requires s.canTeleport
    ensures ExitCollision(ExitCollision(s, first), second) == ExitCollision(s, first)
  {
  }

  /** Crossing an exit between differently named rooms and, once the cooldown has expired,
      crossing it again brings the player back to the room they started in. */
  lemma ExitRoundTrip(s: PlayerState, exit: Rooms.Exit)
    requires exit.room1.name != exit.room2.name && s.canTeleport
    requires s.currentRoom == Some(exit.room1) || s.currentRoom == Some(exit.room2)
    ensures ExitCollision(Expire(ExitCollision(s, exit), TeleportCooldown), exit).currentRoom == s.currentRoom
  {
  }

  // ---------------------------------------------------------------------------------------
  // Collision events.

  /** The metadata of the other body's transform node. An exit is present exactly when
      `isExit` is set. */
  datatype Metadata = Metadata(isGround: bool, isSlope: Option<bool>, exit: Option<Rooms.Exit>, entity: Option<EntityInfo>)

  /** A collision event; `meta` is None when the other body has no transform node or no
      metadata. */
  datatype CollisionEvent = CollisionEvent(kind: EventKind, meta: Option<Metadata>)

  /** The first listener: ground contact sets or clears the grounded and slope flags. */
  function GroundListener(s: PlayerState, e: CollisionEvent): (r: PlayerState)
    ensures e.meta.Some? && e.meta.value.isGround && e.kind == CollisionStarted ==>
      r == s.(isGrounded := true, isOnSlope := e.meta.value.isSlope.GetOr(false))
    ensures e.meta.Some? && e.meta.value.isGround && e.kind == CollisionFinished ==>
      r == s.(isGrounded := false, isOnSlope := false)
    ensures e.meta.None? || !e.meta.value.isGround || e.kind == OtherCollisionEvent ==> r == s
  {
    if e.meta.None? then s
    else
      var g := GroundContact(GroundFlags(s.isGrounded, s.isOnSlope), e.kind, e.meta.value.isGround, e.meta.value.isSlope);
      s.(isGrounded := g.isGrounded, isOnSlope := g.isOnSlope)
  }

  /** The second listener: a started contact with an exit goes to `_handleExitCollision`. */
  function ExitListener(s: PlayerState, e: CollisionEvent): (r: PlayerState)
    ensures e.kind == CollisionStarted && e.meta.Some? && e.meta.value.exit.Some? ==>
      r == ExitCollision(s, e.meta.value.exit.value)
    ensures !(e.kind == CollisionStarted && e.meta.Some? && e.meta.value.exit.Some?) ==> r == s
  {
    if e.kind == CollisionStarted && e.meta.Some? && e.meta.value.exit.Some? then
      ExitCollision(s, e.meta.value.exit.value)
    else s
  }

  /** The third listener: a started contact with a lethal entity calls `takeDamage`. */
  function EntityListener(s: PlayerState, e: CollisionEvent): (r: Step)
    ensures (e.kind == CollisionStarted && e.meta.Some? && e.meta.value.entity.Some? && e.meta.value.entity.value.isLethal) ==>
      r == TakeDamageStep(s, ContactDamage(e.meta.value.entity.value))
    ensures !(e.kind == CollisionStarted && e.meta.Some? && e.meta.value.entity.Some? && e.meta.value.entity.value.isLethal) ==>
      r == Step(s, Pass)
  {
    if e.kind != CollisionStarted || e.meta.None? || e.meta.value.entity.None? || !e.meta.value.entity.value.isLethal then
      Step(s, Pass)
    else TakeDamageStep(s, ContactDamage(e.meta.value.entity.value))
  }

  /** One collision event runs the three listeners in the order they were registered. Only a
      started contact can teleport or hurt; an event without metadata changes nothing. */
  function CollisionStep(s: PlayerState, e: CollisionEvent): (r: Step)
    ensures e.kind != CollisionStarted ==> r == Step(GroundListener(s, e), Pass)
    ensures e.meta.None? ==> r == Step(s, Pass)
  {
    EntityListener(ExitListener(GroundListener(s, e), e), e)
  }

  /** Landing on a slope and then leaving the ground clears both flags, whatever the slope. */
  lemma LeavingGroundClearsSlope(s: PlayerState, slope: Option<bool>)
    ensures var start := CollisionEvent(CollisionStarted, Some(Metadata(true, slope, None, None)));
      var finish := CollisionEvent(CollisionFinished, Some(Metadata(true, slope, None, None)));
      var t := CollisionStep(CollisionStep(s, start).state, finish).state;
      !t.isGrounded && !t.isOnSlope && t.Life() == s.Life() && t.currentRoom == s.currentRoom
  {
  }

  // ---------------------------------------------------------------------------------------
  // The per-frame update.

  /** The new state, and the input fields as `update` leaves them (it clears `shoot`). */
  datatype Frame = Frame(state: PlayerState, input: AzertyInputs.Reading)

  /** `teleportToRoomCenter`: back to the centre of the current room, if there is one. */
  function ToRoomCenter(s: PlayerState): (r: PlayerState)
    ensures s.currentRoom.Some? ==> r == s.(position := s.currentRoom.value.center)
    ensures s.currentRoom.None? ==> r == s
  {
    if s.currentRoom.None? then s else s.(position := s.currentRoom.value.center)
  }

  /** The first part of `update`: the debug teleport, the slope flag from the rays, movement or
      damping, and the slope counter-force. Only position, velocity, the slope flag and the
      effects change. */
  function SteerStep(s: PlayerState, input: AzertyInputs.Reading, slopeHit: bool): (r: PlayerState)
    ensures r == s.(isOnSlope := slopeHit, position := r.position, velocity := r.velocity, effects := r.effects)
    ensures r.position == if input.debug != 0 then ToRoomCenter(s).position else s.position
    ensures Moving(input) ==> r.velocity == s.velocity
    ensures !Moving(input) ==> r.velocity == Damped(s.velocity, slopeHit)
    ensures r.effects == s.effects + SteerEffects(input, slopeHit)
  {
    var s1 := if input.debug != 0 then ToRoomCenter(s) else s;
    var s2 := s1.(isOnSlope := slopeHit);
    var s3 := if Moving(input) then s2 else s2.(velocity := Damped(s2.velocity, s2.isOnSlope));
    s3.(effects := s3.effects + SteerEffects(input, slopeHit))
  }

  /** The jump: only a grounded player jumps, which hands JUMP_FORCE to the engine and leaves
      the ground. */
  function JumpStep(s: PlayerState, jump: bool): (r: PlayerState)
    ensures r == s.(isGrounded := r.isGrounded, effects := r.effects)
    ensures r.isGrounded <==> s.isGrounded && !jump
    ensures r.effects == s.effects + JumpEffects(jump, s.isGrounded)
  {
    if jump && s.isGrounded then s.(isGrounded := false, effects := s.effects + JumpEffects(jump, s.isGrounded)) else s
  }

  /** The shot: when shoot is held and shooting is allowed, the input's shoot flag and
      `canShoot` are cleared, a bullet of BULLET_DAMAGE is fired and the shoot cooldown starts;
      otherwise nothing changes. */
  function ShootStep(s: PlayerState, input: AzertyInputs.Reading): (f: Frame)
    ensures f.state == s.(canShoot := f.state.canShoot, effects := f.state.effects)
    ensures f.state.canShoot <==> s.canShoot && !input.shoot
    ensures f.input == input.(shoot := input.shoot && !s.canShoot)
    ensures f.state.effects == s.effects + ShotEffects(input.shoot && s.canShoot)
  {
    var g := ShotGate(ShotFlags(s.canShoot, input.shoot));
    Frame(s.(canShoot := g.canShoot, effects := s.effects + ShotEffects(input.shoot && s.canShoot)), input.(shoot := g.shootHeld))
  }

  /** `update` after the input controller has produced `input`, with `slopeHit` the answer of
      the slope rays: steering, jump, angular reset, shot. Health, immunity, the teleport
      cooldown, the current room and the death handler never change in a frame. */
  function UpdateStep(s: PlayerState, input: AzertyInputs.Reading, slopeHit: bool): (f: Frame)
    ensures f.state.Life() == s.Life() && f.state.canTeleport == s.canTeleport
    ensures f.state.currentRoom == s.currentRoom && f.state.hasDeathHandler == s.hasDeathHandler
    ensures f.state.isOnSlope == slopeHit
    ensures f.state.isGrounded <==> s.isGrounded && !input.jump
    ensures f.state.canShoot <==> s.canShoot && !input.shoot
    ensures f.input == input.(shoot := input.shoot && !s.canShoot)
  {
    var steered := SteerStep(s, input, slopeHit);
    var jumped := JumpStep(steered, input.jump);
    ShootStep(jumped.(effects := jumped.effects + [AngularVelocityCleared]), input)
  }

  /** How a frame moves the body: the debug key returns it to the room's centre, no input
      damps the velocity, and the frame's effects are appended after the earlier ones. */
  lemma UpdateStepMotion(s: PlayerState, input: AzertyInputs.Reading, slopeHit: bool)
    ensures var f := UpdateStep(s, input, slopeHit);
      && (!Moving(input) ==> f.state.velocity == Damped(s.velocity, slopeHit))
      && (Moving(input) ==> f.state.velocity == s.velocity)
      && f.state.position == (if input.debug != 0 then ToRoomCenter(s).position else s.position)
      && f.state.effects == s.effects + FrameEffects(input, slopeHit, s.isGrounded, s.canShoot)
  {
    var steered := SteerStep(s, input, slopeHit);
    var jumped := JumpStep(steered, input.jump);
    assert jumped.velocity == steered.velocity && jumped.position == steered.position;
    var jump := JumpEffects(input.jump, s.isGrounded);
    var shot := ShotEffects(input.shoot && s.canShoot);
    var f := ShootStep(jumped.(effects := jumped.effects + [AngularVelocityCleared]), input);
    assert f.state.effects == s.effects + SteerEffects(input, slopeHit) + jump + [AngularVelocityCleared] + shot;
    AppendRegroups(s.effects, SteerEffects(input, slopeHit), jump, [AngularVelocityCleared], shot);
  }

  /** After a shot, no frame shoots again until the shoot cooldown has expired. */
  lemma {:induction false} NoShotBeforeCooldown(s: PlayerState, inputs: seq<AzertyInputs.Reading>, slopes: seq<bool>)
    requires !s.canShoot && |inputs| == |slopes|
    ensures !Frames(s, inputs, slopes).canShoot
    ensures forall i :: 0 <= i < |inputs| ==> Frames(s, inputs[..i], slopes[..i]).canShoot == false
  {
    if inputs != [] {
      var last := |inputs| - 1;
      var earlier, earlierSlopes := inputs[..last], slopes[..last];
      NoShotBeforeCooldown(s, earlier, earlierSlopes);
      forall i | 0 <= i < |inputs|
        ensures Frames(s, inputs[..i], slopes[..i]).canShoot == false
      {
        if i < last {
          assert earlier[..i] == inputs[..i] && earlierSlopes[..i] == slopes[..i];
        } else {
          assert inputs[..i] == earlier && slopes[..i] == earlierSlopes;
        }
      }
    }
  }

  /** A run of frames with no timer expiring. */
  function Frames(s: PlayerState, inputs: seq<AzertyInputs.Reading>, slopes: seq<bool>): PlayerState
    requires |inputs| == |slopes|
    decreases |inputs|
  {
    if inputs == [] then s
    else
      var last := |inputs| - 1;
      UpdateStep(Frames(s, inputs[..last], slopes[..last]), inputs[last], slopes[last]).state
  }

  // ---------------------------------------------------------------------------------------
  // The player object.

  class Player {
    const name: string
    /** The input controller the player polls once per frame. */
    const input: AzertyInputs.InputController
    var health: real
    var canTakeDamage: bool
    var canTeleport: bool
    var canShoot: bool
    var isGrounded: bool
    var isOnSlope: bool
    var currentRoom: Option<Rooms.Room>
    /** Whether `onDeath` has been assigned. */
    var hasDeathHandler: bool
    /** The body's position and linear velocity. */
    var position: Vec3
    var velocity: Vec3
    var effects: seq<Effect>

    /** A new player stands in `room` with full health and may be hurt, teleport and shoot. */
    constructor (name: string, input: AzertyInputs.InputController, room: Rooms.Room)
      ensures this.name == name && this.input == input
      ensures State() == PlayerState(FULL_HEALTH, true, true, true, false, false, Some(room), false, Zero, Zero, [])
    {
      this.name := name;
      this.input := input;
      health := FULL_HEALTH;
      canTakeDamage, canTeleport, canShoot := true, true, true;
      isGrounded, isOnSlope := false, false;
      currentRoom := Some(room);
      hasDeathHandler := false;
      position, velocity := Zero, Zero;
      effects := [];
    }

    function State(): PlayerState
      reads this
    {
      PlayerState(health, canTakeDamage, canTeleport, canShoot, isGrounded, isOnSlope, currentRoom,
                  hasDeathHandler, position, velocity, effects)
    }

    /** Assigning `onDeath`. */
    method SetDeathHandler()
      modifies this
      ensures State() == old(State()).(hasDeathHandler := true)
    {
      hasDeathHandler := true;
    }

    method TakeDamage(amount: real) returns (r: Outcome<PlayerError>)
      modifies this
      ensures Step(State(), r) == TakeDamageStep(old(State()), amount)
    {
      r := Pass;
      if !canTakeDamage {
        return;
      }
      health := health - amount;
      canTakeDamage := false;
      effects := effects + [TimerStarted(DamageImmunity, DAMAGE_COOLDOWN_MS)];
      if health <= 0.0 {
        if hasDeathHandler {
          effects := effects + [DeathCallback];
        } else {
          r := Fail(OnDeathNotAFunction);
        }
      }
    }

    method TeleportToRoom(room: Rooms.Room)
      modifies this
      ensures State() == TeleportTo(old(State()), room)
    {
      position := room.center;
      if currentRoom.Some? {
        effects := effects + [RoomExitHook(currentRoom.value)];
      }
      effects := effects + [RoomEnterHook(room)];
      currentRoom := Some(room);
    }

    method HandleExitCollision(exit: Rooms.Exit)
      modifies this
      ensures State() == ExitCollision(old(State()), exit)
    {
      if !canTeleport {
        return;
      }
      var target := if currentRoom.Some? && exit.room1.name == currentRoom.value.name then exit.room2 else exit.room1;
      TeleportToRoom(target);
      canTeleport := false;
      effects := effects + [TimerStarted(TeleportCooldown, TELEPORT_COOLDOWN_MS)];
    }

    /** One collision event, delivered to the three listeners in registration order. */
    method HandleCollision(e: CollisionEvent) returns (r: Outcome<PlayerError>)
      modifies this
      ensures Step(State(), r) == CollisionStep(old(State()), e)
    {
      if e.meta.Some? {
        var meta := e.meta.value;
        if e.kind == CollisionStarted && meta.isGround {
          isGrounded := true;
          isOnSlope := meta.isSlope.GetOr(false);
        } else if e.kind == CollisionFinished && meta.isGround {
          isGrounded := false;
          isOnSlope := false;
        }
      }
      if e.kind == CollisionStarted && e.meta.Some? && e.meta.value.exit.Some? {
        HandleExitCollision(e.meta.value.exit.value);
      }
      r := Pass;
      if e.kind != CollisionStarted || e.meta.None? {
        return;
      }
      var entity := e.meta.value.entity;
      if entity.Some? && entity.value.isLethal {
        r := TakeDamage(entity.value.damage.GetOr(DEFAULT_CONTACT_DAMAGE));
      }
    }

    /** The public debug teleport. */
    method TeleportToRoomCenter()
      modifies this
      ensures State() == ToRoomCenter(old(State()))
    {
      if currentRoom.None? {
        return;
      }
      position := currentRoom.value.center;
    }

    /** One frame; `slopeHit` is what the downward slope rays report. */
    method Update(slopeHit: bool)
      modifies this, input
      ensures input.inputMap == old(input.inputMap)
      ensures Frame(State(), input.Fields()) == UpdateStep(old(State()), AzertyInputs.Read(old(input.inputMap)), slopeHit)
    {
      input.Update();
      var reading := input.Fields();
      Steer(reading, slopeHit);
      Jump(input.jump);
      effects := effects + [AngularVelocityCleared];
      Shoot();
    }

    /** Debug teleport, slope flag, movement or damping, slope counter-force. */
    method Steer(reading: AzertyInputs.Reading, slopeHit: bool)
      modifies this
      ensures State() == SteerStep(old(State()), reading, slopeHit)
    {
      if reading.debug != 0 {
        TeleportToRoomCenter();
      }
      isOnSlope := slopeHit;
      if reading.horizontal != 0 || reading.vertical != 0 {
        effects := effects + [MovementForce(reading.horizontal, reading.vertical)];
      } else {
        velocity := Vec3(velocity.x * DAMPING_FACTOR, velocity.y, velocity.z * DAMPING_FACTOR);
        if isOnSlope {
          velocity := Zero;
        }
      }
      if isOnSlope {
        effects := effects + [SlopeCounterForce];
      }
    }

    method Jump(jump: bool)
      modifies this
      ensures State() == JumpStep(old(State()), jump)
    {
      if jump && isGrounded {
        effects := effects + [JumpImpulse(JUMP_FORCE)];
        isGrounded := false;
      }
    }

    method Shoot()
      modifies this, input
      ensures input.inputMap == old(input.inputMap)
      ensures Frame(State(), input.Fields()) == ShootStep(old(State()), old(input.Fields()))
    {
      if input.shoot && canShoot {
        input.shoot := false;
        canShoot := false;
        effects := effects + [BulletFired(BULLET_DAMAGE), TimerStarted(ShootCooldown, SHOOT_COOLDOWN_MS)];
      }
    }
    /** A timer's callback running. */
    method TimerFires(t: Timer)
      modifies this
      ensures State() == Expire(old(State()), t)
    {
      match t
      case DamageImmunity => canTakeDamage := true;
      case TeleportCooldown => canTeleport := true;
      case ShootCooldown => canShoot := true;
    }

    function Health(): real
      reads this
    {
      health
    }
  }
}
