/** The weapon (src/entities/player/weapon.ts): its bullet style picks how many bullets a shot
    fires, how hard each hits, how far each may stray, and the cooldown before the player may
    shoot again. `Math.random` is an oracle `random`, read in order: each spread bullet takes
    the next two values, yaw first. The direction vectors themselves, built from the camera
    with cross products and tangents, are not part of this model; a bullet records its damage
    and its sampled angles. */
module Weapons {
  import opened Outcomes
  import PlayerControllers

  const PISTOL_DAMAGE: real := 30.0
  const SHOTGUN_DAMAGE: real := 15.0
  const SNIPER_DAMAGE: real := 100.0
  const AUTO_DAMAGE: real := 5.0
  const INITIAL_COOLDOWN_MS: nat := 300
  const SHOTGUN_COOLDOWN_MS: nat := 750
  const SNIPER_COOLDOWN_MS: nat := 1000
  const AUTO_COOLDOWN_MS: nat := 100
  const SHOTGUN_PELLETS: nat := 6
  /** The maximum deviations, in degrees. */
  const SHOTGUN_SPREAD: real := 20.0
  const AUTO_SPREAD: real := 10.0
  /** `Math.PI`, the double closest to pi. */
  const PI: real := 3.141592653589793

  /** The sampled deviation of one bullet, in radians, and the maximum it was drawn for, in
      degrees. */
  datatype Spread = Spread(angleMax: real, yaw: real, pitch: real)

  /** One `new Bullet(...)`: its damage, and its deviation when the shot applies spread. */
  datatype Bullet = Bullet(damage: real, spread: Option<Spread>)

  /** The full deviation range of `_applySpread` in radians. */
  function SpreadRadians(angleMax: real): real {
    angleMax * PI / 180.0
  }

  /** `_applySpread`'s sampling: each angle is (r - 0.5) times the range, for the two random
      values it reads. */
  function ApplySpread(angleMax: real, yawRandom: real, pitchRandom: real): (sp: Spread)
    ensures sp.angleMax == angleMax
    ensures yawRandom == 0.5 ==> sp.yaw == 0.0
    ensures pitchRandom == 0.5 ==> sp.pitch == 0.0
  {
    Spread(angleMax, Sample(yawRandom, SpreadRadians(angleMax)), Sample(pitchRandom, SpreadRadians(angleMax)))
  }

  /** One angle: the random value, shifted to be centred on zero, times the range. */
  function Sample(r: real, range: real): real {
    (r - 0.5) * range
  }

  /** Both angles in [-a/2, a/2), for a the range in radians. */
  predicate WithinHalfRange(sp: Spread) {
    var a := SpreadRadians(sp.angleMax);
    -a / 2.0 <= sp.yaw < a / 2.0 && -a / 2.0 <= sp.pitch < a / 2.0
  }

  lemma HalfRange(r: real, a: real)
    requires 0.0 <= r < 1.0 && a > 0.0
    ensures -a / 2.0 <= Sample(r, a) < a / 2.0
  {
    assert Sample(r, a) == r * a - a / 2.0;
    assert 0.0 <= r * a < a by {
      assert (1.0 - r) * a > 0.0;
    }
  }

  /** For random values in [0, 1) and a positive maximum, both sampled angles lie in
      [-a/2, a/2). */
  lemma SpreadWithinHalfRange(angleMax: real, yawRandom: real, pitchRandom: real)
    requires angleMax > 0.0 && 0.0 <= yawRandom < 1.0 && 0.0 <= pitchRandom < 1.0
    ensures WithinHalfRange(ApplySpread(angleMax, yawRandom, pitchRandom))
  {
    var a := SpreadRadians(angleMax);
    assert a > 0.0;
    HalfRange(yawRandom, a);
    HalfRange(pitchRandom, a);
  }

  /** The shotgun's first `count` pellets; pellet i reads random values 2i and 2i + 1. */
  function Pellets(random: nat -> real, count: nat): (r: seq<Bullet>)
    ensures |r| == count
    ensures forall i :: 0 <= i < count ==> r[i] == Bullet(SHOTGUN_DAMAGE, Some(ApplySpread(SHOTGUN_SPREAD, random(2 * i), random(2 * i + 1))))
  {
    if count == 0 then []
    else Pellets(random, count - 1) + [Bullet(SHOTGUN_DAMAGE, Some(ApplySpread(SHOTGUN_SPREAD, random(2 * (count - 1)), random(2 * (count - 1) + 1))))]
  }

  /** The bullets `shoot` creates for a style: an unknown style falls back to the pistol. Only
      the shotgun fires more than one bullet; every bullet of one volley hits equally hard. */
  function Volley(style: string, random: nat -> real): (r: seq<Bullet>)
    ensures |r| == (if style == "shotgun" then SHOTGUN_PELLETS else 1)
    ensures forall b :: b in r ==> (b.spread.Some? <==> style in {"shotgun", "auto"})
    ensures forall b :: b in r ==> b.damage == r[0].damage > 0.0
  {
    match style
    case "shotgun" => Pellets(random, SHOTGUN_PELLETS)
    case "sniper" => [Bullet(SNIPER_DAMAGE, None)]
    case "auto" => [Bullet(AUTO_DAMAGE, Some(ApplySpread(AUTO_SPREAD, random(0), random(1))))]
    case _ => [Bullet(PISTOL_DAMAGE, None)]
  }

  /** The cooldown after `shoot`: shotgun, sniper and auto set their own; the pistol and an
      unknown style leave it as it was. */
  function NextCooldown(style: string, cooldown: nat): (c: nat)
    ensures style == "shotgun" ==> c == SHOTGUN_COOLDOWN_MS
    ensures style == "sniper" ==> c == SNIPER_COOLDOWN_MS
    ensures style == "auto" ==> c == AUTO_COOLDOWN_MS
    ensures style !in {"shotgun", "sniper", "auto"} ==> c == cooldown
  {
    match style
    case "shotgun" => SHOTGUN_COOLDOWN_MS
    case "sniper" => SNIPER_COOLDOWN_MS
    case "auto" => AUTO_COOLDOWN_MS
    case _ => cooldown
  }

  predicate IsKnownStyle(style: string) {
    style in {"pistol", "shotgun", "sniper", "auto"}
  }

  /** The dispatch table: the pistol fires one bullet of 30, the sniper one of 100, both
      straight; the auto fires one of 5 with a spread of 10 degrees; the shotgun fires six of 15
      with a spread of 20 degrees. */
  lemma VolleyTable(random: nat -> real)
    ensures Volley("pistol", random) == [Bullet(PISTOL_DAMAGE, None)]
    ensures Volley("sniper", random) == [Bullet(SNIPER_DAMAGE, None)]
    ensures var v := Volley("auto", random);
      |v| == 1 && v[0].damage == AUTO_DAMAGE && v[0].spread.Some? && v[0].spread.value.angleMax == AUTO_SPREAD
    ensures var v := Volley("shotgun", random);
      |v| == SHOTGUN_PELLETS == 6
      && forall i :: 0 <= i < |v| ==> v[i].damage == SHOTGUN_DAMAGE && v[i].spread.Some? && v[i].spread.value.angleMax == SHOTGUN_SPREAD
  {
  }

  /** An unknown style shoots exactly as the pistol does, and neither touches the cooldown. */
  lemma UnknownStyleIsPistol(style: string, random: nat -> real, cooldown: nat)
    requires !IsKnownStyle(style)
    ensures Volley(style, random) == Volley("pistol", random)
    ensures NextCooldown(style, cooldown) == NextCooldown("pistol", cooldown) == cooldown
  {
  }

  /** A weapon keeps its style, so from the second shot on its cooldown no longer changes: the
      delay before each shot's re-enable is the same. */
  lemma CooldownSettles(style: string, cooldown: nat)
    ensures NextCooldown(style, NextCooldown(style, cooldown)) == NextCooldown(style, cooldown)
  {
  }

  /** The re-enable delay of a fresh weapon's first shot is the cooldown after dispatch, not
      the initial 300: 750 for a shotgun, 1000 for a sniper, 100 for an auto, 300 otherwise. */
  lemma FirstShotDelay(style: string)
    ensures style == "shotgun" ==> NextCooldown(style, INITIAL_COOLDOWN_MS) == 750
    ensures style == "sniper" ==> NextCooldown(style, INITIAL_COOLDOWN_MS) == 1000
    ensures style == "auto" ==> NextCooldown(style, INITIAL_COOLDOWN_MS) == 100
    ensures style !in {"shotgun", "sniper", "auto"} ==> NextCooldown(style, INITIAL_COOLDOWN_MS) == 300
  {
  }

  /** With random values in [0, 1), every deviation of every bullet of every style lies in
      [-a/2, a/2) of its range. */
  lemma VolleyWithinHalfRange(style: string, random: nat -> real)
    requires forall i: nat :: 0.0 <= random(i) < 1.0
    ensures forall b :: b in Volley(style, random) && b.spread.Some? ==> WithinHalfRange(b.spread.value)
  {
    var v := Volley(style, random);
    forall b | b in v && b.spread.Some?
      ensures WithinHalfRange(b.spread.value)
    {
      var k :| 0 <= k < |v| && v[k] == b;
      if style == "shotgun" {
        SpreadWithinHalfRange(SHOTGUN_SPREAD, random(2 * k), random(2 * k + 1));
      } else {
        SpreadWithinHalfRange(AUTO_SPREAD, random(0), random(1));
      }
    }
  }

  class Weapon {
    const style: string
    /** The player entity whose `_canShoot` the weapon clears and sets. */
    const player: PlayerControllers.PlayerEntity
    var cooldown: nat
    /** The bullets fired so far. */
    var bullets: seq<Bullet>
    /** The delays of the re-enable timers started so far. */
    var reenableDelays: seq<nat>

    constructor (style: string, player: PlayerControllers.PlayerEntity)
      ensures this.style == style && this.player == player
      ensures cooldown == INITIAL_COOLDOWN_MS && bullets == [] && reenableDelays == []
    {
      this.style := style;
      this.player := player;
      cooldown := INITIAL_COOLDOWN_MS;
      bullets := [];
      reenableDelays := [];
    }

    /** `_shootBullet`: shooting is disabled, the style's volley is fired and the re-enable
        timer starts with the cooldown as `shoot` left it. */
    method ShootBullet(random: nat -> real)
      modifies this, player
      ensures !player.canShoot
      ensures player.canTeleport == old(player.canTeleport) && player.position == old(player.position)
      ensures player.hasBody == old(player.hasBody) && player.velocity == old(player.velocity)
      ensures player.damageRequests == old(player.damageRequests)
      ensures bullets == old(bullets) + Volley(style, random)
      ensures cooldown == NextCooldown(style, old(cooldown))
      ensures reenableDelays == old(reenableDelays) + [cooldown]
    {
      player.canShoot := false;
      Shoot(random);
      reenableDelays := reenableDelays + [cooldown];
    }

    /** `shoot`: the dispatch on the style. */
    method Shoot(random: nat -> real)
      modifies this
      ensures bullets == old(bullets) + Volley(style, random)
      ensures cooldown == NextCooldown(style, old(cooldown))
      ensures reenableDelays == old(reenableDelays)
    {
      match style
      case "pistol" =>
        bullets := bullets + [Bullet(PISTOL_DAMAGE, None)];
      case "shotgun" =>
        ShootShotgun(random);
        cooldown := SHOTGUN_COOLDOWN_MS;
      case "sniper" =>
        bullets := bullets + [Bullet(SNIPER_DAMAGE, None)];
        cooldown := SNIPER_COOLDOWN_MS;
      case "auto" =>
        bullets := bullets + [Bullet(AUTO_DAMAGE, Some(ApplySpread(AUTO_SPREAD, random(0), random(1))))];
        cooldown := AUTO_COOLDOWN_MS;
      case _ =>
        bullets := bullets + [Bullet(PISTOL_DAMAGE, None)];
    }

    /** `_shootShotgun`: six pellets, each with its own spread. */
    method ShootShotgun(random: nat -> real)
      modifies this
      ensures bullets == old(bullets) + Pellets(random, SHOTGUN_PELLETS)
      ensures cooldown == old(cooldown) && reenableDelays == old(reenableDelays)
    {
      var i := 0;
      while i < SHOTGUN_PELLETS
        invariant 0 <= i <= SHOTGUN_PELLETS
        invariant bullets == old(bullets) + Pellets(random, i)
        invariant cooldown == old(cooldown) && reenableDelays == old(reenableDelays)
      {
        var spread := ApplySpread(SHOTGUN_SPREAD, random(2 * i), random(2 * i + 1));
        bullets := bullets + [Bullet(SHOTGUN_DAMAGE, Some(spread))];
        i := i + 1;
      }
    }

    /** The re-enable timer firing. */
    method TimerFires()
      modifies player
      ensures player.canShoot
      ensures player.canTeleport == old(player.canTeleport) && player.position == old(player.position)
      ensures player.hasBody == old(player.hasBody) && player.velocity == old(player.velocity)
      ensures player.damageRequests == old(player.damageRequests)
    {
      player.canShoot := true;
    }
  }
}
