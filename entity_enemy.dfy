/** The enemy base class that the newer enemy manager and the decorators build on. Its source,
    src/entities/enemy/enemy.ts, is not part of this model: the class keeps the attributes the
    manager and the decorators read (name, player, position, damage, health) and records, in
    order, every call they make on it, without giving those calls a meaning of their own. */
module EntityEnemies {
  import opened Geometry
  import PlayerControllers

  /** A call made on an enemy from outside. A behaviour callback is known by an identifier. */
  datatype Call =
    | Updated
    | Toggled
    | BehaviorSet(id: nat)
    | Disposed
    /** `_body.setLinearVelocity(v)`. */
    | VelocitySet(velocity: VelocityCommand)

  class Enemy {
    const name: string
    const player: PlayerControllers.PlayerEntity
    const damage: real
    var health: real
    var position: Vec3
    var calls: seq<Call>

    constructor (name: string, player: PlayerControllers.PlayerEntity, position: Vec3, damage: real, health: real)
      ensures this.name == name && this.player == player && this.position == position
      ensures this.damage == damage && this.health == health && calls == []
    {
      this.name := name;
      this.player := player;
      this.position := position;
      this.damage := damage;
      this.health := health;
      calls := [];
    }

    /** Records `c` and changes nothing else. */
    method Record(c: Call)
      modifies this
      ensures calls == old(calls) + [c]
      ensures health == old(health) && position == old(position)
    {
      calls := calls + [c];
    }

    method Update()
      modifies this
      ensures calls == old(calls) + [Updated]
      ensures health == old(health) && position == old(position)
    {
      Record(Updated);
    }

    method ToggleActiveState()
      modifies this
      ensures calls == old(calls) + [Toggled]
      ensures health == old(health) && position == old(position)
    {
      Record(Toggled);
    }

    method SetAIBehavior(id: nat)
      modifies this
      ensures calls == old(calls) + [BehaviorSet(id)]
      ensures health == old(health) && position == old(position)
    {
      Record(BehaviorSet(id));
    }

    method Dispose()
      modifies this
      ensures calls == old(calls) + [Disposed]
      ensures health == old(health) && position == old(position)
    {
      Record(Disposed);
    }

    method SetLinearVelocity(v: VelocityCommand)
      modifies this
      ensures calls == old(calls) + [VelocitySet(v)]
      ensures health == old(health) && position == old(position)
    {
      Record(VelocitySet(v));
    }
  }
}
