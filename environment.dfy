/** The lazy environment (src/environment.ts): the list of room models, reciprocal exits
    between two rooms, and which room the single current room view shows. */
module Environments {
  import opened Geometry
  import opened Outcomes
  import DoorModels
  import Rooms
  import SizedDoorModels

  /** One call of the room model's `addDoor(direction, room)`. */
  datatype DoorCall = DoorCall(direction: int, target: RoomModel)

  /** A room model as the environment, the player controller and the floor-based enemy manager
      use it: name, size and corner position, plus the `addDoor` calls it has received. */
  class RoomModel {
    const name: string
    const size: Vec3
    const position: Vec3
    var doorCalls: seq<DoorCall>

    constructor (name: string, size: Vec3, position: Vec3)
      ensures this.name == name && this.size == size && this.position == position
      ensures doorCalls == []
    {
      this.name := name;
      this.size := size;
      this.position := position;
      doorCalls := [];
    }

    /** Sets the door slot of `direction` to lead to `target`. */
    method AddDoor(direction: int, target: RoomModel)
      modifies this
      ensures doorCalls == old(doorCalls) + [DoorCall(direction, target)]
    {
      doorCalls := doorCalls + [DoorCall(direction, target)];
    }
  }

  datatype DirectionError = InvalidDirection(direction: string)

  /** `_getOppositeDirection`: north and south swap, east and west swap, anything else throws. */
  function GetOppositeDirection(direction: string): (r: Result<string, DirectionError>)
    ensures r.Ok? <==> IsDirectionName(direction)
    ensures r.Err? ==> r.error == InvalidDirection(direction)
    ensures r.Ok? ==> IsDirectionName(r.value) && r.value != direction
    ensures r.Ok? ==> (direction == "north" || direction == "south" <==> r.value == "north" || r.value == "south")
  {
    match direction
    case "north" => Ok("south")
    case "south" => Ok("north")
    case "east" => Ok("west")
    case "west" => Ok("east")
    case _ => Err(InvalidDirection(direction))
  }

  /** Taking the opposite twice gives back the direction. */
  lemma OppositeIsInvolution(direction: string)
    requires IsDirectionName(direction)
    ensures GetOppositeDirection(GetOppositeDirection(direction).value) == Ok(direction)
  {
  }

  /** The opposite direction is a bijection of the four names: two directions with the same
      opposite are the same direction. */
  lemma OppositeIsInjective(d1: string, d2: string)
    requires GetOppositeDirection(d1).Ok? && GetOppositeDirection(d1) == GetOppositeDirection(d2)
    ensures d1 == d2
  {
  }

  /** The door code `createExit` passes to `addDoor` for a wall name; its switches have no
      default, so an unknown name adds no door. */
  function DoorCode(direction: string): (r: Option<int>)
    ensures r.Some? <==> IsDirectionName(direction)
    ensures r.Some? ==> DoorModels.IsDirectionCode(r.value)
    ensures r.Some? ==> DoorModels.DoorSuffix(r.value) == "_" + direction + "_door"
  {
    match direction
    case "north" => Some(DoorModels.NORTH)
    case "south" => Some(DoorModels.SOUTH)
    case "east" => Some(DoorModels.EAST)
    case "west" => Some(DoorModels.WEST)
    case _ => None
  }

  /** The opposite wall is the one facing it across the room: the exits on a wall and on its
      opposite sit at mirrored offsets, summing to the room's far corner at full wall height. */
  lemma OppositeExitsMirror(direction: string, size: Vec3)
    requires IsDirectionName(direction)
    ensures Add(Rooms.ExitOffset(direction, size).value, Rooms.ExitOffset(GetOppositeDirection(direction).value, size).value)
      == Vec3(size.x, WALL_HEIGHT, size.z)
  {
  }

  /** The door code of a wall name is the code the door records read back as that wall. */
  lemma DoorCodeNamesWall(direction: string)
    requires IsDirectionName(direction)
    ensures SizedDoorModels.CodeName(DoorCode(direction).value) == direction
  {
  }

  /** Different wall names get different door codes. */
  lemma DoorCodeInjective(d1: string, d2: string)
    requires DoorCode(d1).Some? && DoorCode(d1) == DoorCode(d2)
    ensures d1 == d2
  {
  }

  /** The door `createExit` adds to the far room: the opposite wall's code, leading back. */
  function ReturnDoor(direction: string, back: RoomModel): (r: DoorCall)
    requires IsDirectionName(direction)
    ensures Some(r.direction) == DoorCode(GetOppositeDirection(direction).value)
    ensures r.target == back
  {
    DoorCall(DoorCode(GetOppositeDirection(direction).value).value, back)
  }

  class Environment {
    var rooms: seq<RoomModel>
    /** The room the current room view shows, or None before any room exists. */
    var currentRoomView: Option<RoomModel>

    constructor ()
      ensures rooms == [] && currentRoomView == None
    {
      rooms := [];
      currentRoomView := None;
    }

    /** Appends a new room; the first room ever created also becomes the viewed one. */
    method CreateRoom(name: string, size: Vec3, position: Vec3) returns (room: RoomModel)
      modifies this
      ensures fresh(room) && room.name == name && room.size == size && room.position == position
      ensures room.doorCalls == []
      ensures rooms == old(rooms) + [room]
      ensures currentRoomView == if old(currentRoomView).None? then Some(room) else old(currentRoomView)
    {
      room := new RoomModel(name, size, position);
      rooms := rooms + [room];
      if currentRoomView.None? {
        currentRoomView := Some(room);
      }
    }

    /** Gives `room1` a door on `direction` leading to `room2`, then gives `room2` a door on the
        opposite wall leading back; an unknown direction adds nothing and throws. */
    method CreateExit(room1: RoomModel, room2: RoomModel, direction: string) returns (r: Outcome<DirectionError>)
      modifies room1, room2
      ensures r.Pass? <==> IsDirectionName(direction)
      ensures !IsDirectionName(direction) ==> r == Fail(InvalidDirection(direction))
      ensures !IsDirectionName(direction) ==> room1.doorCalls == old(room1.doorCalls) && room2.doorCalls == old(room2.doorCalls)
      ensures IsDirectionName(direction) && room1 != room2 ==>
        && room1.doorCalls == old(room1.doorCalls) + [DoorCall(DoorCode(direction).value, room2)]
        && room2.doorCalls == old(room2.doorCalls) + [ReturnDoor(direction, room1)]
      ensures IsDirectionName(direction) && room1 == room2 ==>
        room1.doorCalls == old(room1.doorCalls) + [DoorCall(DoorCode(direction).value, room2), ReturnDoor(direction, room1)]
    {
      var code := DoorCode(direction);
      if code.Some? {
        room1.AddDoor(code.value, room2);
      }
      var opposite := GetOppositeDirection(direction);
      match opposite
      case Err(e) =>
        return Fail(e);
      case Ok(o) =>
        room2.AddDoor(DoorCode(o).value, room1);
        return Pass;
    }

    /** The current view is replaced by one for the entered room. */
    method PlayerEnter(room: RoomModel)
      modifies this
      ensures currentRoomView == Some(room)
      ensures rooms == old(rooms)
    {
      currentRoomView := Some(room);
    }

    /** Leaving a room only logs: it has nothing to modify. */
    method PlayerExit(room: RoomModel)
      ensures rooms == old(rooms) && currentRoomView == old(currentRoomView)
    {
    }
  }
}
