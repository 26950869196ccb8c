/** The older door record (src/doorModel.ts): built from a direction code and the room's size;
    its name is the bare wall name and its position is placed against that wall. */
module SizedDoorModels {
  import opened Geometry
  import opened Outcomes
  import DoorModels
  import Rooms

  datatype Door = Door(name: string, size: Vec3, position: Vec3)

  /** The wall name of a direction code. */
  function CodeName(direction: int): string {
    if direction == DoorModels.NORTH then "north"
    else if direction == DoorModels.SOUTH then "south"
    else if direction == DoorModels.EAST then "east"
    else "west"
  }

  /** The constructor: `size` is stored as given and the position is measured from it. */
  function NewDoor(direction: int, size: Vec3): (r: Result<Door, DoorModels.DoorError>)
    ensures r.Ok? <==> DoorModels.IsDirectionCode(direction)
    ensures r.Err? ==> r.error == DoorModels.InvalidDirection(direction)
    ensures r.Ok? ==> r.value.size == size && r.value.name == CodeName(direction)
    ensures r.Ok? ==> r.value.position.y == WALL_HEIGHT / 2.0
    ensures r.Ok? ==> IsDirectionName(r.value.name)
  {
    match direction
    case 0 => Ok(Door("north", size, Vec3(size.x / 2.0, WALL_HEIGHT / 2.0, WALL_THICKNESS / 2.0)))
    case 1 => Ok(Door("south", size, Vec3(size.x / 2.0, WALL_HEIGHT / 2.0, size.z - WALL_THICKNESS / 2.0)))
    case 2 => Ok(Door("east", size, Vec3(size.x - WALL_THICKNESS / 2.0, WALL_HEIGHT / 2.0, size.z / 2.0)))
    case 3 => Ok(Door("west", size, Vec3(WALL_THICKNESS / 2.0, WALL_HEIGHT / 2.0, size.z / 2.0)))
    case _ => Err(DoorModels.InvalidDirection(direction))
  }

  /** Doors on opposite walls mirror each other across the room's middle. */
  lemma OppositeDoorsMirror(size: Vec3)
    ensures NewDoor(DoorModels.NORTH, size).value.position.z + NewDoor(DoorModels.SOUTH, size).value.position.z == size.z
    ensures NewDoor(DoorModels.EAST, size).value.position.x + NewDoor(DoorModels.WEST, size).value.position.x == size.x
    ensures NewDoor(DoorModels.NORTH, size).value.position.x == NewDoor(DoorModels.SOUTH, size).value.position.x == size.x / 2.0
    ensures NewDoor(DoorModels.EAST, size).value.position.z == NewDoor(DoorModels.WEST, size).value.position.z == size.z / 2.0
  {
  }

  /** This revision puts each door where src/room.ts puts the exit on the same wall, relative
      to the room's corner. */
  lemma AgreesWithRoomExits(direction: int, size: Vec3)
    requires DoorModels.IsDirectionCode(direction)
    ensures Rooms.ExitOffset(CodeName(direction), size) == Ok(NewDoor(direction, size).value.position)
  {
  }
}
