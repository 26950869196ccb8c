/** The door record of the lazy room models (src/model/doorModel.ts): a direction code picks
    the door's name suffix, its size and its position; an unknown code throws. */
module DoorModels {
  import opened Geometry
  import opened Outcomes

  const NORTH: int := 0
  const SOUTH: int := 1
  const EAST: int := 2
  const WEST: int := 3
  const DOOR_WIDTH: real := 4.0
  const DOOR_DEPTH: real := 2.0

  /** The colour a door is declared with before its constructor overwrites it. */
  const DefaultColor: Color3 := Color3(1.0, 1.0, 1.0)

  /** A direction code the constructor accepts. */
  predicate IsDirectionCode(direction: int) {
    direction == NORTH || direction == SOUTH || direction == EAST || direction == WEST
  }

  /** Shared by both door revisions: the constructor was given a code outside 0..3. */
  datatype DoorError = InvalidDirection(direction: int)

  datatype DoorModel = DoorModel(name: string, size: Vec3, position: Vec3, color: Color3)

  /** North and south doors are the horizontal ones. */
  function IsHorizontal(direction: int): bool {
    direction == NORTH || direction == SOUTH
  }

  /** The door's own box: DOOR_WIDTH wide across x and a wall thick on a horizontal wall, a
      wall thick across x and DOOR_DEPTH deep across z otherwise. */
  function DoorSize(direction: int): (r: Vec3)
    ensures r.y == WALL_HEIGHT
    ensures IsHorizontal(direction) <==> r.x == DOOR_WIDTH
    ensures IsHorizontal(direction) <==> r.z == WALL_THICKNESS
    ensures !IsHorizontal(direction) ==> r.x == WALL_THICKNESS && r.z == DOOR_DEPTH
  {
    if IsHorizontal(direction) then Vec3(DOOR_WIDTH, WALL_HEIGHT, WALL_THICKNESS)
    else Vec3(WALL_THICKNESS, WALL_HEIGHT, DOOR_DEPTH)
  }

  /** The suffix the constructor appends to the given name. */
  function DoorSuffix(direction: int): string {
    if direction == NORTH then "_north_door"
    else if direction == SOUTH then "_south_door"
    else if direction == EAST then "_east_door"
    else "_west_door"
  }

  /** The constructor. The position is computed from the door's own size (not from a room's),
      relative to the door. */
  function NewDoorModel(name: string, direction: int, color: Color3): (r: Result<DoorModel, DoorError>)
    ensures r.Ok? <==> IsDirectionCode(direction)
    ensures r.Err? ==> r.error == InvalidDirection(direction)
    ensures r.Ok? ==> r.value.name == name + DoorSuffix(direction)
    ensures r.Ok? ==> r.value.size == DoorSize(direction)
    ensures r.Ok? ==> r.value.color == color
    ensures r.Ok? ==> r.value.position.y == WALL_HEIGHT / 2.0
  {
    var size := DoorSize(direction);
    if direction == NORTH then
      Ok(DoorModel(name + "_north_door", size, Vec3(size.x / 2.0, WALL_HEIGHT / 2.0, WALL_THICKNESS / 2.0), color))
    else if direction == SOUTH then
      Ok(DoorModel(name + "_south_door", size, Vec3(size.x / 2.0, WALL_HEIGHT / 2.0, size.z - WALL_THICKNESS / 2.0), color))
    else if direction == EAST then
      Ok(DoorModel(name + "_east_door", size, Vec3(size.x - WALL_THICKNESS / 2.0, WALL_HEIGHT / 2.0, size.z / 2.0), color))
    else if direction == WEST then
      Ok(DoorModel(name + "_west_door", size, Vec3(WALL_THICKNESS / 2.0, WALL_HEIGHT / 2.0, size.z / 2.0), color))
    else
      Err(InvalidDirection(direction))
  }

  /** Because the position depends only on the door's own size, north and south doors land on
      the same point, and so do east and west doors. */
  lemma OppositeDoorsCoincide(name: string, color: Color3)
    ensures NewDoorModel(name, NORTH, color).value.position == NewDoorModel(name, SOUTH, color).value.position
    ensures NewDoorModel(name, EAST, color).value.position == NewDoorModel(name, WEST, color).value.position
    ensures NewDoorModel(name, NORTH, color).value.position != NewDoorModel(name, EAST, color).value.position
  {
  }

  /** The four doors made from one name have four different names. */
  lemma DoorNamesDistinct(name: string, d1: int, d2: int)
    requires IsDirectionCode(d1) && IsDirectionCode(d2) && d1 != d2
    ensures NewDoorModel(name, d1, DefaultColor).value.name != NewDoorModel(name, d2, DefaultColor).value.name
  {
    var n1, n2 := name + DoorSuffix(d1), name + DoorSuffix(d2);
    var k := |name| + 1;
    if |n1| == |n2| {
      assert n1[k] == DoorSuffix(d1)[1] && n2[k] == DoorSuffix(d2)[1];
    }
  }

  /** Neither the name nor the colour moves or resizes a door. */
  lemma GeometryDependsOnlyOnDirection(name1: string, name2: string, color1: Color3, color2: Color3, direction: int)
    requires IsDirectionCode(direction)
    ensures NewDoorModel(name1, direction, color1).value.position == NewDoorModel(name2, direction, color2).value.position
    ensures NewDoorModel(name1, direction, color1).value.size == NewDoorModel(name2, direction, color2).value.size
  {
  }
}
