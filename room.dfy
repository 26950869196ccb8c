/** A room of the eager grid (src/room.ts) and the two-room exit record it stores
    (src/exit.ts). The room keeps one exit slot per wall in a plain object literal; meshes and
    materials are left out. */
module Rooms {
  import opened Geometry
  import opened Outcomes
  import PlainObjects

  const EXIT_WIDTH: real := 4.0
  const EXIT_DEPTH: real := 2.0

  /** An exit joins two rooms; which one is "the other side" is decided by whoever crosses it. */
  datatype Exit = Exit(room1: Room, room2: Room)

  datatype RoomError =
    | ExitAlreadyExists(direction: string, roomName: string)
    | InvalidDirection(direction: string)

  /** The box `setExit` builds for an exit: its size and its world position. */
  datatype ExitGeometry = ExitGeometry(size: Vec3, position: Vec3)

  /** What `setExit` leaves in the exit table and what it hands back (or throws). */
  datatype SetExitOutcome = SetExitOutcome(exits: map<string, Option<Exit>>, result: Result<ExitGeometry, RoomError>)

  /** A new room's exit table: the four walls, none of them with an exit. */
  const EmptyExits: map<string, Option<Exit>> :=
    map["north" := None, "south" := None, "east" := None, "west" := None]

  /** `this._exits[direction]` is truthy: an own key holding an exit, or, for a name the
      table does not hold, a member the object literal inherits. Any other absent key reads
      as undefined, which is empty. */
  predicate Occupied(exits: map<string, Option<Exit>>, direction: string) {
    if direction in exits then exits[direction].Some? else direction in PlainObjects.INHERITED
  }

  /** Exit boxes on the north and south walls are EXIT_WIDTH wide across x and a wall thick
      across z; the others are a wall thick across x and EXIT_DEPTH deep across z. */
  function ExitSize(direction: string): (r: Vec3)
    ensures r.y == WALL_HEIGHT
    ensures direction == "north" || direction == "south" <==> r.x == EXIT_WIDTH
    ensures direction == "north" || direction == "south" <==> r.z == WALL_THICKNESS
    ensures !(direction == "north" || direction == "south") ==> r.x == WALL_THICKNESS && r.z == EXIT_DEPTH
  {
    if direction == "north" || direction == "south" then Vec3(EXIT_WIDTH, WALL_HEIGHT, WALL_THICKNESS)
    else Vec3(WALL_THICKNESS, WALL_HEIGHT, EXIT_DEPTH)
  }

  /** `_getExitPosition` relative to the room's corner `position`. */
  function ExitOffset(direction: string, size: Vec3): (r: Result<Vec3, RoomError>)
    ensures r.Ok? <==> IsDirectionName(direction)
    ensures r.Err? ==> r.error == InvalidDirection(direction)
    ensures r.Ok? ==> r.value.y == WALL_HEIGHT / 2.0
  {
    match direction
    case "north" => Ok(Vec3(size.x / 2.0, WALL_HEIGHT / 2.0, WALL_THICKNESS / 2.0))
    case "south" => Ok(Vec3(size.x / 2.0, WALL_HEIGHT / 2.0, size.z - WALL_THICKNESS / 2.0))
    case "east" => Ok(Vec3(size.x - WALL_THICKNESS / 2.0, WALL_HEIGHT / 2.0, size.z / 2.0))
    case "west" => Ok(Vec3(WALL_THICKNESS / 2.0, WALL_HEIGHT / 2.0, size.z / 2.0))
    case _ => Err(InvalidDirection(direction))
  }

  /** `setExit` on an exit table. The occupancy test comes first and throws without writing;
      otherwise the slot is written and only then is the direction's position looked up, so
      a name outside the four walls that the object does not inherit is stored before the
      lookup throws. */
  function SetExitOn(exits: map<string, Option<Exit>>, roomName: string, position: Vec3, size: Vec3,
                     exit: Exit, direction: string): (r: SetExitOutcome)
    ensures Occupied(exits, direction) ==> r.exits == exits
    ensures Occupied(exits, direction) ==> r.result == Err(ExitAlreadyExists(direction, roomName))
    ensures !Occupied(exits, direction) ==> r.exits == exits[direction := Some(exit)]
    ensures r.result.Ok? <==> !Occupied(exits, direction) && IsDirectionName(direction)
    ensures r.result.Ok? ==> r.result.value.size == ExitSize(direction)
  {
    if Occupied(exits, direction) then
      SetExitOutcome(exits, Err(ExitAlreadyExists(direction, roomName)))
    else
      var written := exits[direction := Some(exit)];
      match ExitOffset(direction, size)
      case Ok(offset) => SetExitOutcome(written, Ok(ExitGeometry(ExitSize(direction), Add(position, offset))))
      case Err(e) => SetExitOutcome(written, Err(e))
  }

  /** The exit box of a valid direction lies inside the room's box, flush with its wall,
      provided the room is at least as large as the box. */
  lemma ExitWithinRoom(direction: string, size: Vec3)
    requires IsDirectionName(direction)
    requires size.x >= EXIT_WIDTH && size.z >= EXIT_DEPTH
    ensures var o := ExitOffset(direction, size).value; var s := ExitSize(direction);
      && 0.0 <= o.x - s.x / 2.0 && o.x + s.x / 2.0 <= size.x
      && 0.0 <= o.y - s.y / 2.0 && o.y + s.y / 2.0 <= WALL_HEIGHT
      && 0.0 <= o.z - s.z / 2.0 && o.z + s.z / 2.0 <= size.z
    ensures var o := ExitOffset(direction, size).value; var s := ExitSize(direction);
      && (direction == "north" ==> o.z - s.z / 2.0 == 0.0)
      && (direction == "south" ==> o.z + s.z / 2.0 == size.z)
      && (direction == "east" ==> o.x + s.x / 2.0 == size.x)
      && (direction == "west" ==> o.x - s.x / 2.0 == 0.0)
  {
  }

  /** A name that every object literal inherits, such as `toString`, already reads as an exit:
      `setExit` throws already-exists and writes nothing. */
  lemma InheritedNameIsOccupied(exits: map<string, Option<Exit>>, roomName: string, position: Vec3,
                                size: Vec3, exit: Exit, direction: string)
    requires direction in PlainObjects.INHERITED && direction !in exits
    ensures SetExitOn(exits, roomName, position, size, exit, direction)
      == SetExitOutcome(exits, Err(ExitAlreadyExists(direction, roomName)))
  {
  }

  /** Opposite walls mirror each other: north and south share x and their z offsets add up to
      the room's depth; east and west share z and their x offsets add up to its width. */
  lemma ExitsMirror(size: Vec3)
    ensures ExitOffset("north", size).value.x == ExitOffset("south", size).value.x == size.x / 2.0
    ensures ExitOffset("north", size).value.z + ExitOffset("south", size).value.z == size.z
    ensures ExitOffset("east", size).value.z == ExitOffset("west", size).value.z == size.z / 2.0
    ensures ExitOffset("east", size).value.x + ExitOffset("west", size).value.x == size.x
  {
  }

  /** How many of the four walls hold an exit. */
  function ExitCount(exits: map<string, Option<Exit>>): (n: nat)
    ensures n <= 4
  {
    (if Occupied(exits, "north") then 1 else 0) + (if Occupied(exits, "south") then 1 else 0)
    + (if Occupied(exits, "east") then 1 else 0) + (if Occupied(exits, "west") then 1 else 0)
  }

  /** One `setExit` request. */
  datatype SetExitCall = SetExitCall(exit: Exit, direction: string)

  /** The exit table after a sequence of `setExit` calls, each made whatever the earlier ones
      threw, and how many of them succeeded. */
  function ReplaySetExits(exits: map<string, Option<Exit>>, roomName: string, position: Vec3, size: Vec3,
                          calls: seq<SetExitCall>): (r: (map<string, Option<Exit>>, nat))
    decreases |calls|
  {
    if calls == [] then (exits, 0)
    else
      var step := SetExitOn(exits, roomName, position, size, calls[0].exit, calls[0].direction);
      var rest := ReplaySetExits(step.exits, roomName, position, size, calls[1..]);
      (rest.0, rest.1 + (if step.result.Ok? then 1 else 0))
  }

  /** Every successful `setExit` fills one more of the four walls, so the number of successes
      is exactly how many walls gained an exit. */
  lemma {:induction false} ReplayCountsFilledWalls(exits: map<string, Option<Exit>>, roomName: string,
                                                   position: Vec3, size: Vec3, calls: seq<SetExitCall>)
    ensures var r := ReplaySetExits(exits, roomName, position, size, calls);
      ExitCount(r.0) == ExitCount(exits) + r.1
    decreases |calls|
  {
    if calls != [] {
      var step := SetExitOn(exits, roomName, position, size, calls[0].exit, calls[0].direction);
      ReplayCountsFilledWalls(step.exits, roomName, position, size, calls[1..]);
    }
  }

  /** Starting from a new room, however many `setExit` calls are made, at most four succeed. */
  lemma AtMostFourExits(roomName: string, position: Vec3, size: Vec3, calls: seq<SetExitCall>)
    ensures ReplaySetExits(EmptyExits, roomName, position, size, calls).1 <= 4
  {
    ReplayCountsFilledWalls(EmptyExits, roomName, position, size, calls);
    assert ExitCount(EmptyExits) == 0;
  }

  class Room {
    const name: string
    const size: Vec3
    const center: Vec3
    /** The room's minimum corner: the centre less half the size. */
    const position: Vec3
    var exits: map<string, Option<Exit>>

    constructor (name: string, size: Vec3, center: Vec3)
      ensures this.name == name && this.size == size && this.center == center
      ensures position == Sub(center, Scale(size, 0.5))
      ensures exits == EmptyExits
    {
      this.name := name;
      this.size := size;
      this.center := center;
      position := Sub(center, Scale(size, 0.5));
      exits := EmptyExits;
    }

    /** `_getExitPosition`: the world position of the exit on the given wall. */
    function GetExitPosition(direction: string): (r: Result<Vec3, RoomError>)
      ensures r.Ok? <==> IsDirectionName(direction)
      ensures r.Ok? ==> r.value == Add(position, ExitOffset(direction, size).value)
    {
      match ExitOffset(direction, size)
      case Ok(offset) => Ok(Add(position, offset))
      case Err(e) => Err(e)
    }

    method SetExit(exit: Exit, direction: string) returns (r: Result<ExitGeometry, RoomError>)
      modifies this
      ensures SetExitOutcome(exits, r) == SetExitOn(old(exits), name, position, size, exit, direction)
      ensures old(Occupied(exits, direction)) ==> exits == old(exits) && r.Err?
      ensures !old(Occupied(exits, direction)) ==> exits == old(exits)[direction := Some(exit)]
    {
      if Occupied(exits, direction) {
        return Err(ExitAlreadyExists(direction, name));
      }
      exits := exits[direction := Some(exit)];
      var exitSize := ExitSize(direction);
      var exitPosition := GetExitPosition(direction);
      match exitPosition
      case Ok(p) => r := Ok(ExitGeometry(exitSize, p));
      case Err(e) => r := Err(e);
    }
  }
}
