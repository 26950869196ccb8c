/** The room record (src/roomModel.ts): four walls, a floor and a roof derived from the room's
    size. The constructor writes `walls[0]` .. `walls[3]` into a field that was declared but
    never given an array, so as written every construction throws; `NewRoomModel` is the
    construction with the array allocated, which is what the rest of the record describes. */
module RoomModels {
  import opened Geometry
  import opened Outcomes

  /** A wall (src/wallModel.ts): name, size, position and colour, stored as given. */
  datatype WallModel = WallModel(name: string, size: Vec3, position: Vec3, color: Color3)

  /** A floor or roof slab, recorded by the arguments its constructor is given. */
  datatype SlabModel = SlabModel(name: string, size: Vec3, position: Vec3, color: Color3)

  datatype RoomModel = RoomModel(name: string, size: Vec3, walls: seq<WallModel>, floor: SlabModel, roof: SlabModel)

  /** The floor's and roof's vertical offsets, constants of FloorModel and RoofModel. */
  datatype SlabOffsets = SlabOffsets(floorDepthOffset: real, roofHeightOffset: real)

  datatype RoomModelError = CannotSetPropertyOfUndefined(index: nat)

  const WallColor: Color3 := Color3(0.5, 0.5, 0.5)
  const FloorColor: Color3 := Color3(0.4, 0.6, 0.4)
  const RoofColor: Color3 := Color3(0.4, 0.4, 0.6)

  /** The four walls in the order the constructor assigns them: north, south, east, west. */
  function Walls(size: Vec3): (r: seq<WallModel>)
    ensures |r| == 4
  {
    [ WallModel("north", Vec3(size.x, WALL_HEIGHT, WALL_THICKNESS), Vec3(size.x / 2.0, WALL_HEIGHT / 2.0, 0.0), WallColor),
      WallModel("south", Vec3(size.x, WALL_HEIGHT, WALL_THICKNESS), Vec3(size.x / 2.0, WALL_HEIGHT / 2.0, size.z), WallColor),
      WallModel("east", Vec3(WALL_THICKNESS, WALL_HEIGHT, size.z), Vec3(size.x, WALL_HEIGHT / 2.0, size.z / 2.0), WallColor),
      WallModel("west", Vec3(WALL_THICKNESS, WALL_HEIGHT, size.z), Vec3(0.0, WALL_HEIGHT / 2.0, size.z / 2.0), WallColor) ]
  }

  /** `walls[index] = wall` on a field that may hold no array: writing into `undefined` throws
      a TypeError; writing at the end of an array extends it. */
  function StoreWall(walls: Option<seq<WallModel>>, index: nat, wall: WallModel): (r: Result<seq<WallModel>, RoomModelError>)
    requires walls.Some? ==> index <= |walls.value|
    ensures walls.None? <==> r.Err?
    ensures r.Ok? ==> |r.value| == if index == |walls.value| then index + 1 else |walls.value|
    ensures r.Ok? ==> r.value[index] == wall
  {
    match walls
    case None => Err(CannotSetPropertyOfUndefined(index))
    case Some(w) => if index == |w| then Ok(w + [wall]) else Ok(w[index := wall])
  }

  /** The constructor body, run on whatever the `walls` field holds when it starts. */
  function Construct(name: string, size: Vec3, offsets: SlabOffsets, walls: Option<seq<WallModel>>): (r: Result<RoomModel, RoomModelError>)
    requires walls.Some? ==> walls.value == []
  {
    var ws := Walls(size);
    match StoreWall(walls, 0, ws[0])
    case Err(e) => Err(e)
    case Ok(w0) =>
      match StoreWall(Some(w0), 1, ws[1])
      case Err(e) => Err(e)
      case Ok(w1) =>
        match StoreWall(Some(w1), 2, ws[2])
        case Err(e) => Err(e)
        case Ok(w2) =>
          match StoreWall(Some(w2), 3, ws[3])
          case Err(e) => Err(e)
          case Ok(w3) =>
            Ok(RoomModel(name, size, w3,
              SlabModel(name + "_floor", size, Vec3(size.x / 2.0, offsets.floorDepthOffset, size.z / 2.0), FloorColor),
              SlabModel(name + "_roof", size, Vec3(size.x / 2.0, WALL_HEIGHT - offsets.roofHeightOffset, size.z / 2.0), RoofColor)))
  }

  /** The constructor as written: `walls` is declared without an initialiser. */
  function NewRoomModelAsWritten(name: string, size: Vec3, offsets: SlabOffsets): (r: Result<RoomModel, RoomModelError>)
    ensures r.Err?
  {
    Construct(name, size, offsets, None)
  }

  /** As written, constructing any room model throws at the first wall write. */
  lemma AsWrittenConstructionThrows(name: string, size: Vec3, offsets: SlabOffsets)
    ensures NewRoomModelAsWritten(name, size, offsets) == Err(CannotSetPropertyOfUndefined(0))
  {
  }

  /** The constructor with `walls` allocated as an empty array before the four writes. */
  function NewRoomModel(name: string, size: Vec3, offsets: SlabOffsets): (r: RoomModel)
    ensures r.name == name && r.size == size
    ensures r.walls == Walls(size)
    ensures r.floor.name == name + "_floor" && r.roof.name == name + "_roof"
    ensures r.floor.position == Vec3(size.x / 2.0, offsets.floorDepthOffset, size.z / 2.0)
    ensures r.roof.position == Vec3(size.x / 2.0, WALL_HEIGHT - offsets.roofHeightOffset, size.z / 2.0)
    ensures r.floor.size == size && r.roof.size == size
    ensures r.floor.color == FloorColor && r.roof.color == RoofColor
  {
    var r := Construct(name, size, offsets, Some([]));
    assert r.Ok?;
    r.value
  }

  /** Walls sit at indices 0..3 in the order north, south, east, west, all gray. */
  lemma WallsInOrder(name: string, size: Vec3, offsets: SlabOffsets)
    ensures var ws := NewRoomModel(name, size, offsets).walls;
      |ws| == 4 && ws[0].name == "north" && ws[1].name == "south" && ws[2].name == "east" && ws[3].name == "west"
      && forall i :: 0 <= i < 4 ==> ws[i].color == WallColor
  {
  }

  /** Each wall runs the full length of its side and is WALL_HEIGHT tall and WALL_THICKNESS
      thick; north and south walls sit on the z = 0 and z = depth edges, east and west on the
      x = width and x = 0 edges, all centred along their side. */
  lemma WallsFrameTheRoom(name: string, size: Vec3, offsets: SlabOffsets)
    ensures var ws := NewRoomModel(name, size, offsets).walls;
      && ws[0].size == ws[1].size == Vec3(size.x, WALL_HEIGHT, WALL_THICKNESS)
      && ws[2].size == ws[3].size == Vec3(WALL_THICKNESS, WALL_HEIGHT, size.z)
      && ws[0].position.z == 0.0 && ws[1].position.z == size.z
      && ws[2].position.x == size.x && ws[3].position.x == 0.0
      && ws[0].position.x == ws[1].position.x == size.x / 2.0
      && ws[2].position.z == ws[3].position.z == size.z / 2.0
      && forall i :: 0 <= i < 4 ==> ws[i].position.y == WALL_HEIGHT / 2.0
  {
  }
}
