# Yumemi Memories 2 — a model of the game core

This project models the core of a Babylon.js dungeon prototype. The player walks between rooms of
a grid through exits or doors, carries an inventory, shoots with a weapon whose style decides the
volley, and fights enemies that chase the player, possibly wrapped in decorators such as the
bouncing slime. The model covers:

- **The world**: rooms of the eager grid (`Rooms`, `Levels`) and their exits; the lazy environment
  (`Environments`) that links room models by reciprocal doors and tracks the single room view;
  the room and door models (`RoomModels`, `DoorModels`, `SizedDoorModels`).
- **The player**: the keyboard maps (`KeyMaps`, `AzertyInputs`, `WasdInputs`); the older
  character controller (`CharacterControllers`) with health, a damage-immunity window, exit
  teleports and per-frame physics; the newer player controller (`PlayerControllers`) for doors;
  the frame physics both controllers share (`PlayerPhysics`); the weapon (`Weapons`); the
  inventory (`Inventories`).
- **Plain objects** (`PlainObjects`): the names every JavaScript object literal inherits, which the
  inventory's dictionary and a room's exit table both answer for.
- **The enemies**: the older enemy and its manager (`Enemies`, `EnemyManagers`); the newer
  manager (`EntityEnemyManagers`) and the decorators (`EnemyDecorators`) over the enemy base class
  they build on (`EntityEnemies`).

The mutable objects are classes whose methods are proved against pure step functions of the
state they read and write. The properties are stated as lemmas about those functions.

The model replaces some parts of the system with inputs or logs:

- The physics engine is a position, a velocity and a log of the forces, impulses and velocities
  handed to the engine.
- Every `setTimeout` is a started-timer entry in that log, plus a separate expiry step.
- `Math.random()` is an oracle function from draw index to a value in [0, 1).
- The frame time, the slope ray result and the scene's meshes are parameters.
- Calls into code outside the model are recorded in order and given no meaning: the room
  model's `addDoor`, the player entity's `takeDamage`, and the entity enemy's update, toggle,
  behaviour, dispose and velocity calls.

## Model

| member | source | states |
|---|---|---|
| Inventories.Add | src/inventory.ts:11-17 | adds iff the entry count is below the capacity, which may be fractional, whether or not the name exists; the new entry is stored under its name and other entries are kept, except that `__proto__` stores nothing; a refusal leaves the dictionary alone |
| Inventories.Remove | src/inventory.ts:19-25 | reports removal iff the name is an own entry or a member every plain object inherits; exactly that key disappears and the other entries are unchanged |
| Inventories.AddKeepsBound | src/inventory.ts:11-17 | adding never takes the entry count past the capacity rounded up |
| Inventories.ReAddKeepsCount | src/inventory.ts:11-17 | re-adding a present name below capacity replaces the entry and keeps the count |
| Inventories.AddThenRemoveRestores | src/inventory.ts:11-25 | adding a fresh name and removing it restores the original dictionary and reports success |
| Inventories.RemoveShrinksByOne | src/inventory.ts:19-25 | removing a present name shrinks the count by exactly one |
| Inventories.InheritedNameReportsRemoval | src/inventory.ts:19-25 | removing an inherited name such as `toString` that is not an own entry reports success and deletes nothing |
| Inventories.ProtoAddStoresNothing | src/inventory.ts:11-17 | adding under `__proto__` below capacity reports success and leaves the entries as they were |
| Inventories.Inventory.constructor | src/inventory.ts:7-9 | an empty inventory with the given capacity |
| Inventories.Inventory.AddItem | src/inventory.ts:11-17 | the new dictionary and the result are those of `Add`; the capacity bound is preserved and no entry sits under `__proto__` |
| Inventories.Inventory.RemoveItem | src/inventory.ts:19-25 | the new dictionary and the result are those of `Remove`; the capacity bound is preserved and no entry sits under `__proto__` |
| Inventories.Inventory.GetItems | src/inventory.ts:27-29 | the returned dictionary respects the capacity bound and holds no `__proto__` entry |
| Environments.RoomModel.AddDoor | src/environment.ts:35 | records one door call on the room model |
| Environments.GetOppositeDirection | src/environment.ts:71-84 | succeeds iff the name is one of the four directions, and returns the other direction on the same axis (north and south, east and west); anything else is the invalid-direction error |
| Environments.OppositeIsInvolution | src/environment.ts:71-84 | taking the opposite twice gives back the direction |
| Environments.OppositeIsInjective | src/environment.ts:71-84 | two directions with the same opposite are equal |
| Environments.DoorCode | src/environment.ts:33-46 | a door code exists iff the name is a direction; it is a valid door-model code whose door is named `_<direction>_door`, after the same wall |
| Environments.DoorCodeNamesWall | src/environment.ts:33-46 | a wall's door code reads back as that wall's name |
| Environments.OppositeExitsMirror | src/environment.ts:71-80 | the exits on a wall and on its opposite sit at mirrored offsets, summing to (width, wall height, depth) |
| Environments.DoorCodeInjective | src/environment.ts:33-46 | different directions get different door codes |
| Environments.ReturnDoor | src/environment.ts:51-65 | the return door has the opposite wall's code and leads back to the first room |
| Environments.Environment.constructor | src/environment.ts:16-18 | no rooms and no room view |
| Environments.Environment.CreateRoom | src/environment.ts:20-30 | appends a fresh room with the given name, size and position; the first room created becomes the viewed one |
| Environments.Environment.CreateExit | src/environment.ts:32-69 | for a valid direction, the first room gets a door to the second and the second a return door; for an invalid one, nothing is added and the call fails |
| Environments.Environment.PlayerEnter | src/environment.ts:86-103 | the view shows the entered room; the room list is unchanged |
| Environments.Environment.PlayerExit | src/environment.ts:105-114 | changes neither the rooms nor the view |
| Rooms.ExitSize | src/room.ts:120-123 | a north or south exit is (EXIT_WIDTH, wall height, wall thickness) = (4, 10, 1); an east or west exit is (wall thickness, wall height, EXIT_DEPTH) = (1, 10, 2) |
| Rooms.ExitOffset | src/room.ts:142-155 | defined iff the name is a direction, at half wall height; anything else is the invalid-direction error |
| Rooms.SetExitOn | src/room.ts:113-125 | an occupied slot, or a name the object literal inherits, refuses with the already-exists error and keeps the table; otherwise the slot is filled; success iff the slot was free and the direction valid |
| Rooms.InheritedNameIsOccupied | src/room.ts:114-116 | a name such as `toString` that the exit table inherits throws already-exists and writes nothing |
| Rooms.ExitWithinRoom | src/room.ts:142-155 | in a room big enough for one, an exit box lies within the room's box, flush with its own wall: north at z = 0, south at z = depth, east at x = width, west at x = 0 |
| Rooms.ExitsMirror | src/room.ts:142-155 | north and south exits sit on the x centre line and mirror on z; east and west likewise |
| Rooms.ExitCount | src/room.ts:18-23 | a room has at most four exits |
| Rooms.ReplayCountsFilledWalls | src/room.ts:113-118 | over any sequence of `setExit` calls, the successes are exactly the slots that become filled |
| Rooms.AtMostFourExits | src/room.ts:113-118 | starting from an empty room, at most four `setExit` calls ever succeed |
| Rooms.Room.constructor | src/room.ts:38-46 | the corner position is the centre minus half the size, with all four slots empty |
| Rooms.Room.GetExitPosition | src/room.ts:142-155 | defined iff the name is a direction; it is the room's corner plus the exit offset |
| Rooms.Room.SetExit | src/room.ts:113-140 | the new table and the result are those of `SetExitOn` |
| RoomModels.Walls | src/roomModel.ts:18-21 | the corrected constructor builds four walls |
| RoomModels.StoreWall | src/roomModel.ts:18 | storing into a missing wall array fails; otherwise the wall lands at its index |
| RoomModels.NewRoomModelAsWritten | src/roomModel.ts:9-18 | the constructor as written always fails |
| RoomModels.AsWrittenConstructionThrows | src/roomModel.ts:9-18 | as written, every construction throws when it stores the first wall |
| RoomModels.NewRoomModel | src/roomModel.ts:14-24 | the corrected room model keeps its name and size and has the four walls; the floor and the roof are named after the room, take the room's size and their own colours, and sit centred over the room at the floor offset and at wall height less the roof offset |
| RoomModels.WallsInOrder | src/roomModel.ts:18-21 | the walls come in the order north, south, east, west |
| RoomModels.WallsFrameTheRoom | src/roomModel.ts:18-21 | opposite walls sit on opposite edges of the room |
| DoorModels.DoorSize | src/model/doorModel.ts:21-22 | a north or south door is (DOOR_WIDTH, wall height, wall thickness) = (4, 10, 1); an east or west door is (wall thickness, wall height, DOOR_DEPTH) = (1, 10, 2) |
| DoorModels.NewDoorModel | src/model/doorModel.ts:20-44 | defined iff the code is one of the four, with a direction-suffixed name, the door size and the colour, at half wall height; otherwise the invalid-direction error |
| DoorModels.OppositeDoorsCoincide | src/model/doorModel.ts:22-39 | north and south doors share a position, east and west likewise, and the two pairs differ |
| DoorModels.DoorNamesDistinct | src/model/doorModel.ts:23-39 | doors of different directions get different names |
| DoorModels.GeometryDependsOnlyOnDirection | src/model/doorModel.ts:20-42 | a door's position and size depend on its direction alone |
| SizedDoorModels.NewDoor | src/doorModel.ts:15-37 | defined iff the code is valid: the given size, the direction's name, at half wall height |
| SizedDoorModels.OppositeDoorsMirror | src/doorModel.ts:17-33 | opposite doors mirror across the room's centre lines |
| SizedDoorModels.AgreesWithRoomExits | src/doorModel.ts:17-33 | a door sits exactly where the room places the exit for the same wall |
| Decimal.NatToString | src/level.ts:17 | a non-empty string of decimal digits, with two or more digits exactly from 10 up |
| Decimal.NatToStringInjective | src/level.ts:17 | equal decimal strings mean equal numbers |
| Levels.StepsIsProduct | src/level.ts:16 | repeated steps add up to count times step |
| Levels.CellCenterIsProduct | src/level.ts:13-16 | cell (x, z) is centred at (x times the x spacing, 0, z times the z spacing) |
| Levels.RoomNameCharacters | src/level.ts:17 | a grid room name starts with `Room_` and continues with digits and underscores only |
| Levels.RoomNameInjective | src/level.ts:17 | grid room names `Room_x_z` determine their coordinates |
| Levels.RowCells | src/level.ts:15-19 | one row holds the cells (x, 0) to (x, z - 1) in order |
| Levels.GridCells | src/level.ts:14-20 | x rows of n cells make x times n cells |
| Levels.GridCellsInBounds | src/level.ts:14-20 | every cell lies inside the grid |
| Levels.GridCellsDistinct | src/level.ts:14-20 | no cell appears twice |
| Levels.GridCellsNumbered | src/level.ts:14-20 | cell k is (k / n, k % n), so every cell of the grid appears |
| Levels.GridNamesDistinct | src/level.ts:14-20 | the rooms of one grid have distinct names |
| Levels.Level.constructor | src/level.ts:6-10 | a level starts with no rooms |
| Levels.Level.AppendRow | src/level.ts:15-19 | one pass of the inner loop appends row x, so the rooms held are those of the first x + 1 rows, in order, with no exits; earlier rooms are kept |
| Levels.Level.GenerateSimpleGrid | src/level.ts:12-21 | appends gridSize squared rooms (none for gridSize of 0 or less), one per cell in order, named after and centred on their cell, with no exits; earlier rooms are kept |
| KeyMaps.Axis | src/entities/player/inputController.ts:31-32 | +1 iff only the plus key is held, -1 iff only the minus key is held, 0 iff both or neither |
| KeyMaps.Press | src/entities/player/inputController.ts:18-20 | the key is held afterwards and no other key changes |
| KeyMaps.Release | src/entities/player/inputController.ts:23-25 | the key is released afterwards and no other key changes |
| KeyMaps.PressReleaseRestores | src/entities/player/inputController.ts:17-26 | pressing and releasing a key that was up restores every key's state |
| AzertyInputs.Read | src/entities/player/inputController.ts:29-39 | the movement, camera, jump, shoot and debug fields read the AZERTY keys z/s, d/q, the arrows, space, f and m |
| AzertyInputs.ReadingInRange | src/entities/player/inputController.ts:31-37 | every axis lies in [-1, 1], and opposite keys held together cancel |
| AzertyInputs.UnmappedKeyIgnored | src/entities/player/inputController.ts:29-39 | a key outside the map does not change the reading |
| AzertyInputs.InputController.constructor | src/entities/player/inputController.ts:3-27 | no keys held and every field at rest |
| AzertyInputs.InputController.KeyDown | src/entities/player/inputController.ts:18-20 | the key map records the press; the fields wait for `update` |
| AzertyInputs.InputController.KeyUp | src/entities/player/inputController.ts:23-25 | the key map records the release; the fields wait for `update` |
| AzertyInputs.InputController.Update | src/entities/player/inputController.ts:29-39 | the fields become the reading of the current key map |
| WasdInputs.Read | src/inputController.ts:25-30 | the movement and jump fields read the keys w/s, d/a and space |
| WasdInputs.ReadingInRange | src/inputController.ts:27-28 | both axes lie in [-1, 1], and opposite keys cancel |
| WasdInputs.UnmappedKeyIgnored | src/inputController.ts:25-30 | a key outside the map does not change the reading |
| WasdInputs.InputController.constructor | src/inputController.ts:3-23 | no keys held and every field at rest |
| WasdInputs.InputController.KeyDown | src/inputController.ts:14-16 | the key map records the press |
| WasdInputs.InputController.KeyUp | src/inputController.ts:19-21 | the key map records the release |
| WasdInputs.InputController.Update | src/inputController.ts:25-30 | the fields become the reading of the current key map |
| CharacterControllers.Hit | src/characterController.ts:231-245 | an immune player ignores the hit; otherwise health drops by exactly the amount, immunity starts, and death is due iff the new health is at or below zero |
| CharacterControllers.ReplayDamage | src/characterController.ts:231-245 | a run of strikes and expiries calls `onDeath` at most once per event; expiries alone change no health and kill no one; with non-negative damage, health never rises |
| CharacterControllers.ImmuneIgnoresStrikes | src/characterController.ts:231-232 | while immune, any run of strikes changes nothing and kills no one |
| CharacterControllers.SpacedStrikesAllLand | src/characterController.ts:231-240 | strikes each followed by the immunity's expiry all land: health drops by their sum |
| CharacterControllers.NoDeathWhileAlive | src/characterController.ts:242-244 | a player whose final health is positive never had `onDeath` called |
| CharacterControllers.DeathRepeatsWithoutGuard | src/characterController.ts:242-244 | an already dead player hit again has `onDeath` called again |
| CharacterControllers.ExitTarget | src/characterController.ts:289 | the exit leads to its second room from its first room, and to its first room from anywhere else |
| CharacterControllers.ExitLeadsAcross | src/characterController.ts:286-296 | an exit between two distinct rooms leads across in both directions and back |
| CharacterControllers.TakeDamageStep | src/characterController.ts:231-245 | a hit as in `Hit`, with the immunity timer started; the call fails iff death is due and no death handler was set |
| CharacterControllers.TeleportTo | src/characterController.ts:298-308 | the player lands at the room's centre, which becomes current, after the old room's exit hook and the new room's enter hook; nothing else changes |
| CharacterControllers.ExitCollision | src/characterController.ts:286-296 | refused while the cooldown runs; otherwise the player moves to the exit's target with that teleport's hooks, then the 5000 ms teleport timer starts; only the teleport flag, position, room and effects change |
| CharacterControllers.Expire | src/characterController.ts:238-240 | each timer's expiry re-enables exactly its own flag |
| CharacterControllers.SecondExitWaitsForCooldown | src/characterController.ts:286-296 | a second exit before the cooldown expires is refused |
| CharacterControllers.ExitRoundTrip | src/characterController.ts:286-296 | crossing an exit, waiting out the cooldown and crossing it again returns to the starting room |
| CharacterControllers.GroundListener | src/characterController.ts:252-263 | a started ground contact sets grounded and takes the slope flag, defaulting to false; a finished one clears both; anything else changes nothing |
| CharacterControllers.ExitListener | src/characterController.ts:265-270 | a started contact with an exit runs the exit collision; anything else changes nothing |
| CharacterControllers.EntityListener | src/characterController.ts:272-283 | a started contact with a lethal entity deals its damage, or 10; anything else changes nothing |
| CharacterControllers.CollisionStep | src/characterController.ts:249-284 | a contact that is not a start only updates the ground flags; a contact without metadata changes nothing |
| CharacterControllers.LeavingGroundClearsSlope | src/characterController.ts:256-262 | touching and then leaving the ground leaves the player neither grounded nor on a slope |
| CharacterControllers.ToRoomCenter | src/characterController.ts:310-315 | the player moves to the current room's centre, or stays put without one |
| CharacterControllers.SteerStep | src/characterController.ts:318-335 | the debug key recentres; movement input pushes, and no input damps; a slope adds the counter-force |
| CharacterControllers.JumpStep | src/characterController.ts:337-340 | only a grounded player jumps, handing the jump impulse to the engine and leaving the ground |
| CharacterControllers.ShootStep | src/characterController.ts:346-357 | a held shoot with `canShoot` clears both, fires one bullet and starts the cooldown; otherwise nothing changes |
| CharacterControllers.UpdateStep | src/characterController.ts:318-358 | a frame keeps health, the teleport flag and the room; the slope flag follows the ray, and the jump and shot follow the inputs |
| CharacterControllers.UpdateStepMotion | src/characterController.ts:318-358 | a frame damps exactly when there is no input, and its effects come after the earlier ones |
| CharacterControllers.NoShotBeforeCooldown | src/characterController.ts:346-357 | once `canShoot` is cleared, no frame re-enables it before the cooldown expires |
| CharacterControllers.Player.constructor | src/characterController.ts:78-86 | full health, every cooldown flag ready, in the given room, with no body motion |
| CharacterControllers.Player.SetDeathHandler | src/characterController.ts:41 | the death handler is set and nothing else changes |
| CharacterControllers.Player.TakeDamage | src/characterController.ts:231-245 | the new state and the outcome are those of `TakeDamageStep` |
| CharacterControllers.Player.TeleportToRoom | src/characterController.ts:298-308 | the new state is that of `TeleportTo` |
| CharacterControllers.Player.HandleExitCollision | src/characterController.ts:286-296 | the new state is that of `ExitCollision` |
| CharacterControllers.Player.HandleCollision | src/characterController.ts:249-284 | the new state and the outcome are those of the three listeners in registration order |
| CharacterControllers.Player.TeleportToRoomCenter | src/characterController.ts:310-315 | the new state is that of `ToRoomCenter` |
| CharacterControllers.Player.Update | src/characterController.ts:318-358 | the new state and input fields are those of `UpdateStep` on the keys' reading |
| CharacterControllers.Player.Steer | src/characterController.ts:320-335 | the new state is that of `SteerStep` |
| CharacterControllers.Player.Jump | src/characterController.ts:337-340 | the new state is that of `JumpStep` |
| CharacterControllers.Player.Shoot | src/characterController.ts:346-357 | the new state and input fields are those of `ShootStep` |
| CharacterControllers.Player.TimerFires | src/characterController.ts:238-240 | the new state is that of `Expire` |
| PlayerPhysics.Damped | src/characterController.ts:390-398 | on a slope the velocity stops; otherwise x and z shrink by the damping factor and y is kept |
| PlayerPhysics.DampingSlowsDown | src/characterController.ts:390-398 | one damping step scales the squared horizontal speed by 0.9025 |
| PlayerPhysics.DampingDecays | src/characterController.ts:390-398 | n damping steps scale x and z by the damping factor to the n |
| PlayerPhysics.ContactDamage | src/characterController.ts:280 | an entity's own damage, or 10 when it has none |
| PlayerPhysics.SteerEffects | src/characterController.ts:325-335 | the movement force is handed over iff there is input, the slope force iff on a slope |
| PlayerPhysics.ShotEffects | src/characterController.ts:346-357 | the bullet and the cooldown timer are handed over iff the shot fires |
| PlayerPhysics.GroundContact | src/characterController.ts:252-263 | a started ground contact grounds and takes the slope flag, defaulting to false; a finished one clears both; the slope flag is set only while grounded or if it already was |
| PlayerPhysics.JumpEffects | src/characterController.ts:337-340 | the jump impulse is handed over iff jump is held on the ground, and nothing else |
| PlayerPhysics.ShotGate | src/characterController.ts:346-348 | the flags change iff shoot is held while `canShoot`; `canShoot` survives only if it was set and the key is then not held |
| PlayerPhysics.FrameEffectsExactly | src/characterController.ts:337-357 | a frame jumps iff jump is held on the ground, and shoots iff shoot is held while `canShoot` |
| PlayerControllers.PlayerEntity.constructor | src/controller/playerController.ts:55-61 | the entity's flags and position as given, without a body |
| PlayerControllers.PlayerEntity.InitPhysics | src/controller/playerController.ts:78 | the entity gets a body that starts at the given mesh's position, and nothing else changes |
| PlayerControllers.PlayerEntity.TakeDamage | src/controller/playerController.ts:117 | records the damage passed on and nothing else |
| PlayerControllers.DoorCollision | src/controller/playerController.ts:122-131 | refused while the cooldown runs; otherwise the body goes to (0, 1, 0), the door's room becomes current and is shown, and the 5000 ms cooldown starts |
| PlayerControllers.Expire | src/controller/playerController.ts:128-130 | the teleport and shoot expiries re-enable their own flag |
| PlayerControllers.TeleportTo | src/controller/playerController.ts:133-140 | the body goes to (0, 1, 0) and the room is shown and current; nothing else changes |
| PlayerControllers.LastTeleportWins | src/controller/playerController.ts:133-140 | of two teleports in a row only the second one counts |
| PlayerControllers.ArrivalIgnoresRoom | src/controller/playerController.ts:133-140 | every door lands the body at the same point, whichever room it leads to |
| PlayerControllers.SecondDoorWaitsForCooldown | src/controller/playerController.ts:122-131 | a second door before the cooldown expires is refused, and taken after it |
| PlayerControllers.GroundListener | src/controller/playerController.ts:88-99 | a started ground contact sets grounded and takes the slope flag, defaulting to false; a finished one clears both |
| PlayerControllers.DoorListener | src/controller/playerController.ts:101-106 | a started contact with a door runs the door collision; anything else changes nothing |
| PlayerControllers.EntityListener | src/controller/playerController.ts:108-119 | a started contact with a lethal entity passes its damage, or 10, to the entity's `takeDamage` |
| PlayerControllers.CollisionStep | src/controller/playerController.ts:85-120 | a contact without metadata changes nothing; the damage passed on grows by at most the one contact damage of a lethal entity |
| PlayerControllers.FinishedContactOnlyLeavesGround | src/controller/playerController.ts:85-120 | a finished contact neither teleports nor hurts |
| PlayerControllers.LethalDoorTeleportsAndHurts | src/controller/playerController.ts:85-120 | a lethal door both teleports and passes on its damage |
| PlayerControllers.SteerStep | src/controller/playerController.ts:148-160 | the slope flag follows the ray; input pushes and no input damps; a slope adds the counter-force |
| PlayerControllers.JumpStep | src/controller/playerController.ts:162-165 | only a grounded player jumps, handing the jump impulse to the engine and leaving the ground |
| PlayerControllers.ShootStep | src/controller/playerController.ts:171-186 | a held shoot with `canShoot` clears both, fires one bullet and starts the 300 ms cooldown; otherwise nothing changes |
| PlayerControllers.BodyFrame | src/controller/playerController.ts:147-176 | a frame keeps the room, the view, the teleport flag, the position and the damage passed on; the jump and shot follow the inputs |
| PlayerControllers.BodyFrameMotion | src/controller/playerController.ts:150-176 | a frame damps exactly when there is no input, and hands over its effects in order |
| PlayerControllers.UpdateStep | src/controller/playerController.ts:142-147 | without a body nothing changes, not even the input fields; with one, the frame runs on the keys' reading |
| PlayerControllers.FramesKeepCooldown | src/controller/playerController.ts:142-177 | across frames, a cleared `canShoot` stays cleared, and the position and the current room are unchanged |
| PlayerControllers.PlayerController.constructor | src/controller/playerController.ts:26-61 | a fresh input controller, in the given room, neither grounded nor on a slope |
| PlayerControllers.PlayerController.Initialize | src/controller/playerController.ts:63-83 | the entity gets its body, built on a new cylinder at the origin, and the body ends at (0, BODY_Y_POSITION + 1, 0) whatever the entity's earlier position; nothing else changes |
| PlayerControllers.PlayerController.TeleportToRoom | src/controller/playerController.ts:133-140 | the new state is that of `TeleportTo`: (0, 1, 0), the room shown and current |
| PlayerControllers.PlayerController.HandleDoorCollision | src/controller/playerController.ts:122-131 | the new state is that of `DoorCollision` |
| PlayerControllers.PlayerController.HandleCollision | src/controller/playerController.ts:85-120 | the new state is that of the three listeners in registration order |
| PlayerControllers.PlayerController.Update | src/controller/playerController.ts:142-177 | the new state and input fields are those of `UpdateStep` on the keys |
| PlayerControllers.PlayerController.Steer | src/controller/playerController.ts:148-160 | the new state is that of `SteerStep` |
| PlayerControllers.PlayerController.Jump | src/controller/playerController.ts:162-165 | the new state is that of `JumpStep` |
| PlayerControllers.PlayerController.Shoot | src/controller/playerController.ts:171-186 | the new state and input fields are those of `ShootStep` |
| PlayerControllers.PlayerController.TimerFires | src/controller/playerController.ts:128-130 | the new state is that of `Expire` |
| Weapons.ApplySpread | src/entities/player/weapon.ts:152-155 | the sampled deviation is drawn for the given maximum, and a centred draw gives no deviation |
| Weapons.HalfRange | src/entities/player/weapon.ts:154-155 | a draw in [0, 1) gives an angle in [-a/2, a/2) |
| Weapons.SpreadWithinHalfRange | src/entities/player/weapon.ts:152-155 | both angles of a spread lie in [-a/2, a/2) of its range |
| Weapons.Pellets | src/entities/player/weapon.ts:102-105 | pellet i does shotgun damage, with a 20-degree spread drawn from values 2i and 2i + 1 |
| Weapons.NextCooldown | src/entities/player/weapon.ts:42-62 | shotgun, sniper and auto set 750, 1000 and 100 ms; the pistol and unknown styles leave the cooldown alone |
| Weapons.Volley | src/entities/player/weapon.ts:42-63 | the shotgun fires six bullets and every other style one; bullets carry a spread iff the style is shotgun or auto; all bullets of a volley do the same positive damage |
| Weapons.VolleyTable | src/entities/player/weapon.ts:42-145 | pistol one bullet of 30, sniper one of 100, both straight; auto one of 5 with a 10-degree spread; shotgun six of 15 with a 20-degree spread |
| Weapons.UnknownStyleIsPistol | src/entities/player/weapon.ts:59-61 | an unknown style shoots and cools down exactly as the pistol |
| Weapons.CooldownSettles | src/entities/player/weapon.ts:42-62 | from the second shot on, the cooldown no longer changes |
| Weapons.FirstShotDelay | src/entities/player/weapon.ts:31-62 | the first shot's re-enable delay is the style's cooldown after dispatch, not the initial 300 |
| Weapons.VolleyWithinHalfRange | src/entities/player/weapon.ts:96-167 | every deviation of every bullet of every style lies within half its range |
| Weapons.Weapon.constructor | src/entities/player/weapon.ts:27-32 | the given style and player, with the 300 ms cooldown |
| Weapons.Weapon.ShootBullet | src/entities/player/weapon.ts:34-40 | shooting is disabled, the style's volley is fired, and the re-enable timer starts with the cooldown as the dispatch left it |
| Weapons.Weapon.Shoot | src/entities/player/weapon.ts:42-63 | the bullets fired are the style's volley, and the cooldown is that of `NextCooldown` |
| Weapons.Weapon.ShootShotgun | src/entities/player/weapon.ts:96-105 | six pellets, as `Pellets` describes, are fired |
| Weapons.Weapon.TimerFires | src/entities/player/weapon.ts:37-39 | shooting is re-enabled and nothing else changes |
| Enemies.DefaultSteering | src/enemy.ts:42-56 | nothing iff the player is within 0.1 horizontally; otherwise a horizontal velocity of speed 4 towards the player, then the clamp to 5 |
| Enemies.SquaredComparison | src/enemy.ts:48-50 | comparing the squared distance is comparing the distance |
| Enemies.DefaultSteeringIsHorizontal | src/enemy.ts:46-55 | the default behaviour only steers horizontally, without lift, below the clamp |
| Enemies.UpdateStep | src/enemy.ts:37-40 | nothing while inactive or bodiless; otherwise the behaviour in the slot runs once |
| Enemies.Toggle | src/enemy.ts:58-61 | the active flag flips and nothing else changes |
| Enemies.SetBehavior | src/enemy.ts:63-65 | the slot holds the new behaviour and nothing else changes |
| Enemies.ToggleTwice | src/enemy.ts:58-61 | toggling twice restores the enemy |
| Enemies.InactiveFramesChangeNothing | src/enemy.ts:37-40 | an inactive enemy is unchanged by any run of updates |
| Enemies.SetBehaviorIsUsed | src/enemy.ts:37-65 | after a custom behaviour is set, each update of an active, embodied enemy runs it once |
| Enemies.Enemy.constructor | src/enemy.ts:15-27 | active, with the default behaviour and a body; the mesh one unit above the spawn point and the enemy node itself at the origin |
| Enemies.Enemy.Update | src/enemy.ts:37-56 | the new state is that of `UpdateStep` against the player's position |
| Enemies.Enemy.ToggleActiveState | src/enemy.ts:58-61 | the new state is that of `Toggle` |
| Enemies.Enemy.SetAIBehavior | src/enemy.ts:63-65 | the new state is that of `SetBehavior` |
| EnemyManagers.Corners | src/enemyManager.ts:34-40 | four candidates at height 1, each one unit inside the room on x and z |
| EnemyManagers.CornerIndex | src/enemyManager.ts:42 | an index below 4 whose quarter of [0, 1) holds the draw |
| EnemyManagers.EveryCornerDrawn | src/enemyManager.ts:42 | every corner is reachable by some draw |
| EnemyManagers.SpawnPosition | src/enemyManager.ts:33-44 | a spawn point is one of the four corners |
| EnemyManagers.SpawnInsideRoom | src/enemyManager.ts:33-44 | in a room at least 2 units wide and deep, every spawn point lies inside the inset rectangle, at height 1 |
| EnemyManagers.EnemyName | src/enemyManager.ts:23 | every name starts with `enemy_` |
| EnemyManagers.EnemyNamesDistinct | src/enemyManager.ts:21-23 | the enemies of one spawning call have distinct names |
| EnemyManagers.SpawnCount | src/enemyManager.ts:21 | the loop runs `amount` times, and not at all for amount of 0 or less |
| EnemyManagers.SpawnedState | src/enemyManager.ts:22-27 | a new enemy is active and embodied, its mesh one unit above its corner and its node at the origin, with the supplied behaviour or the default |
| EnemyManagers.SpawnedEnemySteersFromOrigin | src/enemy.ts:42-56 | a newly spawned enemy with the default behaviour steers from the origin, not from its corner |
| EnemyManagers.EnemyManager.constructor | src/enemyManager.ts:11-14 | no enemies, chasing the given player |
| EnemyManagers.EnemyManager.SpawnEnemies | src/enemyManager.ts:16-31 | appends exactly `amount` fresh enemies, the i-th named `enemy_i` and placed by the i-th draw; the enemies already held are kept |
| EnemyManagers.EnemyManager.UpdateEnemies | src/enemyManager.ts:46-48 | every held enemy takes one update step |
| EnemyManagers.EnemyManager.ToggleAllEnemies | src/enemyManager.ts:50-52 | every held enemy toggles once |
| EnemyManagers.EnemyManager.ClearEnemies | src/enemyManager.ts:54-57 | every held enemy is disposed once, in order, and the list empties |
| EntityEnemies.Enemy.constructor | src/entities/enemy/enemyManager.ts:31 | the attributes the manager passes, with no calls received yet |
| EntityEnemies.Enemy.Update | src/entities/enemy/enemyManager.ts:77 | records the update call |
| EntityEnemies.Enemy.ToggleActiveState | src/entities/enemy/enemyManager.ts:81 | records the toggle call |
| EntityEnemies.Enemy.SetAIBehavior | src/entities/enemy/enemyManager.ts:32 | records the behaviour call |
| EntityEnemies.Enemy.Dispose | src/entities/enemy/enemyManager.ts:85 | records the dispose call |
| EntityEnemies.Enemy.SetLinearVelocity | src/entities/enemy/enemy-types/slimeEnemy.ts:29 | records the velocity written to the body |
| EntityEnemyManagers.FindFloorFrom | src/entities/enemy/enemyManager.ts:39-41 | the first floor mesh of the room from a start index, or none iff there is none |
| EntityEnemyManagers.FindFloor | src/entities/enemy/enemyManager.ts:39-41 | the first ground mesh named `<room>_floor`, or none iff no mesh qualifies |
| EntityEnemyManagers.Portion | src/entities/enemy/enemyManager.ts:55-56 | a draw's share of a width lies between 0 and the width, short of it when the width is not 0 |
| EntityEnemyManagers.BetweenBounds | src/entities/enemy/enemyManager.ts:55-56 | a draw lands in [lo, hi), on lo for an empty interval, and in (hi, lo] for reversed bounds |
| EntityEnemyManagers.SpawnPosition | src/entities/enemy/enemyManager.ts:37-61 | the floor path when the room's floor mesh is found, the fallback otherwise |
| EntityEnemyManagers.MissingFloorFallsBack | src/entities/enemy/enemyManager.ts:43-47 | without the room's floor mesh, the manual fallback is used |
| EntityEnemyManagers.FloorSpawnInBounds | src/entities/enemy/enemyManager.ts:50-60 | a floor spawn lies within the floor's box on x and z, half a unit above it |
| EntityEnemyManagers.ManualSpawnInBounds | src/entities/enemy/enemyManager.ts:63-73 | in a room over 2 units wide and deep, a fallback spawn lies inside the inset rectangle, one unit above the room |
| EntityEnemyManagers.SpawnCalls | src/entities/enemy/enemyManager.ts:32 | a new enemy receives the behaviour iff one is supplied, and nothing else |
| EntityEnemyManagers.EnemyManager.constructor | src/entities/enemy/enemyManager.ts:11-14 | no enemies, chasing the given player |
| EntityEnemyManagers.EnemyManager.SpawnEnemies | src/entities/enemy/enemyManager.ts:16-35 | appends exactly `amount` fresh enemies of damage 20 and health 100, the i-th named `enemy_i` and placed by draws 2i and 2i + 1; the enemies already held are kept |
| EntityEnemyManagers.EnemyManager.UpdateEnemies | src/entities/enemy/enemyManager.ts:76-78 | every held enemy receives one update, and the list is unchanged |
| EntityEnemyManagers.EnemyManager.ToggleAllEnemies | src/entities/enemy/enemyManager.ts:80-82 | every held enemy receives one toggle, and the list is unchanged |
| EntityEnemyManagers.EnemyManager.ClearEnemies | src/entities/enemy/enemyManager.ts:84-87 | every held enemy is disposed once and the list empties |
| EnemyDecorators.EnemyDecorator.constructor | src/entities/enemy/enemy-types/enemyDecorator.ts:6-9 | the decorator copies the wrapped enemy's attributes, keeps a reference to it and leaves it unchanged |
| EnemyDecorators.EnemyDecorator.Update | src/entities/enemy/enemy-types/enemyDecorator.ts:11-13 | the wrapped enemy is updated exactly once |
| EnemyDecorators.Bounce | src/entities/enemy/enemy-types/slimeEnemy.ts:18-29 | a bounce happens iff the grown timer reaches 1.5 s; it resets the timer and writes a horizontal speed of 1.5 towards the player, lifted by 6 |
| EnemyDecorators.BounceTimerInRange | src/entities/enemy/enemy-types/slimeEnemy.ts:18-20 | with a non-negative frame time, the timer stays in [0, 1.5) |
| EnemyDecorators.BounceCalls | src/entities/enemy/enemy-types/slimeEnemy.ts:29 | a velocity is written to the wrapped enemy iff the step bounces |
| EnemyDecorators.FramesKeepTimerInRange | src/entities/enemy/enemy-types/slimeEnemy.ts:13-31 | over any run of frames the timer stays in [0, 1.5), with at most one bounce per frame |
| EnemyDecorators.SlimeEnemyDecorator.constructor | src/entities/enemy/enemy-types/slimeEnemy.ts:7-11 | the decorator part over the wrapped enemy, timer at 0 and threat level 0.5 |
| EnemyDecorators.SlimeEnemyDecorator.Update | src/entities/enemy/enemy-types/slimeEnemy.ts:13-31 | the wrapped enemy is updated once, then it receives the bounce velocity iff `Bounce` says so; the timer is as `Bounce` leaves it |
| EnemyDecorators.UpdateReachesCoreOnce | src/entities/enemy/enemy-types/enemyDecorator.ts:11-13 | however deep the nesting of decorators, one update reaches the innermost enemy exactly once |
| EnemyDecorators.StackTimersInRange | src/entities/enemy/enemy-types/slimeEnemy.ts:18-20 | every slime timer in a nest of decorators stays in [0, 1.5) |

## Left out

- Rendering, meshes, materials, the camera, the HUD and the GUI are left out. They decide nothing the model states.
- Raycasts are left out: the slope test's result is the `slopeHit` parameter of each frame.
- The physics plugin's `_pluginData` is taken as always present once the body exists.
- The `MAX_SPEED` velocity clamp of `_applyMovement` is left out, and so is floating point. The movement force is kept symbolic as a `MovementForce` effect.
- Normalisations and square roots are kept symbolic: a `Heading` of direction, speed and lift stands for a normalised direction scaled by the speed plus the lift. The 0.1 stop distance is compared squared.
- The shot's direction vector is left out. The weapon's spread geometry (cross products, tangents, normalisation) is also left out: a bullet records its damage and its sampled angles. `Math.PI` is its double value written as a decimal.
- Audio playback and console logging are left out. They do not affect state.
- Elapsed time is not modelled: each `setTimeout` callback is an explicit expiry step, which can run at any later point.
- characterController.ts imports src/inputController.ts, which has no shoot, debug or camera fields, but it reads those fields. The model gives it the full AZERTY reading of src/entities/player/inputController.ts.
- playerController.ts imports controller/inputController.ts, which is not part of this model. The AZERTY controller stands in for it.
- entities/player/player.ts is not part of this model. The controller and the weapon see only the player entity's flags, body, and `takeDamage` log.
- model/roomModel.ts is not part of this model. A room model has a name, a size and a position, and `addDoor` is an opaque recorded call. The room's position is a `CreateRoom` parameter.
- entities/enemy/enemy.ts is not part of this model. Its enemy keeps the attributes read from it and a log of the calls made on it.
- entity.ts and the bullet are not part of this model. Disposal is recorded, and bullets are recorded as fired.
- A door's `isDoor` and `connectedRoom`, and an exit's `isExit` and `exit`, are modelled as one optional target that is present exactly when the flag is set.
- Levels.StepsIsProduct: room centres are sums of `Steps` instead of products, and the lemma connects the two.
- Levels.Level.GenerateSimpleGrid: a non-integer `gridSize` is not modelled, because the parameter is an `int`.
- EnemyManagers.EnemyManager.SpawnEnemies: a non-integer `amount` is not modelled, because the parameter is an `int`.
- EntityEnemyManagers.EnemyManager.SpawnEnemies: a non-integer `amount` is not modelled either.
- Names restart at `enemy_0` on every spawning call, as in the source. Distinct names are proved only within one call.
- EnemyDecorators.SlimeEnemyDecorator.Update: the bounce direction is measured from the decorator's own position, which was copied once from the wrapped enemy, as in the source.
- The decorator-stack lemmas (`UpdateReachesCoreOnce`, `StackTimersInRange`) do not track bounce targets.
- The constructors' `scene` and display `name` parameters are left out where nothing reads them.
- Inventories.Add: after an add under `__proto__` the object's prototype is replaced. Later lookups through the new prototype are not modelled: the model keeps the standard inherited names.
- Rooms.SetExitOn: a name inherited from `Object.prototype` reads as an occupied slot, as in the inventory below; the exit table's own keys are only the four walls and names written by `setExit`.
- Inventories.Remove: the inherited names covered are those of `Object.prototype` (`constructor`, `hasOwnProperty`, `isPrototypeOf`, `propertyIsEnumerable`, `toLocaleString`, `toString`, `valueOf`, `__defineGetter__`, `__defineSetter__`, `__lookupGetter__`, `__lookupSetter__`, `__proto__`). Each is truthy, so each reports a removal.
- Inventories.Inventory.GetItems: it returns the live dictionary, so the caller can change the inventory through it. The model returns a value, and that aliasing is not modelled.
- Enemies.Enemy.constructor: entity.ts, which is not part of this model, might set or override the node's position. In the model nothing moves the node, and the physics body moves only the mesh.
- PlayerControllers.PlayerEntity.InitPhysics: entities/player/player.ts is not part of this model, so `_initPhysicsMesh` is taken to build the body on the mesh it is given, starting at that mesh's position.
- Levels.Level.GetRooms and PlayerControllers.PlayerController.Position are plain accessors and carry no contract.

## Findings

| source | as written | input that shows it | evidently intended | confidence | as-written member | corrected member |
|---|---|---|---|---|---|---|
| src/roomModel.ts:9-18 | `walls` is declared but never allocated, so storing the first wall reads a property of undefined and throws | any construction of a room model | the constructor allocates the array and stores the four walls | not executed | RoomModels.NewRoomModelAsWritten | RoomModels.NewRoomModel |
