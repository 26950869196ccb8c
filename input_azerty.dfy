/** The AZERTY input controller (src/entities/player/inputController.ts): z/s and d/q move,
    space jumps, the arrow keys turn and zoom the camera, m asks for the debug teleport and f
    shoots. */
module AzertyInputs {
  import opened KeyMaps

  /** The keys `update` reads. */
  const MappedKeys: set<string> := {"z", "s", "d", "q", " ", "ArrowLeft", "ArrowRight", "ArrowUp", "ArrowDown", "m", "f"}

  /** What one `update` writes into the controller's public fields. */
  datatype Reading = Reading(
    vertical: int, horizontal: int, jump: bool,
    cameraRotation: int, cameraZoom: int, debug: int, shoot: bool)

  /** The fields `update` computes from the key map. */
  function Read(keys: KeyMap): (r: Reading)
    ensures r.vertical == Axis(keys, "z", "s") && r.horizontal == Axis(keys, "d", "q")
    ensures r.cameraRotation == Axis(keys, "ArrowRight", "ArrowLeft")
    ensures r.cameraZoom == Axis(keys, "ArrowUp", "ArrowDown")
    ensures r.jump == Held(keys, " ") && r.shoot == Held(keys, "f")
    ensures r.debug == (if Held(keys, "m") then 1 else 0)
  {
    Reading(
      (if Held(keys, "z") then 1 else 0) - (if Held(keys, "s") then 1 else 0),
      (if Held(keys, "d") then 1 else 0) - (if Held(keys, "q") then 1 else 0),
      Held(keys, " "),
      (if Held(keys, "ArrowLeft") then -1 else 0) + (if Held(keys, "ArrowRight") then 1 else 0),
      (if Held(keys, "ArrowUp") then 1 else 0) - (if Held(keys, "ArrowDown") then 1 else 0),
      if Held(keys, "m") then 1 else 0,
      Held(keys, "f"))
  }

  /** Every axis of a reading is -1, 0 or 1; opposite keys held together cancel. */
  lemma ReadingInRange(keys: KeyMap)
    ensures var r := Read(keys);
      && -1 <= r.vertical <= 1 && -1 <= r.horizontal <= 1
      && -1 <= r.cameraRotation <= 1 && -1 <= r.cameraZoom <= 1 && 0 <= r.debug <= 1
    ensures Held(keys, "z") && Held(keys, "s") ==> Read(keys).vertical == 0
    ensures Held(keys, "d") && Held(keys, "q") ==> Read(keys).horizontal == 0
  {
  }

  /** A key `update` does not read changes nothing it computes. */
  lemma UnmappedKeyIgnored(keys: KeyMap, key: string, down: bool)
    requires key !in MappedKeys
    ensures Read(keys[key := down]) == Read(keys)
  {
    assert forall k :: k in MappedKeys ==> Held(keys[key := down], k) == Held(keys, k);
  }

  class InputController {
    var inputMap: KeyMap
    var vertical: int
    var horizontal: int
    var jump: bool
    var cameraRotation: int
    var cameraZoom: int
    var debug: int
    var shoot: bool

    /** All fields start at rest and the key map is empty. */
    constructor ()
      ensures inputMap == map[] && Fields() == Reading(0, 0, false, 0, 0, 0, false)
    {
      inputMap := map[];
      vertical, horizontal, jump := 0, 0, false;
      cameraRotation, cameraZoom, debug, shoot := 0, 0, 0, false;
    }

    /** The public fields, as one value. */
    function Fields(): Reading
      reads this
    {
      Reading(vertical, horizontal, jump, cameraRotation, cameraZoom, debug, shoot)
    }

    /** The key-down handler. */
    method KeyDown(key: string)
      modifies this
      ensures inputMap == Press(old(inputMap), key) && Fields() == old(Fields())
    {
      inputMap := inputMap[key := true];
    }

    /** The key-up handler. */
    method KeyUp(key: string)
      modifies this
      ensures inputMap == Release(old(inputMap), key) && Fields() == old(Fields())
    {
      inputMap := inputMap[key := false];
    }

    /** `update`: overwrites every field from the key map and leaves the map alone, so a
        second call with no key event in between changes nothing. */
    method Update()
      modifies this
      ensures inputMap == old(inputMap) && Fields() == Read(inputMap)
    {
      var r := Read(inputMap);
      vertical, horizontal, jump := r.vertical, r.horizontal, r.jump;
      cameraRotation, cameraZoom := r.cameraRotation, r.cameraZoom;
      debug, shoot := r.debug, r.shoot;
    }
  }
}
