/** The WASD input controller (src/inputController.ts): w/s and d/a move and space jumps. */
module WasdInputs {
  import opened KeyMaps

  /** The keys `update` reads. */
  const MappedKeys: set<string> := {"w", "s", "d", "a", " "}

  /** What one `update` writes into the controller's public fields. */
  datatype Reading = Reading(vertical: int, horizontal: int, jump: bool)

  /** The fields `update` computes from the key map. */
  function Read(keys: KeyMap): (r: Reading)
    ensures r.vertical == Axis(keys, "w", "s") && r.horizontal == Axis(keys, "d", "a")
    ensures r.jump == Held(keys, " ")
  {
    Reading(
      (if Held(keys, "w") then 1 else 0) - (if Held(keys, "s") then 1 else 0),
      (if Held(keys, "d") then 1 else 0) - (if Held(keys, "a") then 1 else 0),
      Held(keys, " "))
  }

  /** Both axes are -1, 0 or 1; opposite keys held together cancel. */
  lemma ReadingInRange(keys: KeyMap)
    ensures -1 <= Read(keys).vertical <= 1 && -1 <= Read(keys).horizontal <= 1
    ensures Held(keys, "w") && Held(keys, "s") ==> Read(keys).vertical == 0
    ensures Held(keys, "d") && Held(keys, "a") ==> Read(keys).horizontal == 0
  {
  }

  /** A key `update` does not read changes nothing it computes. */
  lemma UnmappedKeyIgnored(keys: KeyMap, key: string, down: bool)
    requires key !in MappedKeys
    ensures Read(keys[key := down]) == Read(keys)
  {
    assert forall k :: k in MappedKeys ==> Held(keys[key := down], k) == Held(keys, k);
  }

  class InputController {
    var inputMap: KeyMap
    var vertical: int
    var horizontal: int
    var jump: bool

    /** Both axes start at 0, jump at false, and the key map is empty. */
    constructor ()
      ensures inputMap == map[] && Fields() == Reading(0, 0, false)
    {
      inputMap := map[];
      vertical, horizontal, jump := 0, 0, false;
    }

    /** The public fields, as one value. */
    function Fields(): Reading
      reads this
    {
      Reading(vertical, horizontal, jump)
    }

    /** The key-down handler. */
    method KeyDown(key: string)
      modifies this
      ensures inputMap == Press(old(inputMap), key) && Fields() == old(Fields())
    {
      inputMap := inputMap[key := true];
    }

    /** The key-up handler. */
    method KeyUp(key: string)
      modifies this
      ensures inputMap == Release(old(inputMap), key) && Fields() == old(Fields())
    {
      inputMap := inputMap[key := false];
    }

    /** `update`: overwrites the fields from the key map and leaves the map alone, so a second
        call with no key event in between changes nothing. */
    method Update()
      modifies this
      ensures inputMap == old(inputMap) && Fields() == Read(inputMap)
    {
      var r := Read(inputMap);
      vertical, horizontal, jump := r.vertical, r.horizontal, r.jump;
    }
  }
}
