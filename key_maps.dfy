/** The key-state dictionary both input controllers keep: key name to "held", written by the
    key-down and key-up handlers. A key that was never pressed has no entry. */
module KeyMaps {

  type KeyMap = map<string, bool>

  /** Whether the key reads as held; a missing entry is `undefined`, which is falsy. */
  predicate Held(keys: KeyMap, key: string) {
    key in keys && keys[key]
  }

  /** `(keys[plus] ? 1 : 0) - (keys[minus] ? 1 : 0)`. */
  function Axis(keys: KeyMap, plus: string, minus: string): (r: int)
    ensures -1 <= r <= 1
    ensures r == 1 <==> Held(keys, plus) && !Held(keys, minus)
    ensures r == -1 <==> Held(keys, minus) && !Held(keys, plus)
    ensures r == 0 <==> (Held(keys, plus) <==> Held(keys, minus))
  {
    (if Held(keys, plus) then 1 else 0) - (if Held(keys, minus) then 1 else 0)
  }

  /** The key-down handler's write. */
  function Press(keys: KeyMap, key: string): (r: KeyMap)
    ensures Held(r, key)
    ensures forall k :: k != key ==> Held(r, k) == Held(keys, k)
  {
    keys[key := true]
  }

  /** The key-up handler's write. */
  function Release(keys: KeyMap, key: string): (r: KeyMap)
    ensures !Held(r, key)
    ensures forall k :: k != key ==> Held(r, k) == Held(keys, k)
  {
    keys[key := false]
  }

  /** Pressing and releasing a key that was not held leaves every key reading as before. */
  lemma PressReleaseRestores(keys: KeyMap, key: string)
    requires !Held(keys, key)
    ensures forall k :: Held(Release(Press(keys, key), key), k) == Held(keys, k)
  {
  }
}
