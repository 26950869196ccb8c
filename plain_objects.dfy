/** What a JavaScript plain object (`{}` or an object literal) answers for a name it does not
    hold as an own key: the members it inherits from `Object.prototype`. Both the inventory's
    dictionary and a room's exit table are such objects. */
module PlainObjects {
  /** The name whose assignment sets the object's prototype rather than an own entry. */
  const PROTO: string := "__proto__"

  /** The members every plain object inherits from `Object.prototype`. Each is a function or,
      for `__proto__`, an object, so reading one is truthy. */
  const INHERITED: set<string> := {
    "constructor", "hasOwnProperty", "isPrototypeOf", "propertyIsEnumerable",
    "toLocaleString", "toString", "valueOf", "__defineGetter__", "__defineSetter__",
    "__lookupGetter__", "__lookupSetter__", PROTO }
}
