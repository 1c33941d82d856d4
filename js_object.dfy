/** Property lookup on plain JavaScript objects, shared by the modules that index objects by strings. */
module JsObject {

  /**
   * The properties every plain object inherits from `Object.prototype`. Each is a function,
   * except `__proto__`, which is `Object.prototype` itself; all of them are truthy.
   */
  predicate IsInheritedProperty(key: string) {
    key in {"constructor", "__defineGetter__", "__defineSetter__", "hasOwnProperty", "__lookupGetter__",
            "__lookupSetter__", "isPrototypeOf", "propertyIsEnumerable", "toString", "valueOf", "__proto__",
            "toLocaleString"}
  }
}
