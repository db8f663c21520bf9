/** Property lookup on a JavaScript object literal. `obj[name]` finds the
    object's own properties and also the members every plain object
    inherits from `Object.prototype`. */
module JsObjects {

  import opened Options

  /** The names a plain object inherits from `Object.prototype`. */
  predicate PrototypeMember(name: string) {
    || name == "constructor" || name == "__proto__" || name == "hasOwnProperty"
    || name == "isPrototypeOf" || name == "propertyIsEnumerable" || name == "toString"
    || name == "toLocaleString" || name == "valueOf" || name == "__defineGetter__"
    || name == "__defineSetter__" || name == "__lookupGetter__" || name == "__lookupSetter__"
  }

  /** Every inherited name has at least seven characters, so none is a
      locale code or a short table key. */
  lemma PrototypeMemberIsLong(name: string)
    ensures PrototypeMember(name) ==> |name| >= 7
  {
  }

  /** The value `obj[name]` yields: `undefined`, an own property, or an
      inherited member (a function, or `Object.prototype` itself for
      `__proto__`; either way a truthy value that is not a string). */
  datatype Prop<+T> = Absent | Own(value: T) | Inherited(name: string)

  /** The value of an expression, or the `TypeError` it throws. */
  datatype Outcome<+T> = Value(value: T) | TypeError

  /** `obj[name]` on an object literal whose own property under `name` is
      `own`. */
  function Property<T>(own: Option<T>, name: string): (p: Prop<T>)
    ensures p.Own? <==> own.Some?
    ensures p.Own? ==> p.value == own.value
    ensures p.Inherited? <==> own.None? && PrototypeMember(name)
    ensures p.Inherited? ==> p.name == name
  {
    match own
    case Some(v) => Own(v)
    case None => if PrototypeMember(name) then Inherited(name) else Absent
  }

  /** `${value}` of an inherited member: the source text of a native
      function, or `[object Object]` for `Object.prototype`. The function
      under `constructor` is `Object` itself. */
  function InheritedText(name: string): string {
    if name == "__proto__" then "[object Object]"
    else if name == "constructor" then "function Object() { [native code] }"
    else "function " + name + "() { [native code] }"
  }
}
