/**
 * The slice of JavaScript value semantics the LED trigger handler relies on:
 * the values a parsed JSON request body or an environment variable can hold,
 * truthiness, reading a property, `&&`, and `===` against a string or `undefined`.
 */
module JsValues {

  /** A JavaScript value of the shapes JSON parsing produces (plus `undefined`).
      Strings are sequences of characters and numbers are exact reals. */
  datatype JsValue =
    | Undefined
    | Null
    | Bool(b: bool)
    | Num(n: real)
    | Str(s: string)
    | Arr(items: seq<JsValue>)
    | Obj(props: map<string, JsValue>)
  {
    /** JavaScript truthiness: `undefined`, `null`, `false`, `0` and `""` are falsy,
        every other value (including an empty object or array) is truthy. */
    function Truthy(): (t: bool)
      ensures t <==> this !in {Undefined, Null, Bool(false), Num(0.0), Str("")}
    {
      match this
      case Undefined => false
      case Null => false
      case Bool(b) => b
      case Num(n) => n != 0.0
      case Str(s) => s != ""
      case Arr(_) => true
      case Obj(_) => true
    }

    /** The property read `v.name`. Reading a property of `undefined` or `null` throws,
        so it is only defined for other values. Only an object's own properties are
        modelled: a string, number, boolean or array read gives `undefined`. */
    function Get(name: string): (r: JsValue)
      requires !Undefined? && !Null?
      ensures r != Undefined ==> Obj? && name in props && props[name] == r
      ensures Obj? && name in props ==> r == props[name]
    {
      if Obj? && name in props then props[name] else Undefined
    }
  }

  /** `a === b` where `b` is `undefined` or a string, the only shapes an environment
      variable takes. Both are primitives, so the comparison is by value and agrees
      with structural equality. */
  function StrictEquals(a: JsValue, b: JsValue): (r: bool)
    requires b.Undefined? || b.Str?
    ensures r <==> a == b
  {
    if b.Undefined? then a.Undefined? else a.Str? && a.s == b.s
  }

  /** `a && b`: the first operand when it is falsy, otherwise the second. */
  function LogicalAnd(a: JsValue, b: JsValue): (r: JsValue)
    ensures r == a || r == b
    ensures r.Truthy() <==> a.Truthy() && b.Truthy()
  {
    if a.Truthy() then b else a
  }
}
