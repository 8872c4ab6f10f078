/**
  The JavaScript values a bound expression can resolve to, with integers only
  (no floating point, so no NaN) and objects by reference identity alone: an
  object's properties are not part of the value.  Strict equality (`===` /
  `!==`) on these values is Dafny's structural equality on the datatype.
 */
module JsValues {

  datatype Value =
    | Null
    | Undefined
    | Str(s: string)
    | Int(i: int)
    | Bool(b: bool)
    | Obj(ref: nat)   // an object, identified by its reference

  /** `v === null || v === undefined` */
  predicate IsNullish(v: Value)
  {
    v.Null? || v.Undefined?
  }

  /**
    JavaScript truthiness, as used by `if (result)`: the falsy values are
    null, undefined, the empty string, 0 and false.
   */
  function Truthy(v: Value): (r: bool)
    ensures r <==> v !in {Null, Undefined, Str(""), Int(0), Bool(false)}
  {
    match v
    case Null => false
    case Undefined => false
    case Str(s) => s != ""
    case Int(i) => i != 0
    case Bool(b) => b
    case Obj(_) => true
  }

  /**
    The value a bare `{{value}}` interpolation pushes into the render buffer:
    null and undefined are written as the empty string, anything else as is.
   */
  function Interpolated(v: Value): (r: Value)
    ensures IsNullish(v) ==> r == Str("")
    ensures !IsNullish(v) ==> r == v
    ensures !IsNullish(r)
  {
    if IsNullish(v) then Str("") else v
  }
}
