/** JavaScript values as the hooks see them: a property can be missing
    (`undefined`), explicitly `null`, or hold a value. Only the truthiness
    rules the hooks rely on are modelled. */
module Js {

  datatype Js<T> = Undefined | Null | Val(v: T)

  /** A string is truthy when it is present and not the empty string. */
  predicate StrTruthy(x: Js<string>)
    ensures !StrTruthy(x) <==> x in {Undefined, Null, Val("")}
  {
    x.Val? && x.v != ""
  }

  /** A numeric key id is truthy when it is present and not zero. */
  predicate IdTruthy(x: Js<nat>)
    ensures !IdTruthy(x) <==> x in {Undefined, Null, Val(0)}
  {
    x.Val? && x.v != 0
  }

  /** `x || null` for a string-valued property: a falsy operand (missing,
      null or empty) becomes `null`, a truthy one is passed through. */
  function OrNull(x: Js<string>): (r: Js<string>)
    ensures r == Null <==> !StrTruthy(x)
    ensures r != Null ==> r == x && StrTruthy(r)
  {
    if StrTruthy(x) then x else Null
  }
}
