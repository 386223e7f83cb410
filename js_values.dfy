/** JavaScript values as far as the strict equality operator `===` can tell them apart. */
module JsValues {

  /** A JavaScript number. Both +0 and -0 are `Finite(0.0)`, which `===` does not distinguish. */
  datatype Number = NaN | Finite(value: real) | Infinity(negative: bool)

  /** A JavaScript value. Objects, arrays, functions and symbols are compared by identity,
      so they are modelled by the address of the thing they refer to. */
  datatype JsValue =
    | Undefined
    | Null
    | Boolean(b: bool)
    | Num(n: Number)
    | Str(s: string)
    | Ref(address: nat)

  predicate IsNaN(x: JsValue) {
    x == Num(NaN)
  }

  /** Number equality of ECMAScript: NaN is unequal to everything, itself included. */
  function NumberEquals(x: Number, y: Number): (r: bool)
    ensures r <==> x == y && x != NaN
  {
    match (x, y)
    case (Finite(a), Finite(b)) => a == b
    case (Infinity(p), Infinity(q)) => p == q
    case _ => false
  }

  predicate SameType(x: JsValue, y: JsValue) {
    match (x, y)
    case (Undefined, Undefined) => true
    case (Null, Null) => true
    case (Boolean(_), Boolean(_)) => true
    case (Num(_), Num(_)) => true
    case (Str(_), Str(_)) => true
    case (Ref(_), Ref(_)) => true
    case _ => false
  }

  /** `x === y`, following ECMAScript's IsStrictlyEqual: values of different types are
      unequal, numbers are compared with NumberEquals, everything else by value
      (primitives) or by identity (references). The result is plain equality of the
      modelled values, except that NaN is never strictly equal to anything. */
  function StrictEquals(x: JsValue, y: JsValue): (r: bool)
    ensures r <==> x == y && !IsNaN(x)
  {
    if !SameType(x, y) then false
    else if x.Num? then NumberEquals(x.n, y.n)
    else x == y
  }
}
