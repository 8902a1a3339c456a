/**
 * The JavaScript values a request body can carry, with the two tests the login
 * handler applies to them: ToBoolean (truthiness) and strict equality (`===`),
 * both as ECMA-262 defines them.
 */
module JsValues {

  /**
   * A Number. Reals stand for the finite doubles (rounding is not modelled);
   * +0 and -0 are both `Finite(0.0)`, which is harmless here because `===`
   * and ToBoolean do not tell them apart either.
   */
  datatype JsNumber = Finite(r: real) | Infinity(negative: bool) | NaN

  /** Any other value (object, array, function, symbol) is an `Object`, compared by identity. */
  datatype JsValue =
    | Undefined
    | Null
    | Bool(b: bool)
    | Num(n: JsNumber)
    | BigInt(i: int)
    | Str(s: string)
    | Object(ref: nat)

  /** ToBoolean: what an `if`, `? :` or `||` makes of a value. */
  predicate Truthy(v: JsValue)
    ensures !Truthy(v) <==>
      v in {Undefined, Null, Bool(false), Num(Finite(0.0)), Num(NaN), BigInt(0), Str("")}
  {
    match v
    case Undefined => false
    case Null => false
    case Bool(b) => b
    case Num(n) => (n.Finite? && n.r != 0.0) || n.Infinity?
    case BigInt(i) => i != 0
    case Str(s) => |s| > 0
    case Object(_) => true
  }

  /**
   * IsStrictlyEqual (`===`): no type coercion; values of different types are
   * never equal; NaN is not equal to itself; objects are equal only when they
   * are the same object.
   */
  predicate StrictEquals(x: JsValue, y: JsValue)
    ensures StrictEquals(x, y) <==> x == y && x != Num(NaN)
  {
    match (x, y)
    case (Undefined, Undefined) => true
    case (Null, Null) => true
    case (Bool(a), Bool(b)) => a == b
    case (Num(a), Num(b)) => !a.NaN? && a == b
    case (BigInt(a), BigInt(b)) => a == b
    case (Str(a), Str(b)) => a == b
    case (Object(a), Object(b)) => a == b
    case _ => false
  }
}
