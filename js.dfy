/** The slice of JavaScript's runtime semantics that the Redux core relies on:
    the kinds of values `typeof` distinguishes, objects with prototype links and
    enumerable properties, and calls that either return or throw. */
module Js {

  datatype Option<+T> = None | Some(value: T)

  /** The outcome of a JavaScript call: it returns a value or throws an `Error`
      carrying a message. */
  datatype Outcome<+T> = Returned(value: T) | Threw(message: string)

  /** Identity of an object on the heap. */
  type ObjId = nat

  /** A JavaScript value, as far as `typeof` tells values apart. Primitive values
      are represented by their kind only, since no code modelled here looks inside
      them. A function value is represented by what calling it computes, from its
      arguments (of type X) to its result (of type Y). An object is a reference
      into a `Heap`. */
  datatype Value<!X, Y> =
    | Undefined
    | Null
    | Boolean
    | Number
    | BigInt
    | String
    | Symbol
    | Function(call: X -> Y)
    | Object(ref: ObjId)

  /** The `typeof` operator. */
  function TypeOf<X, Y>(v: Value<X, Y>): (t: string)
    ensures t == "function" <==> v.Function?
    ensures t == "object" <==> v.Null? || v.Object?
    ensures t == "undefined" <==> v.Undefined?
  {
    match v
    case Undefined => "undefined"
    case Null => "object"
    case Boolean => "boolean"
    case Number => "number"
    case BigInt => "bigint"
    case String => "string"
    case Symbol => "symbol"
    case Function(_) => "function"
    case Object(_) => "object"
  }

  /** The objects of a running program: each object's prototype link
      (`Object.getPrototypeOf`, `None` for `null`) and the properties a
      `for...in` loop over it visits (own and inherited enumerable keys). */
  datatype Heap<!X, Y> = Heap(
    protos: map<ObjId, Option<ObjId>>,
    enumerable: map<ObjId, map<string, Value<X, Y>>>)
}
