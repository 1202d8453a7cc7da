/** The primitive values and functions this model covers, and the errors the
    descriptors raise. A thrown JavaScript error is the `Err` case of `Result`. */
module JsValues {

  datatype Option<+T> = None | Some(value: T)

  /** What a descriptor raises, named after the message or the built-in that raises it. */
  datatype JsError =
    | NotMatchConstraints(text: string)       // TypeError "Value <text> is not match constraints"
    | NotA(kind: string, text: string)        // TypeError "Value <text> is not a <kind>"
    | CannotConvertToBigInt(text: string)     // SyntaxError raised by BigInt(text)
    | NotAFunction                            // TypeError: a String method looked up on a non-string
    | NullishProperty                         // TypeError: reading a property of null or undefined
    | MixedBigInt                             // TypeError: `%` between a BigInt and a Number
    | DivisionByZero                          // RangeError: BigInt `% 0n`
    | Raised(tag: int)                        // whatever a wrapped function itself throws

  /** Either a value or the error that was thrown instead of returning it. */
  datatype Result<+T> = Ok(value: T) | Err(error: JsError)

  /** A runtime value. Numbers are exact reals (no NaN, no infinities, no -0);
      a function is known by its declared arity (`fn.length`). */
  datatype JsValue =
    | Str(s: string)
    | Num(x: real)
    | Big(i: int)
    | Bool(b: bool)
    | Null
    | Undefined
    | Fn(arity: nat)

  /** `typeof v` as a tag. */
  function TypeOf(v: JsValue): (t: string)
    ensures t == "function" <==> v.Fn?
    ensures t == "undefined" <==> v.Undefined?
  {
    match v
    case Str(_) => "string"
    case Num(_) => "number"
    case Big(_) => "bigint"
    case Bool(_) => "boolean"
    case Null => "object"
    case Undefined => "undefined"
    case Fn(_) => "function"
  }

  /** `args[idx]` in JavaScript: reading past the end yields undefined. */
  function ArgAt(args: seq<JsValue>, idx: nat): (v: JsValue)
    ensures idx < |args| ==> v == args[idx]
    ensures idx >= |args| ==> v.Undefined?
  {
    if idx < |args| then args[idx] else Undefined
  }
}
