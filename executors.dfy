/** The executor a FunctionType carries and what `execute` does with it. */
module Executors {
  import opened JsValues
  import opened Descriptors

  /** A wrapped function: given the argument list, returns a value or throws. */
  type Callable = seq<JsValue> -> Result<JsValue>

  /** The default executor `() => {}`, or the closure `implement(fn)` builds, which
      captures the receiver's parameter and return types. */
  datatype Executor =
    | NoOp
    | Checked(parameterTypes: seq<Schema>, returnType: Schema, fn: Callable)

  /** `parameterTypes.forEach((input, idx) => input.test(args[idx]))` from index `idx`:
      each verdict is discarded; only a throw escapes. */
  function ArgumentTests(ps: seq<Schema>, args: seq<JsValue>, idx: nat): (r: Result<()>)
    requires idx <= |ps|
    ensures r.Ok? <==> forall i :: idx <= i < |ps| ==> Test(ps[i], ArgAt(args, i)).Ok?
    decreases |ps| - idx
  {
    if idx == |ps| then Ok(())
    else
      match Test(ps[idx], ArgAt(args, idx))
      case Err(e) => Err(e)
      case Ok(_) => ArgumentTests(ps, args, idx + 1)
  }

  /** `execute(...args)`: run the executor. A checked call that returns has run every
      parameter test and the return test without a throw, and returns what `fn` returned. */
  function Execute(e: Executor, args: seq<JsValue>): (r: Result<JsValue>)
    ensures e.NoOp? ==> r == Ok(Undefined)
    ensures e.Checked? && r.Ok? ==> e.fn(args) == r
    ensures e.Checked? && r.Ok? ==>
              (forall i :: 0 <= i < |e.parameterTypes| ==> Test(e.parameterTypes[i], ArgAt(args, i)).Ok?)
              && Test(e.returnType, r.value).Ok?
  {
    match e
    case NoOp => Ok(Undefined)
    case Checked(ps, rt, fn) =>
      match ArgumentTests(ps, args, 0)
      case Err(err) => Err(err)
      case Ok(_) =>
        match fn(args)
        case Err(err) => Err(err)
        case Ok(result) =>
          match Test(rt, result)
          case Err(err) => Err(err)
          case Ok(_) => Ok(result)
  }
}
