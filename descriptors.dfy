/** What a descriptor does, as a value: its kind and its constraint list decide
    `check`, `test` and `parse` (the metadata fields are for introspection only).
    The classes in module Typing build these values; FunctionType keeps its
    parameter and return descriptors as such values, since descriptors are never
    changed after they are built. */
module Descriptors {
  import opened JsValues
  import opened Constraints
  import JsLiterals

  datatype Kind =
    | StringKind | NumberKind | BigIntKind | BooleanKind | NullKind
    | UndefinedKind | VoidKind | AnyKind | NeverKind
    | FunctionKind(arity: nat)   // a function type with `arity` parameter types

  datatype Schema = Schema(kind: Kind, checkList: seq<Constraint>)

  /** The default instances (`string`, `number`, … exported by the module): empty lists. */
  const StringSingleton := Schema(StringKind, [])
  const NumberSingleton := Schema(NumberKind, [])
  const BigIntSingleton := Schema(BigIntKind, [])
  const BooleanSingleton := Schema(BooleanKind, [])
  const NullSingleton := Schema(NullKind, [])
  const UndefinedSingleton := Schema(UndefinedKind, [])
  const VoidSingleton := Schema(VoidKind, [])
  const AnySingleton := Schema(AnyKind, [])
  const NeverSingleton := Schema(NeverKind, [])

  /** The constraints a kind's refinement methods append; kinds without refinements get none. */
  predicate Belongs(k: Kind, c: Constraint) {
    match k
    case StringKind => IsStringConstraint(c)
    case NumberKind => IsNumberConstraint(c)
    case BigIntKind => IsBigIntConstraint(c)
    case _ => false
  }

  /** A descriptor the public API can build. */
  predicate WellFormed(d: Schema) {
    forall i :: 0 <= i < |d.checkList| ==> Belongs(d.kind, d.checkList[i])
  }

  /** The runtime kind test each `test` applies after `check`: a `typeof` comparison,
      an identity with `null`/`undefined`, or (for functions) `typeof` and `length`. */
  function KindTest(k: Kind, v: JsValue): (b: bool)
    ensures k == StringKind ==> (b <==> v.Str?)
    ensures k == NumberKind ==> (b <==> v.Num?)
    ensures k == BigIntKind ==> (b <==> v.Big?)
    ensures k == BooleanKind ==> (b <==> v.Bool?)
    ensures k.FunctionKind? ==> (b <==> v == Fn(k.arity))
    ensures k == NeverKind ==> !b
    ensures k == AnyKind ==> b
  {
    match k
    case StringKind => TypeOf(v) == "string"
    case NumberKind => TypeOf(v) == "number"
    case BigIntKind => TypeOf(v) == "bigint"
    case BooleanKind => TypeOf(v) == "boolean"
    case NullKind => v == Null
    case UndefinedKind => v == Undefined
    case VoidKind => v == Undefined
    case AnyKind => true
    case NeverKind => false
    case FunctionKind(n) => TypeOf(v) == "function" && v.arity == n
  }

  /** `check(v)`: true exactly when every constraint holds. */
  function Check(d: Schema, v: JsValue): (r: Result<bool>)
    ensures r == Ok(true) <==> forall i :: 0 <= i < |d.checkList| ==> Eval(d.checkList[i], v) == Ok(true)
  {
    EveryMeansAll(d.checkList, v);
    Every(d.checkList, v)
  }

  /** `test(v)`: `this.check(v) && <kind test>`, in that order, so a throwing
      constraint throws out of `test`. */
  function Test(d: Schema, v: JsValue): (r: Result<bool>)
    ensures r == Ok(true) <==> Check(d, v) == Ok(true) && KindTest(d.kind, v)
    ensures r.Err? <==> Check(d, v).Err?
  {
    match Check(d, v)
    case Err(e) => Err(e)
    case Ok(b) => Ok(b && KindTest(d.kind, v))
  }

  /** The shared tail of every scalar `parse`: return the converted value when the
      list holds, throw "not match constraints" when it fails, pass a throw through. */
  function Constrained(cs: seq<Constraint>, v: JsValue, text: string): (r: Result<JsValue>)
    ensures r == Ok(v) <==> Every(cs, v) == Ok(true)
    ensures r.Ok? ==> r.value == v
  {
    match Every(cs, v)
    case Err(e) => Err(e)
    case Ok(b) => if b then Ok(v) else Err(NotMatchConstraints(text))
  }

  function ParseString(cs: seq<Constraint>, text: string): (r: Result<JsValue>)
    ensures r.Ok? <==> Every(cs, Str(text)) == Ok(true)
    ensures r.Ok? ==> r.value == Str(text)
  {
    Constrained(cs, Str(text), text)
  }

  function ParseNumber(cs: seq<Constraint>, text: string): (r: Result<JsValue>)
    ensures r.Ok? <==> exists x :: JsLiterals.StringToNumber(text) == Some(x) && Every(cs, Num(x)) == Ok(true)
    ensures r.Ok? ==> r.value == Num(JsLiterals.StringToNumber(text).value)
    ensures JsLiterals.StringToNumber(text).None? ==> r == Err(NotA("number", text))
  {
    match JsLiterals.StringToNumber(text)
    case None => Err(NotA("number", text))
    case Some(x) => Constrained(cs, Num(x), text)
  }

  function ParseBigInt(cs: seq<Constraint>, text: string): (r: Result<JsValue>)
    ensures r.Ok? <==> exists i :: JsLiterals.StringToBigInt(text) == Some(i) && Every(cs, Big(i)) == Ok(true)
    ensures r.Ok? ==> r.value == Big(JsLiterals.StringToBigInt(text).value)
    ensures JsLiterals.StringToBigInt(text).None? ==> r == Err(CannotConvertToBigInt(text))
  {
    match JsLiterals.StringToBigInt(text)
    case None => Err(CannotConvertToBigInt(text))
    case Some(i) => Constrained(cs, Big(i), text)
  }

  function ParseBoolean(cs: seq<Constraint>, text: string): (r: Result<JsValue>)
    ensures text != "true" && text != "false" ==> r == Err(NotA("boolean", text))
    ensures r.Ok? ==> r.value == Bool(text == "true") && (text == "true" || text == "false")
  {
    if !(text == "true" || text == "false") then Err(NotA("boolean", text))
    else Constrained(cs, Bool(text == "true"), text)
  }

  /** Null, undefined and void: only the empty text converts, to `empty`. */
  function ParseEmpty(cs: seq<Constraint>, text: string, empty: JsValue, kind: string): (r: Result<JsValue>)
    ensures |text| > 0 ==> r == Err(NotA(kind, text))
    ensures r.Ok? ==> text == [] && r.value == empty
  {
    if |text| > 0 then Err(NotA(kind, text))
    else Constrained(cs, empty, text)
  }

  /** `AnyType.parse`: its own list must hold on the raw text, then the first kind
      whose unconstrained singleton parses the text wins, in the order boolean, null,
      undefined, bigint, number, string. */
  function ParseAny(cs: seq<Constraint>, text: string): (r: Result<JsValue>)
    ensures r.Ok? ==> Every(cs, Str(text)) == Ok(true)
  {
    match Every(cs, Str(text))
    case Err(e) => Err(e)
    case Ok(b) =>
      if !b then Err(NotMatchConstraints(text))
      else
        var asBoolean := ParseBoolean(BooleanSingleton.checkList, text);
        var asNull := ParseEmpty(NullSingleton.checkList, text, Null, "null");
        var asUndefined := ParseEmpty(UndefinedSingleton.checkList, text, Undefined, "undefined");
        var asBigInt := ParseBigInt(BigIntSingleton.checkList, text);
        var asNumber := ParseNumber(NumberSingleton.checkList, text);
        var asString := ParseString(StringSingleton.checkList, text);
        if asBoolean.Ok? then asBoolean
        else if asNull.Ok? then asNull
        else if asUndefined.Ok? then asUndefined
        else if asBigInt.Ok? then asBigInt
        else if asNumber.Ok? then asNumber
        else if asString.Ok? then asString
        else Err(NotA("any", text))
  }

  /** `parse(text)` of a descriptor; its Result is exactly what `safeParse` returns.
      A value it returns passes the descriptor's own `test` (for `any`, whose parse
      checks the raw text, the text passes it); `never` and `function` always throw. */
  function Parse(d: Schema, text: string): (r: Result<JsValue>)
    ensures r.Ok? && !d.kind.AnyKind? ==> Test(d, r.value) == Ok(true)
    ensures r.Ok? && d.kind.AnyKind? ==> Test(d, Str(text)) == Ok(true)
    ensures d.kind.NeverKind? || d.kind.FunctionKind? ==> r.Err?
  {
    match d.kind
    case StringKind => ParseString(d.checkList, text)
    case NumberKind => ParseNumber(d.checkList, text)
    case BigIntKind => ParseBigInt(d.checkList, text)
    case BooleanKind => ParseBoolean(d.checkList, text)
    case NullKind => ParseEmpty(d.checkList, text, Null, "null")
    case UndefinedKind => ParseEmpty(d.checkList, text, Undefined, "undefined")
    case VoidKind => ParseEmpty(d.checkList, text, Undefined, "void")
    case AnyKind => ParseAny(d.checkList, text)
    case NeverKind => Err(NotA("never", text))
    case FunctionKind(_) => Err(NotA("function", text))
  }
}
