/** The constraint list every descriptor carries. The source keeps closures; here each
    closure is a tagged constraint and `Eval` is what the closure does when called on a
    value, of ANY kind: `test` runs the list before its typeof test, so a constraint can
    meet a value of another kind, and then JavaScript's coercions and throws apply. */
module Constraints {
  import opened JsValues
  import JsStrings
  import JsLiterals

  /** The regular expression's `test`, applied to the value's string form. Left abstract. */
  type Pattern = JsValue -> bool

  datatype Constraint =
    // StringType: v.length <= n, v.length >= n, pattern.test(v), v.includes/startsWith/endsWith(t, p)
    | MaxLen(n: int)
    | MinLen(n: int)
    | Regex(pattern: Pattern)
    | Includes(search: string, position: int)
    | StartsWith(search: string, position: int)
    | EndsWith(search: string, position: int)
    // NumberType (bounds are numbers): v >= n, v > n, v <= n, v < n, v % base === 0,
    // Number.isInteger, Number.isFinite
    | NumGe(bound: real)
    | NumGt(bound: real)
    | NumLe(bound: real)
    | NumLt(bound: real)
    | NumMultipleOf(base: real)
    | IsInteger
    | IsFinite
    // BigIntType (bounds are bigints): v >= n, v > n, v <= n, v < n, v % base === 0n
    | BigGe(ibound: int)
    | BigGt(ibound: int)
    | BigLe(ibound: int)
    | BigLt(ibound: int)
    | BigMultipleOf(ibase: int)

  /** The constraints the string, number and bigint refinements append. */
  predicate IsStringConstraint(c: Constraint) {
    c.MaxLen? || c.MinLen? || c.Regex? || c.Includes? || c.StartsWith? || c.EndsWith?
  }

  predicate IsNumberConstraint(c: Constraint) {
    c.NumGe? || c.NumGt? || c.NumLe? || c.NumLt? || c.NumMultipleOf? || c.IsInteger? || c.IsFinite?
  }

  predicate IsBigIntConstraint(c: Constraint) {
    c.BigGe? || c.BigGt? || c.BigLe? || c.BigLt? || c.BigMultipleOf?
  }

  /** The mathematical value a relational operator compares `v` with a bound;
      None when the comparison involves NaN (or an unconvertible string against a
      BigInt), which makes every comparison false. */
  function Numeric(v: JsValue, againstBigInt: bool): Option<real> {
    match v
    case Str(s) =>
      if againstBigInt then
        match JsLiterals.StringToBigInt(s)
        case None => None
        case Some(i) => Some(i as real)
      else JsLiterals.StringToNumber(s)
    case Num(x) => Some(x)
    case Big(i) => Some(i as real)
    case Bool(b) => Some(if b then 1.0 else 0.0)
    case Null => Some(0.0)
    case Undefined => None
    case Fn(_) => None   // a function's source text is never a numeric literal
  }

  function Compare(v: JsValue, againstBigInt: bool, holds: real -> bool): bool {
    match Numeric(v, againstBigInt)
    case None => false
    case Some(x) => holds(x)
  }

  predicate IsIntegral(x: real) {
    x.Floor as real == x
  }

  /** `v.length` compared with `n`: strings and functions have a length, null and
      undefined throw, other values give undefined (every comparison false). */
  function LengthCompare(v: JsValue, holds: int -> bool): Result<bool> {
    match v
    case Str(s) => Ok(holds(|s|))
    case Fn(a) => Ok(holds(a))
    case Null => Err(NullishProperty)
    case Undefined => Err(NullishProperty)
    case _ => Ok(false)
  }

  /** What the constraint's closure returns (or throws) when called on `v`. A closure
      returns a verdict on every value of its own kind, except BigInt `% 0n`; it throws
      only the TypeErrors and the RangeError of the built-ins it uses. */
  function Eval(c: Constraint, v: JsValue): (r: Result<bool>)
    ensures IsStringConstraint(c) && v.Str? ==> r.Ok?
    ensures IsNumberConstraint(c) && v.Num? ==> r.Ok?
    ensures IsBigIntConstraint(c) && v.Big? && c != BigMultipleOf(0) ==> r.Ok?
    ensures r.Err? ==> r.error in {NotAFunction, NullishProperty, MixedBigInt, DivisionByZero}
    ensures r == Err(NullishProperty) ==> v.Null? || v.Undefined?
  {
    match c
    case MaxLen(n) => LengthCompare(v, len => len <= n)
    case MinLen(n) => LengthCompare(v, len => len >= n)
    case Regex(p) => Ok(p(v))
    case Includes(t, p) =>
      if v.Str? then Ok(JsStrings.Includes(v.s, t, p))
      else if v.Null? || v.Undefined? then Err(NullishProperty)
      else Err(NotAFunction)
    case StartsWith(t, p) =>
      if v.Str? then Ok(JsStrings.StartsWith(v.s, t, p))
      else if v.Null? || v.Undefined? then Err(NullishProperty)
      else Err(NotAFunction)
    case EndsWith(t, p) =>
      if v.Str? then Ok(JsStrings.EndsWith(v.s, t, p))
      else if v.Null? || v.Undefined? then Err(NullishProperty)
      else Err(NotAFunction)
    case NumGe(n) => Ok(Compare(v, false, x => x >= n))
    case NumGt(n) => Ok(Compare(v, false, x => x > n))
    case NumLe(n) => Ok(Compare(v, false, x => x <= n))
    case NumLt(n) => Ok(Compare(v, false, x => x < n))
    case NumMultipleOf(b) =>
      if v.Big? then Err(MixedBigInt)
      else Ok(b != 0.0 && Compare(v, false, x => IsIntegral(x / b)))
    case IsInteger => Ok(v.Num? && IsIntegral(v.x))
    case IsFinite => Ok(v.Num?)
    case BigGe(n) => Ok(Compare(v, true, x => x >= n as real))
    case BigGt(n) => Ok(Compare(v, true, x => x > n as real))
    case BigLe(n) => Ok(Compare(v, true, x => x <= n as real))
    case BigLt(n) => Ok(Compare(v, true, x => x < n as real))
    case BigMultipleOf(b) =>
      if !v.Big? then Err(MixedBigInt)
      else if b == 0 then Err(DivisionByZero)
      else Ok(v.i % b == 0)
  }

  /** `checkList.every(c => c(v))`: stops at the first constraint that is false or throws.
      It throws only what a constraint throws. */
  function Every(cs: seq<Constraint>, v: JsValue): (r: Result<bool>)
    ensures r.Err? ==> r.error in {NotAFunction, NullishProperty, MixedBigInt, DivisionByZero}
  {
    if cs == [] then Ok(true)
    else
      match Eval(cs[0], v)
      case Err(e) => Err(e)
      case Ok(b) => if b then Every(cs[1..], v) else Ok(false)
  }

  /** `check` holds exactly when every constraint in the list holds. */
  lemma {:induction false} EveryMeansAll(cs: seq<Constraint>, v: JsValue)
    ensures Every(cs, v) == Ok(true) <==> forall i :: 0 <= i < |cs| ==> Eval(cs[i], v) == Ok(true)
  {
    if cs != [] {
      EveryMeansAll(cs[1..], v);
      if Eval(cs[0], v) == Ok(true) {
        forall i | 1 <= i < |cs| ensures cs[i] == cs[1..][i - 1] { }
      }
    }
  }

  /** When `check` is not true, the first constraint that does not hold gave its answer:
      false, or the error it threw. */
  lemma {:induction false} EveryFirstAnswer(cs: seq<Constraint>, v: JsValue)
    requires Every(cs, v) != Ok(true)
    ensures exists k :: 0 <= k < |cs| && Eval(cs[k], v) == Every(cs, v)
                        && forall j :: 0 <= j < k ==> Eval(cs[j], v) == Ok(true)
  {
    if Eval(cs[0], v) == Ok(true) {
      EveryFirstAnswer(cs[1..], v);
      var k :| 0 <= k < |cs[1..]| && Eval(cs[1..][k], v) == Every(cs[1..], v)
               && forall j :: 0 <= j < k ==> Eval(cs[1..][j], v) == Ok(true);
      assert Eval(cs[k + 1], v) == Every(cs, v);
      forall j | 0 <= j < k + 1 ensures Eval(cs[j], v) == Ok(true) {
        if j > 0 { assert cs[j] == cs[1..][j - 1]; }
      }
    } else {
      assert Eval(cs[0], v) == Every(cs, v);
    }
  }

  /** When no constraint throws on `v`, `check` returns whether all of them hold. */
  lemma {:induction false} EveryWithoutThrow(cs: seq<Constraint>, v: JsValue)
    requires forall i :: 0 <= i < |cs| ==> Eval(cs[i], v).Ok?
    ensures Every(cs, v).Ok?
  {
    if cs != [] {
      assert Eval(cs[0], v).Ok?;
      forall i | 0 <= i < |cs[1..]| ensures Eval(cs[1..][i], v).Ok? {
        assert cs[1..][i] == cs[i + 1];
      }
      EveryWithoutThrow(cs[1..], v);
    }
  }

  /** Appending one constraint: the old list runs first; the new constraint is reached
      only when the old list holds. */
  lemma {:induction false} EveryAppend(cs: seq<Constraint>, c: Constraint, v: JsValue)
    ensures Every(cs + [c], v) == (if Every(cs, v) == Ok(true) then Eval(c, v) else Every(cs, v))
  {
    if cs == [] {
      assert [c][1..] == [];
    } else {
      assert (cs + [c])[0] == cs[0];
      assert (cs + [c])[1..] == cs[1..] + [c];
      EveryAppend(cs[1..], c, v);
    }
  }

  /** Refinement only narrows: whatever the extended list accepts, the original accepts. */
  lemma AppendNarrows(cs: seq<Constraint>, c: Constraint, v: JsValue)
    ensures Every(cs + [c], v) == Ok(true) <==> Every(cs, v) == Ok(true) && Eval(c, v) == Ok(true)
  {
    EveryAppend(cs, c, v);
  }
}
