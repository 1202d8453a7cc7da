/** The descriptor classes. Every refinement is clone-then-extend: `Copy()` makes a new
    instance carrying the receiver's metadata and a copy of its constraint list, one
    metadata field is set on the copy and one constraint appended to it. No method has
    a `modifies` clause, so the receiver is never changed. `View()` gives the behaviour
    (module Descriptors) an instance has. */
module Typing {
  import opened JsValues
  import opened Constraints
  import opened Descriptors
  import opened Executors

  class StringType {
    var maxLength: Option<int>
    var minLength: Option<int>
    var pattern: Option<Pattern>
    var checkList: seq<Constraint>

    /** Only string constraints, and every metadata field that is set has its constraint. */
    ghost predicate Valid()
      reads this
    {
      && (forall i :: 0 <= i < |checkList| ==> IsStringConstraint(checkList[i]))
      && (maxLength.Some? ==> MaxLen(maxLength.value) in checkList)
      && (minLength.Some? ==> MinLen(minLength.value) in checkList)
      && (pattern.Some? ==> Constraint.Regex(pattern.value) in checkList)
    }

    /** Behaviour of the instance: `test` accepts only strings, and a valid instance
        holds only string constraints. */
    function View(): (d: Schema)
      reads this
      ensures Valid() ==> WellFormed(d)
      ensures forall x :: Test(d, x) == Ok(true) ==> x.Str?
    {
      Schema(StringKind, checkList)
    }

    /** The `string` singleton: no metadata, no constraints. */
    constructor()
      ensures Valid()
      ensures maxLength == None && minLength == None && pattern == None && checkList == []
    {
      maxLength, minLength, pattern, checkList := None, None, None, [];
    }

    method Copy() returns (r: StringType)
      ensures fresh(r) && unchanged(this)
      ensures r.maxLength == maxLength && r.minLength == minLength && r.pattern == pattern
      ensures r.checkList == checkList
    {
      r := new StringType();
      r.maxLength := maxLength;
      r.minLength := minLength;
      r.pattern := pattern;
      r.checkList := checkList;
    }

    method Max(length: int) returns (r: StringType)
      requires Valid()
      ensures fresh(r) && unchanged(this) && r.Valid()
      ensures r.maxLength == Some(length) && r.minLength == minLength && r.pattern == pattern
      ensures r.checkList == checkList + [MaxLen(length)]
    {
      r := Copy();
      r.maxLength := Some(length);
      r.checkList := r.checkList + [MaxLen(length)];
    }

    method Min(length: int) returns (r: StringType)
      requires Valid()
      ensures fresh(r) && unchanged(this) && r.Valid()
      ensures r.minLength == Some(length) && r.maxLength == maxLength && r.pattern == pattern
      ensures r.checkList == checkList + [MinLen(length)]
    {
      r := Copy();
      r.minLength := Some(length);
      r.checkList := r.checkList + [MinLen(length)];
    }

    /** `min(length).max(length)`: two constraints, both bounds recorded. */
    method Length(length: int) returns (r: StringType)
      requires Valid()
      ensures fresh(r) && unchanged(this) && r.Valid()
      ensures r.minLength == Some(length) && r.maxLength == Some(length) && r.pattern == pattern
      ensures r.checkList == checkList + [MinLen(length), MaxLen(length)]
    {
      var atLeast := Min(length);
      r := atLeast.Max(length);
    }

    method Regex(p: Pattern) returns (r: StringType)
      requires Valid()
      ensures fresh(r) && unchanged(this) && r.Valid()
      ensures r.pattern == Some(p) && r.maxLength == maxLength && r.minLength == minLength
      ensures r.checkList == checkList + [Constraint.Regex(p)]
    {
      r := Copy();
      r.pattern := Some(p);
      r.checkList := r.checkList + [Constraint.Regex(p)];
    }

    method Includes(search: string, position: int := 0) returns (r: StringType)
      requires Valid()
      ensures fresh(r) && unchanged(this) && r.Valid()
      ensures r.maxLength == maxLength && r.minLength == minLength && r.pattern == pattern
      ensures r.checkList == checkList + [Constraint.Includes(search, position)]
    {
      r := Copy();
      r.checkList := r.checkList + [Constraint.Includes(search, position)];
    }

    method StartsWith(search: string, position: int := 0) returns (r: StringType)
      requires Valid()
      ensures fresh(r) && unchanged(this) && r.Valid()
      ensures r.maxLength == maxLength && r.minLength == minLength && r.pattern == pattern
      ensures r.checkList == checkList + [Constraint.StartsWith(search, position)]
    {
      r := Copy();
      r.checkList := r.checkList + [Constraint.StartsWith(search, position)];
    }

    /** The end position defaults to 0, as in the source (not to the string's length). */
    method EndsWith(search: string, position: int := 0) returns (r: StringType)
      requires Valid()
      ensures fresh(r) && unchanged(this) && r.Valid()
      ensures r.maxLength == maxLength && r.minLength == minLength && r.pattern == pattern
      ensures r.checkList == checkList + [Constraint.EndsWith(search, position)]
    {
      r := Copy();
      r.checkList := r.checkList + [Constraint.EndsWith(search, position)];
    }
  }

  class NumberType {
    var maxValue: Option<real>
    var minValue: Option<real>
    var isInteger: Option<bool>
    var isFinite: Option<bool>
    var checkList: seq<Constraint>

    /** Only number constraints. `maxValue` is written by `ge` and `le`, `minValue` by
        `gt` and `lt`, so each records the bound of one of two opposite constraints. */
    ghost predicate Valid()
      reads this
    {
      && (forall i :: 0 <= i < |checkList| ==> IsNumberConstraint(checkList[i]))
      && (maxValue.Some? ==> NumGe(maxValue.value) in checkList || NumLe(maxValue.value) in checkList)
      && (minValue.Some? ==> NumGt(minValue.value) in checkList || NumLt(minValue.value) in checkList)
      && (isInteger.Some? ==> isInteger.value && IsInteger in checkList)
      && (isFinite.Some? ==> isFinite.value && IsFinite in checkList)
    }

    /** Behaviour of the instance: `test` accepts only numbers, and a valid instance
        holds only number constraints. */
    function View(): (d: Schema)
      reads this
      ensures Valid() ==> WellFormed(d)
      ensures forall x :: Test(d, x) == Ok(true) ==> x.Num?
    {
      Schema(NumberKind, checkList)
    }

    /** The `number` singleton. */
    constructor()
      ensures Valid()
      ensures maxValue == None && minValue == None && isInteger == None && isFinite == None
      ensures checkList == []
    {
      maxValue, minValue, isInteger, isFinite, checkList := None, None, None, None, [];
    }

    method Copy() returns (r: NumberType)
      ensures fresh(r) && unchanged(this)
      ensures r.maxValue == maxValue && r.minValue == minValue
      ensures r.isInteger == isInteger && r.isFinite == isFinite
      ensures r.checkList == checkList
    {
      r := new NumberType();
      r.maxValue := maxValue;
      r.minValue := minValue;
      r.isInteger := isInteger;
      r.isFinite := isFinite;
      r.checkList := checkList;
    }

    /** Records its lower bound in `maxValue`, as the source does. */
    method Ge(value: real) returns (r: NumberType)
      requires Valid()
      ensures fresh(r) && unchanged(this) && r.Valid()
      ensures r.maxValue == Some(value) && r.minValue == minValue
      ensures r.isInteger == isInteger && r.isFinite == isFinite
      ensures r.checkList == checkList + [NumGe(value)]
    {
      r := Copy();
      r.maxValue := Some(value);
      r.checkList := r.checkList + [NumGe(value)];
    }

    method Gt(value: real) returns (r: NumberType)
      requires Valid()
      ensures fresh(r) && unchanged(this) && r.Valid()
      ensures r.minValue == Some(value) && r.maxValue == maxValue
      ensures r.isInteger == isInteger && r.isFinite == isFinite
      ensures r.checkList == checkList + [NumGt(value)]
    {
      r := Copy();
      r.minValue := Some(value);
      r.checkList := r.checkList + [NumGt(value)];
    }

    method Le(value: real) returns (r: NumberType)
      requires Valid()
      ensures fresh(r) && unchanged(this) && r.Valid()
      ensures r.maxValue == Some(value) && r.minValue == minValue
      ensures r.isInteger == isInteger && r.isFinite == isFinite
      ensures r.checkList == checkList + [NumLe(value)]
    {
      r := Copy();
      r.maxValue := Some(value);
      r.checkList := r.checkList + [NumLe(value)];
    }

    /** Records its upper bound in `minValue`, as the source does. */
    method Lt(value: real) returns (r: NumberType)
      requires Valid()
      ensures fresh(r) && unchanged(this) && r.Valid()
      ensures r.minValue == Some(value) && r.maxValue == maxValue
      ensures r.isInteger == isInteger && r.isFinite == isFinite
      ensures r.checkList == checkList + [NumLt(value)]
    {
      r := Copy();
      r.minValue := Some(value);
      r.checkList := r.checkList + [NumLt(value)];
    }

    method Max(value: real) returns (r: NumberType)
      requires Valid()
      ensures fresh(r) && unchanged(this) && r.Valid()
      ensures r.maxValue == Some(value) && r.minValue == minValue
      ensures r.isInteger == isInteger && r.isFinite == isFinite
      ensures r.checkList == checkList + [NumLe(value)]
    {
      r := Le(value);
    }

    method Min(value: real) returns (r: NumberType)
      requires Valid()
      ensures fresh(r) && unchanged(this) && r.Valid()
      ensures r.maxValue == Some(value) && r.minValue == minValue
      ensures r.isInteger == isInteger && r.isFinite == isFinite
      ensures r.checkList == checkList + [NumGe(value)]
    {
      r := Ge(value);
    }

    method Positive() returns (r: NumberType)
      requires Valid()
      ensures fresh(r) && unchanged(this) && r.Valid()
      ensures r.minValue == Some(0.0) && r.maxValue == maxValue
      ensures r.isInteger == isInteger && r.isFinite == isFinite
      ensures r.checkList == checkList + [NumGt(0.0)]
    {
      r := Gt(0.0);
    }

    method Negative() returns (r: NumberType)
      requires Valid()
      ensures fresh(r) && unchanged(this) && r.Valid()
      ensures r.minValue == Some(0.0) && r.maxValue == maxValue
      ensures r.isInteger == isInteger && r.isFinite == isFinite
      ensures r.checkList == checkList + [NumLt(0.0)]
    {
      r := Lt(0.0);
    }

    method NonPositive() returns (r: NumberType)
      requires Valid()
      ensures fresh(r) && unchanged(this) && r.Valid()
      ensures r.maxValue == Some(0.0) && r.minValue == minValue
      ensures r.isInteger == isInteger && r.isFinite == isFinite
      ensures r.checkList == checkList + [NumLe(0.0)]
    {
      r := Le(0.0);
    }

    method NonNegative() returns (r: NumberType)
      requires Valid()
      ensures fresh(r) && unchanged(this) && r.Valid()
      ensures r.maxValue == Some(0.0) && r.minValue == minValue
      ensures r.isInteger == isInteger && r.isFinite == isFinite
      ensures r.checkList == checkList + [NumGe(0.0)]
    {
      r := Ge(0.0);
    }

    method MultipleOf(base: real) returns (r: NumberType)
      requires Valid()
      ensures fresh(r) && unchanged(this) && r.Valid()
      ensures r.maxValue == maxValue && r.minValue == minValue
      ensures r.isInteger == isInteger && r.isFinite == isFinite
      ensures r.checkList == checkList + [NumMultipleOf(base)]
    {
      r := Copy();
      r.checkList := r.checkList + [NumMultipleOf(base)];
    }

    method Int() returns (r: NumberType)
      requires Valid()
      ensures fresh(r) && unchanged(this) && r.Valid()
      ensures r.isInteger == Some(true) && r.isFinite == isFinite
      ensures r.maxValue == maxValue && r.minValue == minValue
      ensures r.checkList == checkList + [IsInteger]
    {
      r := Copy();
      r.isInteger := Some(true);
      r.checkList := r.checkList + [IsInteger];
    }

    method Finite() returns (r: NumberType)
      requires Valid()
      ensures fresh(r) && unchanged(this) && r.Valid()
      ensures r.isFinite == Some(true) && r.isInteger == isInteger
      ensures r.maxValue == maxValue && r.minValue == minValue
      ensures r.checkList == checkList + [IsFinite]
    {
      r := Copy();
      r.isFinite := Some(true);
      r.checkList := r.checkList + [IsFinite];
    }
  }

  class BigIntType {
    var maxValue: Option<int>
    var minValue: Option<int>
    var isFinite: Option<bool>
    var checkList: seq<Constraint>

    /** Only bigint constraints; `isFinite` is declared but no method sets it. */
    ghost predicate Valid()
      reads this
    {
      && (forall i :: 0 <= i < |checkList| ==> IsBigIntConstraint(checkList[i]))
      && (maxValue.Some? ==> BigGe(maxValue.value) in checkList || BigLe(maxValue.value) in checkList)
      && (minValue.Some? ==> BigGt(minValue.value) in checkList || BigLt(minValue.value) in checkList)
      && isFinite == None
    }

    /** Behaviour of the instance: `test` accepts only bigints, and a valid instance
        holds only bigint constraints. */
    function View(): (d: Schema)
      reads this
      ensures Valid() ==> WellFormed(d)
      ensures forall x :: Test(d, x) == Ok(true) ==> x.Big?
    {
      Schema(BigIntKind, checkList)
    }

    /** The `bigint` singleton. */
    constructor()
      ensures Valid()
      ensures maxValue == None && minValue == None && isFinite == None && checkList == []
    {
      maxValue, minValue, isFinite, checkList := None, None, None, [];
    }

    method Copy() returns (r: BigIntType)
      ensures fresh(r) && unchanged(this)
      ensures r.maxValue == maxValue && r.minValue == minValue && r.isFinite == isFinite
      ensures r.checkList == checkList
    {
      r := new BigIntType();
      r.maxValue := maxValue;
      r.minValue := minValue;
      r.isFinite := isFinite;
      r.checkList := checkList;
    }

    /** Records its lower bound in `maxValue`, as the source does. */
    method Ge(value: int) returns (r: BigIntType)
      requires Valid()
      ensures fresh(r) && unchanged(this) && r.Valid()
      ensures r.maxValue == Some(value) && r.minValue == minValue && r.isFinite == isFinite
      ensures r.checkList == checkList + [BigGe(value)]
    {
      r := Copy();
      r.maxValue := Some(value);
      r.checkList := r.checkList + [BigGe(value)];
    }

    method Gt(value: int) returns (r: BigIntType)
      requires Valid()
      ensures fresh(r) && unchanged(this) && r.Valid()
      ensures r.minValue == Some(value) && r.maxValue == maxValue && r.isFinite == isFinite
      ensures r.checkList == checkList + [BigGt(value)]
    {
      r := Copy();
      r.minValue := Some(value);
      r.checkList := r.checkList + [BigGt(value)];
    }

    method Le(value: int) returns (r: BigIntType)
      requires Valid()
      ensures fresh(r) && unchanged(this) && r.Valid()
      ensures r.maxValue == Some(value) && r.minValue == minValue && r.isFinite == isFinite
      ensures r.checkList == checkList + [BigLe(value)]
    {
      r := Copy();
      r.maxValue := Some(value);
      r.checkList := r.checkList + [BigLe(value)];
    }

    /** Records its upper bound in `minValue`, as the source does. */
    method Lt(value: int) returns (r: BigIntType)
      requires Valid()
      ensures fresh(r) && unchanged(this) && r.Valid()
      ensures r.minValue == Some(value) && r.maxValue == maxValue && r.isFinite == isFinite
      ensures r.checkList == checkList + [BigLt(value)]
    {
      r := Copy();
      r.minValue := Some(value);
      r.checkList := r.checkList + [BigLt(value)];
    }

    method Max(value: int) returns (r: BigIntType)
      requires Valid()
      ensures fresh(r) && unchanged(this) && r.Valid()
      ensures r.maxValue == Some(value) && r.minValue == minValue
      ensures r.checkList == checkList + [BigLe(value)]
    {
      r := Le(value);
    }

    method Min(value: int) returns (r: BigIntType)
      requires Valid()
      ensures fresh(r) && unchanged(this) && r.Valid()
      ensures r.maxValue == Some(value) && r.minValue == minValue
      ensures r.checkList == checkList + [BigGe(value)]
    {
      r := Ge(value);
    }

    method Positive() returns (r: BigIntType)
      requires Valid()
      ensures fresh(r) && unchanged(this) && r.Valid()
      ensures r.minValue == Some(0) && r.maxValue == maxValue
      ensures r.checkList == checkList + [BigGt(0)]
    {
      r := Gt(0);
    }

    method Negative() returns (r: BigIntType)
      requires Valid()
      ensures fresh(r) && unchanged(this) && r.Valid()
      ensures r.minValue == Some(0) && r.maxValue == maxValue
      ensures r.checkList == checkList + [BigLt(0)]
    {
      r := Lt(0);
    }

    method NonPositive() returns (r: BigIntType)
      requires Valid()
      ensures fresh(r) && unchanged(this) && r.Valid()
      ensures r.maxValue == Some(0) && r.minValue == minValue
      ensures r.checkList == checkList + [BigLe(0)]
    {
      r := Le(0);
    }

    method NonNegative() returns (r: BigIntType)
      requires Valid()
      ensures fresh(r) && unchanged(this) && r.Valid()
      ensures r.maxValue == Some(0) && r.minValue == minValue
      ensures r.checkList == checkList + [BigGe(0)]
    {
      r := Ge(0);
    }

    method MultipleOf(base: int) returns (r: BigIntType)
      requires Valid()
      ensures fresh(r) && unchanged(this) && r.Valid()
      ensures r.maxValue == maxValue && r.minValue == minValue && r.isFinite == isFinite
      ensures r.checkList == checkList + [BigMultipleOf(base)]
    {
      r := Copy();
      r.checkList := r.checkList + [BigMultipleOf(base)];
    }
  }

  /** BooleanType, NullType, UndefinedType, VoidType, AnyType and NeverType have no
      metadata and no refinement methods: their lists stay empty. */
  class BooleanType {
    var checkList: seq<Constraint>

    /** Behaviour of the instance: `test` accepts only booleans. */
    function View(): (d: Schema)
      reads this
      ensures forall x :: Test(d, x) == Ok(true) ==> x.Bool?
    {
      Schema(BooleanKind, checkList)
    }

    constructor()
      ensures checkList == []
    {
      checkList := [];
    }

    method Copy() returns (r: BooleanType)
      ensures fresh(r) && unchanged(this) && r.checkList == checkList
    {
      r := new BooleanType();
      r.checkList := checkList;
    }
  }

  class NullType {
    var checkList: seq<Constraint>

    /** Behaviour of the instance: `test` accepts only `null`. */
    function View(): (d: Schema)
      reads this
      ensures forall x :: Test(d, x) == Ok(true) ==> x == Null
    {
      Schema(NullKind, checkList)
    }

    constructor()
      ensures checkList == []
    {
      checkList := [];
    }

    method Copy() returns (r: NullType)
      ensures fresh(r) && unchanged(this) && r.checkList == checkList
    {
      r := new NullType();
      r.checkList := checkList;
    }
  }

  class UndefinedType {
    var checkList: seq<Constraint>

    /** Behaviour of the instance: `test` accepts only `undefined`. */
    function View(): (d: Schema)
      reads this
      ensures forall x :: Test(d, x) == Ok(true) ==> x == Undefined
    {
      Schema(UndefinedKind, checkList)
    }

    constructor()
      ensures checkList == []
    {
      checkList := [];
    }

    method Copy() returns (r: UndefinedType)
      ensures fresh(r) && unchanged(this) && r.checkList == checkList
    {
      r := new UndefinedType();
      r.checkList := checkList;
    }
  }

  class VoidType {
    var checkList: seq<Constraint>

    /** Behaviour of the instance: `test` accepts only `undefined`. */
    function View(): (d: Schema)
      reads this
      ensures forall x :: Test(d, x) == Ok(true) ==> x == Undefined
    {
      Schema(VoidKind, checkList)
    }

    constructor()
      ensures checkList == []
    {
      checkList := [];
    }

    method Copy() returns (r: VoidType)
      ensures fresh(r) && unchanged(this) && r.checkList == checkList
    {
      r := new VoidType();
      r.checkList := checkList;
    }
  }

  class AnyType {
    var checkList: seq<Constraint>

    /** Behaviour of the instance: `test` is `check` alone. */
    function View(): (d: Schema)
      reads this
      ensures forall x :: Test(d, x) == Check(d, x)
    {
      Schema(AnyKind, checkList)
    }

    constructor()
      ensures checkList == []
    {
      checkList := [];
    }

    method Copy() returns (r: AnyType)
      ensures fresh(r) && unchanged(this) && r.checkList == checkList
    {
      r := new AnyType();
      r.checkList := checkList;
    }
  }

  class NeverType {
    var checkList: seq<Constraint>

    /** Behaviour of the instance: `test` accepts nothing. */
    function View(): (d: Schema)
      reads this
      ensures forall x :: Test(d, x) != Ok(true)
    {
      Schema(NeverKind, checkList)
    }

    constructor()
      ensures checkList == []
    {
      checkList := [];
    }

    method Copy() returns (r: NeverType)
      ensures fresh(r) && unchanged(this) && r.checkList == checkList
    {
      r := new NeverType();
      r.checkList := checkList;
    }
  }

  class FunctionType {
    var parameterTypes: seq<Schema>
    var returnType: Schema
    var executor: Executor
    var checkList: seq<Constraint>

    /** `test` compares the candidate's arity with the number of parameter types: it
        accepts only functions with exactly that many declared parameters. */
    function View(): (d: Schema)
      reads this
      ensures forall x :: Test(d, x) == Ok(true) ==> x == Fn(|parameterTypes|)
    {
      Schema(FunctionKind(|parameterTypes|), checkList)
    }

    /** The `function` singleton: no parameters, returns void, does nothing. */
    constructor()
      ensures parameterTypes == [] && returnType == VoidSingleton && executor == NoOp
      ensures checkList == []
    {
      parameterTypes, returnType, executor, checkList := [], VoidSingleton, NoOp, [];
    }

    /** Carries the three accessor fields over; the constraint list is NOT copied. */
    method Copy() returns (r: FunctionType)
      ensures fresh(r) && unchanged(this)
      ensures r.parameterTypes == parameterTypes && r.returnType == returnType
      ensures r.executor == executor
      ensures r.checkList == []
    {
      r := new FunctionType();
      r.parameterTypes := parameterTypes;
      r.returnType := returnType;
      r.executor := executor;
    }

    method Args(types: seq<Schema>) returns (r: FunctionType)
      ensures fresh(r) && unchanged(this)
      ensures r.parameterTypes == types
      ensures r.returnType == returnType && r.executor == executor && r.checkList == []
    {
      r := Copy();
      r.parameterTypes := types;
    }

    method Returns(t: Schema) returns (r: FunctionType)
      ensures fresh(r) && unchanged(this)
      ensures r.returnType == t
      ensures r.parameterTypes == parameterTypes && r.executor == executor && r.checkList == []
    {
      r := Copy();
      r.returnType := t;
    }

    /** The new executor tests against the receiver's parameter and return types. */
    method Implement(fn: Callable) returns (r: FunctionType)
      ensures fresh(r) && unchanged(this)
      ensures r.executor == Checked(parameterTypes, returnType, fn)
      ensures r.parameterTypes == parameterTypes && r.returnType == returnType && r.checkList == []
    {
      r := Copy();
      r.executor := Checked(parameterTypes, returnType, fn);
    }

    /** `execute(...args)`: the default executor returns undefined; an implemented one
        returns only what the wrapped function returned, once the result passed the
        return test without a throw. */
    function Execute(args: seq<JsValue>): (r: Result<JsValue>)
      reads this
      ensures executor.NoOp? ==> r == Ok(Undefined)
      ensures executor.Checked? && r.Ok? ==> r == executor.fn(args) && Test(executor.returnType, r.value).Ok?
    {
      Executors.Execute(executor, args)
    }
  }
}
