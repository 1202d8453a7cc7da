/** Refinement chains built through the classes, from the singletons, with the
    answers their `test`, `parse` and `execute` give. */
module Scenarios {
  import opened JsValues
  import opened Constraints
  import opened Descriptors
  import opened Executors
  import opened Typing
  import JsLiterals
  import DescriptorLaws
  import ExecutorLaws

  /** `number.ge(5).test(5)`, `number.gt(5).test(5)` and `number.le(5).test(6)`. */
  method NumberBoundaries() returns (ge5: Result<bool>, gt5: Result<bool>, le5: Result<bool>)
    ensures ge5 == Ok(true) && gt5 == Ok(false) && le5 == Ok(false)
  {
    var number := new NumberType();
    var atLeast5 := number.Ge(5.0);
    var above5 := number.Gt(5.0);
    var atMost5 := number.Le(5.0);
    assert atLeast5.checkList == [] + [NumGe(5.0)];
    assert above5.checkList == [] + [NumGt(5.0)];
    assert atMost5.checkList == [] + [NumLe(5.0)];
    DescriptorLaws.NumberBounds([], 5.0, 5.0);
    DescriptorLaws.NumberBounds([], 5.0, 6.0);
    ge5 := Test(atLeast5.View(), Num(5.0));
    gt5 := Test(above5.View(), Num(5.0));
    le5 := Test(atMost5.View(), Num(6.0));
  }

  /** Refining leaves the receiver as it was: `number` still accepts 4 after
      `number.ge(5)` has been built, and the refined one rejects it. */
  method RefiningLeavesReceiver() returns (before: Result<bool>, original: Result<bool>, refined: Result<bool>)
    ensures before == original == Ok(true) && refined == Ok(false)
  {
    var number := new NumberType();
    before := Test(number.View(), Num(4.0));
    var atLeast5 := number.Ge(5.0);
    original := Test(number.View(), Num(4.0));
    refined := Test(atLeast5.View(), Num(4.0));
  }

  /** `string.length(3)` parses "abc" to itself and rejects "ab". */
  method StringLength() returns (three: Result<JsValue>, two: Result<JsValue>)
    ensures three == Ok(Str("abc"))
    ensures two == Err(NotMatchConstraints("ab"))
  {
    var str := new StringType();
    var exactly3 := str.Length(3);
    assert exactly3.checkList == [] + [MinLen(3), MaxLen(3)];
    DescriptorLaws.ExactLength([], 3, "abc");
    DescriptorLaws.ExactLength([], 3, "ab");
    three := Parse(exactly3.View(), "abc");
    two := Parse(exactly3.View(), "ab");
  }

  /** `(a, b) => a + b` on two numbers, or on a whole number and a string (concatenation);
      other argument kinds are outside this example and throw. */
  function Add(args: seq<JsValue>): Result<JsValue> {
    if |args| >= 2 && args[0].Num? && args[1].Num? then Ok(Num(args[0].x + args[1].x))
    else if |args| >= 2 && args[0].Num? && IsIntegral(args[0].x) && args[1].Str? then
      Ok(Str(JsLiterals.ShowInt(args[0].x.Floor) + args[1].s))
    else Err(Raised(0))
  }

  /** `function.args(number, number).returns(number).implement(add)`: `execute(3, 5)`
      is 8, and `execute(3, "x")` is not stopped by the failed parameter test. */
  method CheckedAdd() returns (sum: Result<JsValue>, mixed: Result<JsValue>)
    ensures sum == Ok(Num(8.0))
    ensures mixed == Ok(Str("3x"))
  {
    var number := new NumberType();
    var fn0 := new FunctionType();
    var fn1 := fn0.Args([number.View(), number.View()]);
    var fn2 := fn1.Returns(number.View());
    var add := fn2.Implement(Add);
    sum := add.Execute([Num(3.0), Num(5.0)]);
    assert Test(NumberSingleton, Str("x")) == Ok(false);
    assert (3.0).Floor == 3 && JsLiterals.ShowInt(3) == "3";
    var args := [Num(3.0), Str("x")];
    assert IsIntegral(args[0].x);
    assert JsLiterals.ShowInt(args[0].x.Floor) + args[1].s == "3x";
    assert Add(args) == Ok(Str("3x"));
    ExecutorLaws.ExecuteIgnoresVerdicts([NumberSingleton, NumberSingleton], NumberSingleton, Add, [Num(3.0), Str("x")]);
    mixed := add.Execute([Num(3.0), Str("x")]);
  }
}
