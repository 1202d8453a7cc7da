/** What the executor built by `implement(fn)` delivers: the parameter and return tests
    run, but their verdicts are discarded, so the call returns `fn(args)` unless a test
    itself throws. */
module ExecutorLaws {
  import opened JsValues
  import opened Descriptors
  import opened Executors
  import DescriptorLaws

  /** Whatever the tests answer, a checked executor returns what `fn` returns, as long
      as no test throws. */
  lemma ExecuteIgnoresVerdicts(ps: seq<Schema>, rt: Schema, fn: Callable, args: seq<JsValue>)
    requires forall i :: 0 <= i < |ps| ==> Test(ps[i], ArgAt(args, i)).Ok?
    requires fn(args).Ok? ==> Test(rt, fn(args).value).Ok?
    ensures Execute(Checked(ps, rt, fn), args) == fn(args)
  {
  }

  /** Arguments of their parameters' kinds, and a result of the return type's kind,
      never make a test throw: the call is exactly `fn(args)`. */
  lemma ExecuteOnOwnKinds(ps: seq<Schema>, rt: Schema, fn: Callable, args: seq<JsValue>)
    requires forall i :: 0 <= i < |ps| ==> WellFormed(ps[i]) && DescriptorLaws.NoZeroModulus(ps[i])
    requires forall i :: 0 <= i < |ps| ==> KindTest(ps[i].kind, ArgAt(args, i))
    requires WellFormed(rt) && DescriptorLaws.NoZeroModulus(rt)
    requires fn(args).Ok? ==> KindTest(rt.kind, fn(args).value)
    ensures Execute(Checked(ps, rt, fn), args) == fn(args)
  {
    forall i | 0 <= i < |ps| ensures Test(ps[i], ArgAt(args, i)).Ok? {
      DescriptorLaws.TestTotalOnOwnKind(ps[i], ArgAt(args, i));
    }
    if fn(args).Ok? {
      DescriptorLaws.TestTotalOnOwnKind(rt, fn(args).value);
    }
    ExecuteIgnoresVerdicts(ps, rt, fn, args);
  }

  /** The first parameter test that throws ends the call before `fn` runs. */
  lemma ExecuteStopsAtThrowingArgument(ps: seq<Schema>, rt: Schema, fn: Callable, args: seq<JsValue>, k: nat)
    requires k < |ps| && Test(ps[k], ArgAt(args, k)).Err?
    requires forall i :: 0 <= i < k ==> Test(ps[i], ArgAt(args, i)).Ok?
    ensures Execute(Checked(ps, rt, fn), args) == Err(Test(ps[k], ArgAt(args, k)).error)
  {
    ArgumentTestsFirstThrow(ps, args, 0, k);
  }

  lemma {:induction false} ArgumentTestsFirstThrow(ps: seq<Schema>, args: seq<JsValue>, idx: nat, k: nat)
    requires idx <= k < |ps| && Test(ps[k], ArgAt(args, k)).Err?
    requires forall i :: idx <= i < k ==> Test(ps[i], ArgAt(args, i)).Ok?
    ensures ArgumentTests(ps, args, idx) == Err(Test(ps[k], ArgAt(args, k)).error)
    decreases k - idx
  {
    var t := Test(ps[idx], ArgAt(args, idx));
    if idx < k {
      assert t.Ok?;
      ArgumentTestsFirstThrow(ps, args, idx + 1, k);
      assert ArgumentTests(ps, args, idx) == ArgumentTests(ps, args, idx + 1);
    } else {
      assert ArgumentTests(ps, args, idx) == Err(t.error);
    }
  }
}
