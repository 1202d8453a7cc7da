/** Properties of the descriptors: what a constraint list accepts, what each
    refinement adds, what each kind's `parse` returns, and when `test` can throw. */
module DescriptorLaws {
  import opened JsValues
  import opened Constraints
  import opened Descriptors
  import JsLiterals

  /** A fresh singleton's empty list accepts everything, so its `test` is its kind test. */
  lemma SingletonTestIsKindTest(k: Kind, v: JsValue)
    ensures Test(Schema(k, []), v) == Ok(KindTest(k, v))
  {
  }

  /** A refinement appends one constraint: the refined descriptor accepts exactly what
      the original accepts and the new constraint holds on. */
  lemma RefineTest(k: Kind, cs: seq<Constraint>, c: Constraint, v: JsValue)
    ensures Test(Schema(k, cs + [c]), v) == Ok(true)
        <==> Test(Schema(k, cs), v) == Ok(true) && Eval(c, v) == Ok(true)
  {
    AppendNarrows(cs, c, v);
  }

  /** Whatever the refined descriptor parses, the original parses to the same value. */
  lemma RefineParse(k: Kind, cs: seq<Constraint>, c: Constraint, text: string)
    requires Parse(Schema(k, cs + [c]), text).Ok?
    ensures Parse(Schema(k, cs), text) == Parse(Schema(k, cs + [c]), text)
  {
    match k
    case StringKind => AppendNarrows(cs, c, Str(text));
    case NumberKind => AppendNarrows(cs, c, Num(JsLiterals.StringToNumber(text).value));
    case BigIntKind => AppendNarrows(cs, c, Big(JsLiterals.StringToBigInt(text).value));
    case BooleanKind => AppendNarrows(cs, c, Bool(text == "true"));
    case NullKind => AppendNarrows(cs, c, Null);
    case UndefinedKind => AppendNarrows(cs, c, Undefined);
    case VoidKind => AppendNarrows(cs, c, Undefined);
    case AnyKind => AppendNarrows(cs, c, Str(text));
    case NeverKind =>
    case FunctionKind(_) =>
  }

  /** `StringType.parse(s)` returns `s` itself exactly when `test(s)` holds, and throws
      otherwise. */
  lemma StringParseIsIdentity(cs: seq<Constraint>, s: string)
    ensures Parse(Schema(StringKind, cs), s) == Ok(Str(s)) <==> Test(Schema(StringKind, cs), Str(s)) == Ok(true)
    ensures Parse(Schema(StringKind, cs), s) != Ok(Str(s)) ==> Parse(Schema(StringKind, cs), s).Err?
  {
  }

  /** `length(n)` = `min(n).max(n)`: on strings it adds exactly "the length is n". */
  lemma ExactLength(cs: seq<Constraint>, n: int, s: string)
    ensures Test(Schema(StringKind, cs + [MinLen(n), MaxLen(n)]), Str(s)) == Ok(true)
        <==> Test(Schema(StringKind, cs), Str(s)) == Ok(true) && |s| == n
  {
    assert cs + [MinLen(n), MaxLen(n)] == (cs + [MinLen(n)]) + [MaxLen(n)];
    AppendNarrows(cs + [MinLen(n)], MaxLen(n), Str(s));
    AppendNarrows(cs, MinLen(n), Str(s));
  }

  /** `endsWith(t)` with its default end position 0 accepts a string only when `t` is empty. */
  lemma EndsWithDefaultOnlyEmpty(cs: seq<Constraint>, t: string, s: string)
    ensures Test(Schema(StringKind, cs + [EndsWith(t, 0)]), Str(s)) == Ok(true)
        <==> Test(Schema(StringKind, cs), Str(s)) == Ok(true) && t == []
  {
    assert Eval(EndsWith(t, 0), Str(s)) == Ok(t == []);
    AppendNarrows(cs, EndsWith(t, 0), Str(s));
  }

  /** `ge`, `gt`, `le`, `lt` on a number descriptor accept exactly v >= n, v > n, v <= n, v < n. */
  lemma NumberBounds(cs: seq<Constraint>, n: real, x: real)
    ensures Test(Schema(NumberKind, cs + [NumGe(n)]), Num(x)) == Ok(true) <==> Test(Schema(NumberKind, cs), Num(x)) == Ok(true) && x >= n
    ensures Test(Schema(NumberKind, cs + [NumGt(n)]), Num(x)) == Ok(true) <==> Test(Schema(NumberKind, cs), Num(x)) == Ok(true) && x > n
    ensures Test(Schema(NumberKind, cs + [NumLe(n)]), Num(x)) == Ok(true) <==> Test(Schema(NumberKind, cs), Num(x)) == Ok(true) && x <= n
    ensures Test(Schema(NumberKind, cs + [NumLt(n)]), Num(x)) == Ok(true) <==> Test(Schema(NumberKind, cs), Num(x)) == Ok(true) && x < n
  {
    assert Eval(NumGe(n), Num(x)) == Ok(x >= n);
    AppendNarrows(cs, NumGe(n), Num(x));
    assert Eval(NumGt(n), Num(x)) == Ok(x > n);
    AppendNarrows(cs, NumGt(n), Num(x));
    assert Eval(NumLe(n), Num(x)) == Ok(x <= n);
    AppendNarrows(cs, NumLe(n), Num(x));
    assert Eval(NumLt(n), Num(x)) == Ok(x < n);
    AppendNarrows(cs, NumLt(n), Num(x));
  }

  /** `multipleOf(b)` accepts x exactly when x is an integer multiple of a non-zero b;
      `int()` accepts exactly the integers. */
  lemma NumberMultipleOfAndInt(cs: seq<Constraint>, b: real, x: real)
    ensures Test(Schema(NumberKind, cs + [NumMultipleOf(b)]), Num(x)) == Ok(true)
        <==> Test(Schema(NumberKind, cs), Num(x)) == Ok(true) && b != 0.0 && IsIntegral(x / b)
    ensures Test(Schema(NumberKind, cs + [IsInteger]), Num(x)) == Ok(true)
        <==> Test(Schema(NumberKind, cs), Num(x)) == Ok(true) && IsIntegral(x)
  {
    AppendNarrows(cs, NumMultipleOf(b), Num(x));
    AppendNarrows(cs, IsInteger, Num(x));
  }

  /** The same four bounds on a bigint descriptor. */
  lemma BigIntBounds(cs: seq<Constraint>, n: int, i: int)
    ensures Test(Schema(BigIntKind, cs + [BigGe(n)]), Big(i)) == Ok(true) <==> Test(Schema(BigIntKind, cs), Big(i)) == Ok(true) && i >= n
    ensures Test(Schema(BigIntKind, cs + [BigGt(n)]), Big(i)) == Ok(true) <==> Test(Schema(BigIntKind, cs), Big(i)) == Ok(true) && i > n
    ensures Test(Schema(BigIntKind, cs + [BigLe(n)]), Big(i)) == Ok(true) <==> Test(Schema(BigIntKind, cs), Big(i)) == Ok(true) && i <= n
    ensures Test(Schema(BigIntKind, cs + [BigLt(n)]), Big(i)) == Ok(true) <==> Test(Schema(BigIntKind, cs), Big(i)) == Ok(true) && i < n
  {
    assert Eval(BigGe(n), Big(i)) == Ok(i >= n);
    AppendNarrows(cs, BigGe(n), Big(i));
    assert Eval(BigGt(n), Big(i)) == Ok(i > n);
    AppendNarrows(cs, BigGt(n), Big(i));
    assert Eval(BigLe(n), Big(i)) == Ok(i <= n);
    AppendNarrows(cs, BigLe(n), Big(i));
    assert Eval(BigLt(n), Big(i)) == Ok(i < n);
    AppendNarrows(cs, BigLt(n), Big(i));
  }

  /** BigInt `multipleOf(b)`: divisibility for b != 0; for b == 0 the `%` raises a
      RangeError whenever the list before it holds. */
  lemma BigIntMultipleOf(cs: seq<Constraint>, b: int, i: int)
    ensures b != 0 ==> (Test(Schema(BigIntKind, cs + [BigMultipleOf(b)]), Big(i)) == Ok(true)
        <==> Test(Schema(BigIntKind, cs), Big(i)) == Ok(true) && i % b == 0)
    ensures b == 0 && Check(Schema(BigIntKind, cs), Big(i)) == Ok(true)
        ==> Test(Schema(BigIntKind, cs + [BigMultipleOf(b)]), Big(i)) == Err(DivisionByZero)
  {
    AppendNarrows(cs, BigMultipleOf(b), Big(i));
    EveryAppend(cs, BigMultipleOf(b), Big(i));
  }

  /** `BooleanType.parse`: only "true" and "false" convert; any other text throws
      "not a boolean" whatever the constraints are. */
  lemma BooleanParse(cs: seq<Constraint>, text: string)
    ensures Parse(BooleanSingleton, text) == Ok(Bool(true)) <==> text == "true"
    ensures Parse(BooleanSingleton, text) == Ok(Bool(false)) <==> text == "false"
    ensures text != "true" && text != "false" ==> Parse(Schema(BooleanKind, cs), text) == Err(NotA("boolean", text))
  {
  }

  /** Null, undefined and void parse only the empty text, to null / undefined. */
  lemma EmptyTextKinds(text: string)
    ensures Parse(NullSingleton, text) == (if text == [] then Ok(Null) else Err(NotA("null", text)))
    ensures Parse(UndefinedSingleton, text) == (if text == [] then Ok(Undefined) else Err(NotA("undefined", text)))
    ensures Parse(VoidSingleton, text) == (if text == [] then Ok(Undefined) else Err(NotA("void", text)))
  {
  }

  /** Never accepts nothing: `test` is never true and `parse` always throws. */
  lemma NeverAcceptsNothing(cs: seq<Constraint>, v: JsValue, text: string)
    ensures Test(Schema(NeverKind, cs), v) != Ok(true)
    ensures Test(NeverSingleton, v) == Ok(false)
    ensures Parse(Schema(NeverKind, cs), text) == Err(NotA("never", text))
  {
  }

  /** `test` of a function type: a function whose arity is the number of parameter types. */
  lemma FunctionTest(n: nat, v: JsValue)
    ensures Test(Schema(FunctionKind(n), []), v) == Ok(v.Fn? && v.arity == n)
  {
  }

  /** The kind `AnyType.parse` settles on, stated directly. */
  ghost function Classify(text: string): JsValue {
    if text == "true" then Bool(true)
    else if text == "false" then Bool(false)
    else if text == [] then Null
    else if JsLiterals.StringToBigInt(text).Some? then Big(JsLiterals.StringToBigInt(text).value)
    else if JsLiterals.StringToNumber(text).Some? then Num(JsLiterals.StringToNumber(text).value)
    else Str(text)
  }

  /** `AnyType.parse`: when its own constraints hold on the text, the result is the
      classification above (so it never reaches its final throw and never yields
      undefined); otherwise it throws. */
  lemma AnyParseClassifies(cs: seq<Constraint>, text: string)
    ensures Every(cs, Str(text)) == Ok(true) ==> ParseAny(cs, text) == Ok(Classify(text))
    ensures Every(cs, Str(text)) != Ok(true) ==> ParseAny(cs, text).Err?
    ensures ParseAny(cs, text) != Ok(Undefined)
  {
  }

  /** Integer text is a bigint for `any`, never a number. */
  lemma AnyParsesIntegerTextAsBigInt(i: int)
    ensures Parse(AnySingleton, JsLiterals.ShowInt(i)) == Ok(Big(i))
  {
    var s := JsLiterals.ShowInt(i);
    JsLiterals.BigIntRoundTrip(i);
    assert s != [] && s[0] != 't' && s[0] != 'f';
    AnyParseClassifies([], s);
  }

  /** The priority order at work: "true" is a boolean and "" is null. */
  lemma AnyParseKeywords()
    ensures Parse(AnySingleton, "true") == Ok(Bool(true))
    ensures Parse(AnySingleton, "") == Ok(Null)
  {
  }

  /** "3.14" is a number literal but not bigint text. */
  lemma DecimalTextConverts()
    ensures JsLiterals.StringToBigInt("3.14") == None
    ensures JsLiterals.StringToNumber("3.14") == Some(3.14)
  {
    assert JsLiterals.SplitSign("3.14") == (1, "3.14");
    assert !JsLiterals.AllDigits("3.14") by { assert !JsLiterals.IsDigit("3.14"[1]); }
    assert JsLiterals.DotIndex("3.14", 0) == 1;
    assert "3.14"[..1] == "3" && "3.14"[2..] == "14";
    assert JsLiterals.DigitsValue("3") == 3 by { assert "3"[..0] == ""; }
    assert JsLiterals.DigitsValue("14") == 14 by { assert "14"[..1] == "1"; assert "1"[..0] == ""; }
  }

  /** The priority order at work: "3.14" is not bigint text, so it becomes a number. */
  lemma AnyParseDecimal()
    ensures Parse(AnySingleton, "3.14") == Ok(Num(3.14))
  {
    DecimalTextConverts();
  }

  /** The priority order at work: "abc" converts to nothing else, so it stays a string. */
  lemma AnyParseText()
    ensures Parse(AnySingleton, "abc") == Ok(Str("abc"))
  {
    AnyParseClassifies([], "abc");
    assert !JsLiterals.AllDigits("abc") by { assert !JsLiterals.IsDigit("abc"[0]); }
    assert JsLiterals.DotIndex("abc", 0) == 3;
  }

  /** No kind's constraint is zero-modulus bigint `multipleOf`: the only constraint that
      throws on a value of its own kind. */
  predicate NoZeroModulus(d: Schema) {
    forall i :: 0 <= i < |d.checkList| ==> d.checkList[i] != BigMultipleOf(0)
  }

  /** On a value of its own kind, the `test` of a descriptor built by the API returns a
      verdict instead of throwing (unless it holds `multipleOf(0n)`). */
  lemma TestTotalOnOwnKind(d: Schema, v: JsValue)
    requires WellFormed(d) && NoZeroModulus(d) && KindTest(d.kind, v)
    ensures Test(d, v).Ok?
  {
    forall i | 0 <= i < |d.checkList| ensures Eval(d.checkList[i], v).Ok? {
      assert Belongs(d.kind, d.checkList[i]);
    }
    EveryWithoutThrow(d.checkList, v);
  }

  /** `test` runs the constraints before the kind test, so a value of another kind can
      make it throw instead of returning false. */
  lemma TestThrowsOnOtherKinds()
    ensures Test(Schema(StringKind, [Includes("a", 0)]), Num(5.0)) == Err(NotAFunction)
    ensures Test(Schema(StringKind, [MaxLen(3)]), Null) == Err(NullishProperty)
    ensures Test(Schema(StringKind, [StartsWith("a", 0)]), Null) == Err(NullishProperty)
    ensures Test(Schema(BigIntKind, [BigMultipleOf(2)]), Num(4.0)) == Err(MixedBigInt)
    ensures Test(Schema(BigIntKind, [BigMultipleOf(0)]), Big(7)) == Err(DivisionByZero)
  {
  }
}
