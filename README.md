# Runtime schema engine of kakao.js, in Dafny

This project models the type descriptors of `src/typing/typing.ts`. A descriptor
(`string`, `number`, `bigint`, `boolean`, `null`, `undefined`, `void`, `any`, `never`,
`function`) carries an ordered constraint list. It offers `check` (every constraint
holds), `test` (`check` followed by a runtime kind test), `parse` (text to value, or a
thrown error) and `safeParse` (the same outcome as a tagged result). Refinements such as
`max`, `ge` or `regex` are clone-then-extend. `copy()` builds a new instance, one
metadata field is set on it and one constraint is pushed onto its list. The receiver is
never touched.

Layout:

- `js_values.dfy` (`JsValues`) holds runtime values, thrown errors and `Result`.
- `js_strings.dfy` (`JsStrings`) holds `String.prototype.includes`, `startsWith` and
  `endsWith` with their position arguments, as ECMA-262 defines them.
- `js_literals.dfy` (`JsLiterals`) holds `BigInt(text)` and `+text` on decimal text,
  and the decimal rendering they invert.
- `constraints.dfy` (`Constraints`) holds the constraint closures as a tagged datatype.
  `Eval` gives what a closure returns or throws on a string, number, bigint, boolean,
  `null`, `undefined` or function. `Every` is `checkList.every(...)`.
- `descriptors.dfy` (`Descriptors`) holds the behaviour of a descriptor, given its kind
  and constraint list: `Check`, `Test` and `Parse`, including the `any` cascade and the
  singletons.
- `executors.dfy` (`Executors`) holds the executor of a function type and `execute`.
- `typing.dfy` (`Typing`) holds one class per descriptor kind, with the source's fields,
  a constructor that builds the singleton instance, `Copy` and every refinement method.
  `View()` gives the instance's behaviour.
- `laws.dfy`, `executor_laws.dfy` and `scenarios.dfy` hold the properties and worked
  refinement chains.

`any.parse` tries boolean, null, undefined, bigint, number and string in that order
(typing.ts:397-416), so integer text becomes a bigint, never a number
(`DescriptorLaws.AnyParsesIntegerTextAsBigInt`).

A thrown error is `Err(e)` of `Result`. `Parse` returns exactly what `safeParse` returns:
`{success: true, value}` is `Ok(value)` and `{success: false, error}` is `Err(error)`.

## Where the code departs from its apparent intent

The model follows the code in each of these cases.

- `ge` records its lower bound in `maxValue`, and so does `min` (typing.ts:127-132,
  229-234). `gt` and `lt` both write `minValue` (typing.ts:134-153, 236-255). The
  `Ge`, `Gt`, `Lt` and `Min` methods of `NumberType` and `BigIntType` state these
  writes. The classes' `Valid()` predicates record that `maxValue` is the bound of a
  `ge` or an `le` constraint.
- `FunctionType.copy` does not copy the constraint list (typing.ts:452-458). The
  list of a function type is always empty, so nothing observable follows.
  `Typing.FunctionType.Copy` states `r.checkList == []`.
- `implement` runs the argument and return tests but discards their verdicts
  (typing.ts:484-486). A failed argument test does not stop the call.
  `Scenarios.CheckedAdd` shows `execute(3, "x")` returning `"3x"`. A call that
  violates the contract is stopped only when a test throws
  (`ExecutorLaws.ExecuteStopsAtThrowingArgument`).
- `test` evaluates `check(value)` before the `typeof` test (typing.ts:47, 124, 226).
  A constraint closure therefore runs on values of other kinds, and some of those
  closures throw. For example, `string.includes("a").test(5)` throws a TypeError
  instead of returning false (`DescriptorLaws.TestThrowsOnOtherKinds`). On values of its
  own kind, `test` returns a verdict (`DescriptorLaws.TestTotalOnOwnKind`). The one
  exception is BigInt `multipleOf(0n)`, whose `%` raises a RangeError.
- `endsWith(search)` defaults its end position to 0 (typing.ts:87). ECMA-262, section
  22.1.3.7 (`String.prototype.endsWith`), treats that argument as an end position, so
  the constraint holds only for an empty search string
  (`DescriptorLaws.EndsWithDefaultOnlyEmpty`).
- The final "not a any" throw of `any.parse` (typing.ts:415) cannot be reached: the
  unconstrained `string` parser accepts every text (`DescriptorLaws.AnyParseClassifies`).

## Model

| member | source | states |
|---|---|---|
| Constraints.Eval | src/typing/typing.ts:50-285 | on the modelled values (no objects, arrays or symbols), every constraint closure returns a verdict on a value of its own kind (except BigInt `% 0n`); it throws only a TypeError (String method missing, property of null/undefined, BigInt mixed with Number) or the `% 0n` RangeError, and the null/undefined TypeError only on null or undefined |
| Constraints.Every | src/typing/typing.ts:18-20 | `every` throws only what a constraint throws |
| Constraints.EveryFirstAnswer | src/typing/typing.ts:18-20 | when `check` is not true, its answer (false or a throw) is that of the first constraint that does not hold, all earlier ones holding |
| Constraints.EveryMeansAll | src/typing/typing.ts:18-20 | `check(v)` is true exactly when every constraint in the list holds on `v` |
| Constraints.EveryWithoutThrow | src/typing/typing.ts:18-20 | when no constraint throws on `v`, `check(v)` returns a verdict rather than throwing |
| Constraints.EveryAppend | src/typing/typing.ts:18-20 | a list with one constraint appended runs the old list first; the new constraint decides only when the old list holds |
| Constraints.AppendNarrows | src/typing/typing.ts:50-62 | an appended constraint narrows `check`: the extended list accepts `v` iff the old list and the new constraint both accept it |
| JsStrings.IndexOf | src/typing/typing.ts:75-79 | finds the first occurrence at or after the start, and returns -1 exactly when there is none |
| JsStrings.Includes | src/typing/typing.ts:75-79 | `s.includes(t, p)` holds iff `t` occurs in `s` at an index at or after the clamped position |
| JsStrings.StartsWith | src/typing/typing.ts:81-85 | `s.startsWith(t, p)` holds iff each character of `t` matches `s` from the clamped position on; the empty string always matches |
| JsStrings.EndsWith | src/typing/typing.ts:87-91 | `s.endsWith(t, e)` holds iff `t` ends exactly at the clamped end position; with an end position at or below 0 (the default at line 87) only the empty `t` matches |
| JsStrings.EndsWithAtLength | src/typing/typing.ts:87-91 | with end position at the string's length, `endsWith` is the suffix test |
| JsLiterals.StringToBigInt | src/typing/typing.ts:218-223 | text `BigInt` accepts is also number text, and `+text` gives the same value |
| JsLiterals.StringToNumber | src/typing/typing.ts:114-121 | `+text` is NaN unless the text holds a digit and consists only of digits, points and a leading sign (the empty text is 0) |
| JsLiterals.UnsignedDecimalShape | src/typing/typing.ts:114-121 | an unsigned literal that converts holds a digit and nothing but digits and points |
| JsLiterals.Decimal | src/typing/typing.ts:218-222 | the decimal rendering is a non-empty run of digits with no point |
| JsLiterals.DigitsValueOfDecimal | src/typing/typing.ts:218-222 | the digit-run value inverts the decimal rendering |
| JsLiterals.BigIntRoundTrip | src/typing/typing.ts:218-222 | `BigInt(String(i)) == i` for every integer `i` |
| JsLiterals.NumberOfIntegerText | src/typing/typing.ts:114-120 | `+String(i) == i` for every integer `i` |
| Descriptors.Check | src/typing/typing.ts:18-20 | `check(v)` is true iff every constraint in the list is true on `v` |
| Descriptors.KindTest | src/typing/typing.ts:46-48 | the `typeof` tests of the `test` methods accept exactly strings, numbers, bigints, booleans, functions of the given arity; `any` accepts everything and `never` nothing |
| Descriptors.Parse | src/typing/typing.ts:9-16 | `safeParse` (and `parse`) succeeds only with a value that passes the descriptor's own `test`; for `any`, the raw text passes it; `never` and `function` always fail |
| Descriptors.Test | src/typing/typing.ts:46-48 | `test(v)` is true iff `check(v)` is true and the kind test passes; it throws iff `check(v)` throws |
| Descriptors.Constrained | src/typing/typing.ts:118-120 | a converted value is returned iff the list holds on it; otherwise parse throws |
| Descriptors.ParseString | src/typing/typing.ts:41-44 | `parse(s)` succeeds iff `check(s)` holds, and then returns `s` unchanged |
| Descriptors.ParseNumber | src/typing/typing.ts:114-121 | `parse` succeeds iff the text converts to a number that passes the list; NaN throws "not a number" |
| Descriptors.ParseBigInt | src/typing/typing.ts:218-223 | `parse` succeeds iff `BigInt(text)` converts and passes the list; bad text throws a SyntaxError |
| Descriptors.ParseBoolean | src/typing/typing.ts:299-307 | text other than "true"/"false" throws "not a boolean" before any constraint; success maps "true" to true and "false" to false |
| Descriptors.ParseEmpty | src/typing/typing.ts:325-379 | null/undefined/void parse only the empty text, to the kind's value; non-empty text throws "not a <kind>" |
| Descriptors.ParseAny | src/typing/typing.ts:397-416 | `any.parse` succeeds only when its own list holds on the raw text |
| Executors.ArgumentTests | src/typing/typing.ts:484 | the `forEach` over parameter types completes iff no parameter test throws on its argument (undefined past the end) |
| Executors.Execute | src/typing/typing.ts:481-494 | the default executor returns undefined; a checked executor that returns has run every parameter test and the return test without a throw, and returns exactly what the wrapped function returned |
| Typing.StringType.View | src/typing/typing.ts:46-48 | the instance's `test` accepts only strings; a valid instance holds only string constraints |
| Typing.StringType.constructor | src/typing/typing.ts:498 | the `string` singleton has no metadata and an empty list |
| Typing.StringType.Copy | src/typing/typing.ts:32-39 | a fresh instance with the receiver's metadata and list; receiver unchanged |
| Typing.StringType.Max | src/typing/typing.ts:50-55 | fresh copy with `maxLength` set and `v.length <= n` appended; the rest carried over |
| Typing.StringType.Min | src/typing/typing.ts:57-62 | fresh copy with `minLength` set and `v.length >= n` appended |
| Typing.StringType.Length | src/typing/typing.ts:64-66 | `min(n).max(n)`: both bounds recorded, both constraints appended |
| Typing.StringType.Regex | src/typing/typing.ts:68-73 | fresh copy with `pattern` set and the pattern test appended |
| Typing.StringType.Includes | src/typing/typing.ts:75-79 | fresh copy with the `includes` constraint appended (position defaults to 0) |
| Typing.StringType.StartsWith | src/typing/typing.ts:81-85 | fresh copy with the `startsWith` constraint appended (position defaults to 0) |
| Typing.StringType.EndsWith | src/typing/typing.ts:87-91 | fresh copy with the `endsWith` constraint appended (end position defaults to 0) |
| Typing.NumberType.View | src/typing/typing.ts:123-125 | the instance's `test` accepts only numbers; a valid instance holds only number constraints |
| Typing.NumberType.constructor | src/typing/typing.ts:500 | the `number` singleton has no metadata and an empty list |
| Typing.NumberType.Copy | src/typing/typing.ts:104-112 | a fresh instance with the four metadata fields and the list; receiver unchanged |
| Typing.NumberType.Ge | src/typing/typing.ts:127-132 | appends `v >= n` and writes `maxValue` |
| Typing.NumberType.Gt | src/typing/typing.ts:134-139 | appends `v > n` and writes `minValue` |
| Typing.NumberType.Le | src/typing/typing.ts:141-146 | appends `v <= n` and writes `maxValue` |
| Typing.NumberType.Lt | src/typing/typing.ts:148-153 | appends `v < n` and writes `minValue` |
| Typing.NumberType.Max | src/typing/typing.ts:155-157 | same result as `le(n)` |
| Typing.NumberType.Min | src/typing/typing.ts:159-161 | same result as `ge(n)` |
| Typing.NumberType.Positive | src/typing/typing.ts:163-165 | same result as `gt(0)` |
| Typing.NumberType.Negative | src/typing/typing.ts:167-169 | same result as `lt(0)` |
| Typing.NumberType.NonPositive | src/typing/typing.ts:171-173 | same result as `le(0)` |
| Typing.NumberType.NonNegative | src/typing/typing.ts:175-177 | same result as `ge(0)` |
| Typing.NumberType.MultipleOf | src/typing/typing.ts:179-183 | appends `v % base === 0`; no metadata changes |
| Typing.NumberType.Int | src/typing/typing.ts:185-190 | sets `isInteger` and appends `Number.isInteger` |
| Typing.NumberType.Finite | src/typing/typing.ts:192-197 | sets `isFinite` and appends `Number.isFinite` |
| Typing.BigIntType.View | src/typing/typing.ts:225-227 | the instance's `test` accepts only bigints; a valid instance holds only bigint constraints |
| Typing.BigIntType.constructor | src/typing/typing.ts:502 | the `bigint` singleton has no metadata and an empty list |
| Typing.BigIntType.Copy | src/typing/typing.ts:209-216 | a fresh instance with the three metadata fields and the list |
| Typing.BigIntType.Ge | src/typing/typing.ts:229-234 | appends `v >= n` and writes `maxValue` |
| Typing.BigIntType.Gt | src/typing/typing.ts:236-241 | appends `v > n` and writes `minValue` |
| Typing.BigIntType.Le | src/typing/typing.ts:243-248 | appends `v <= n` and writes `maxValue` |
| Typing.BigIntType.Lt | src/typing/typing.ts:250-255 | appends `v < n` and writes `minValue` |
| Typing.BigIntType.Max | src/typing/typing.ts:257-259 | same result as `le(n)` |
| Typing.BigIntType.Min | src/typing/typing.ts:261-263 | same result as `ge(n)` |
| Typing.BigIntType.Positive | src/typing/typing.ts:265-267 | same result as `gt(0n)` |
| Typing.BigIntType.Negative | src/typing/typing.ts:269-271 | same result as `lt(0n)` |
| Typing.BigIntType.NonPositive | src/typing/typing.ts:273-275 | same result as `le(0n)` |
| Typing.BigIntType.NonNegative | src/typing/typing.ts:277-279 | same result as `ge(0n)` |
| Typing.BigIntType.MultipleOf | src/typing/typing.ts:281-285 | appends `v % base === 0n`; no metadata changes |
| Typing.BooleanType.View | src/typing/typing.ts:309-311 | the instance's `test` accepts only booleans |
| Typing.BooleanType.constructor | src/typing/typing.ts:504 | the `boolean` singleton has an empty list |
| Typing.BooleanType.Copy | src/typing/typing.ts:293-297 | a fresh instance with the receiver's list |
| Typing.NullType.View | src/typing/typing.ts:333-335 | the instance's `test` accepts only `null` |
| Typing.NullType.constructor | src/typing/typing.ts:506 | the `null` singleton has an empty list |
| Typing.NullType.Copy | src/typing/typing.ts:319-323 | a fresh instance with the receiver's list |
| Typing.UndefinedType.View | src/typing/typing.ts:357-359 | the instance's `test` accepts only `undefined` |
| Typing.UndefinedType.constructor | src/typing/typing.ts:508 | the `undefined` singleton has an empty list |
| Typing.UndefinedType.Copy | src/typing/typing.ts:343-347 | a fresh instance with the receiver's list |
| Typing.VoidType.View | src/typing/typing.ts:381-383 | the instance's `test` accepts only `undefined` |
| Typing.VoidType.constructor | src/typing/typing.ts:510 | the `void` singleton has an empty list |
| Typing.VoidType.Copy | src/typing/typing.ts:367-371 | a fresh instance with the receiver's list |
| Typing.AnyType.View | src/typing/typing.ts:418-420 | the instance's `test` is its `check` alone |
| Typing.AnyType.constructor | src/typing/typing.ts:512 | the `any` singleton has an empty list |
| Typing.AnyType.Copy | src/typing/typing.ts:391-395 | a fresh instance with the receiver's list |
| Typing.NeverType.View | src/typing/typing.ts:438-440 | the instance's `test` accepts nothing |
| Typing.NeverType.constructor | src/typing/typing.ts:514 | the `never` singleton has an empty list |
| Typing.NeverType.Copy | src/typing/typing.ts:428-432 | a fresh instance with the receiver's list |
| Typing.FunctionType.View | src/typing/typing.ts:465-467 | the instance's `test` accepts only functions whose arity is the number of parameter types |
| Typing.FunctionType.constructor | src/typing/typing.ts:444-450 | no parameter types, a fresh `void` return type, the no-op executor |
| Typing.FunctionType.Copy | src/typing/typing.ts:452-458 | a fresh instance with the three accessor fields; the constraint list is not copied |
| Typing.FunctionType.Args | src/typing/typing.ts:469-473 | replaces only `parameterTypes`; return type and executor carried over |
| Typing.FunctionType.Returns | src/typing/typing.ts:475-479 | replaces only `returnType`; parameter types and executor carried over |
| Typing.FunctionType.Execute | src/typing/typing.ts:492-494 | with no implementation, undefined; otherwise only what the wrapped function returned, after the return test ran without a throw |
| Typing.FunctionType.Implement | src/typing/typing.ts:481-490 | replaces only the executor, with one that tests against the receiver's parameter and return types |
| DescriptorLaws.SingletonTestIsKindTest | src/typing/typing.ts:498-516 | a descriptor with an empty list accepts exactly the values of its kind |
| DescriptorLaws.RefineTest | src/typing/typing.ts:50-62 | after any refinement, `test` accepts exactly what the original accepted and the new constraint holds on; so the refined one accepts no more |
| DescriptorLaws.RefineParse | src/typing/typing.ts:32-39 | whatever the refined descriptor parses, the original parses to the same value |
| DescriptorLaws.StringParseIsIdentity | src/typing/typing.ts:41-48 | `string.parse(s)` returns `s` exactly when `test(s)` holds, and throws otherwise |
| DescriptorLaws.ExactLength | src/typing/typing.ts:64-66 | `length(n)` adds exactly "the length is n" |
| DescriptorLaws.EndsWithDefaultOnlyEmpty | src/typing/typing.ts:87-91 | `endsWith(t)` with the default end position accepts only when `t` is empty |
| DescriptorLaws.NumberBounds | src/typing/typing.ts:127-153 | `ge`/`gt`/`le`/`lt(n)` add exactly `v >= n`, `v > n`, `v <= n`, `v < n` |
| DescriptorLaws.NumberMultipleOfAndInt | src/typing/typing.ts:179-190 | `multipleOf(b)` adds "v is an integer multiple of a non-zero b"; `int()` adds "v is an integer" |
| DescriptorLaws.BigIntBounds | src/typing/typing.ts:229-255 | the four bigint bounds add exactly `v >= n`, `v > n`, `v <= n`, `v < n` |
| DescriptorLaws.BigIntMultipleOf | src/typing/typing.ts:281-285 | `multipleOf(b)` adds divisibility for `b != 0`, and raises a RangeError for `b == 0` |
| DescriptorLaws.BooleanParse | src/typing/typing.ts:299-307 | "true" parses to true, "false" to false; other text throws "not a boolean" whatever the list |
| DescriptorLaws.EmptyTextKinds | src/typing/typing.ts:325-379 | null/undefined/void singletons parse "" to null/undefined/undefined and throw on any other text |
| DescriptorLaws.NeverAcceptsNothing | src/typing/typing.ts:434-440 | `never.test` is never true and `never.parse` always throws |
| DescriptorLaws.FunctionTest | src/typing/typing.ts:465-467 | a function type's `test` accepts exactly functions whose arity is the number of parameter types |
| DescriptorLaws.AnyParseClassifies | src/typing/typing.ts:397-416 | `any.parse` gives boolean, then null, then bigint, then number, then the text itself; never undefined; never the final throw |
| DescriptorLaws.AnyParsesIntegerTextAsBigInt | src/typing/typing.ts:402-411 | integer text parses to a bigint, not a number |
| DescriptorLaws.AnyParseKeywords | src/typing/typing.ts:397-416 | "true" parses to the boolean true and "" to null |
| DescriptorLaws.DecimalTextConverts | src/typing/typing.ts:114-120 | "3.14" is rejected by `BigInt` and converts to the number 3.14 |
| DescriptorLaws.AnyParseDecimal | src/typing/typing.ts:397-416 | "3.14" falls past the bigint parser and parses to the number 3.14 |
| DescriptorLaws.AnyParseText | src/typing/typing.ts:397-416 | "abc" converts to nothing else and stays the string "abc" |
| DescriptorLaws.TestTotalOnOwnKind | src/typing/typing.ts:46-48 | on a value of its own kind, `test` of a descriptor built by the API never throws (except bigint `multipleOf(0n)`) |
| DescriptorLaws.TestThrowsOnOtherKinds | src/typing/typing.ts:46-48 | because `check` runs first, `test` can throw on a value of another kind |
| ExecutorLaws.ExecuteIgnoresVerdicts | src/typing/typing.ts:484-487 | if no test throws, the checked executor returns `fn(args)` whatever the verdicts |
| ExecutorLaws.ExecuteOnOwnKinds | src/typing/typing.ts:481-494 | arguments and result of the declared kinds give exactly `fn(args)` |
| ExecutorLaws.ExecuteStopsAtThrowingArgument | src/typing/typing.ts:484 | the first parameter test that throws ends the call with that error, before `fn` runs |
| ExecutorLaws.ArgumentTestsFirstThrow | src/typing/typing.ts:484 | the `forEach` surfaces the error of the first throwing test |
| Scenarios.NumberBoundaries | src/typing/typing.ts:127-146 | `number.ge(5)` accepts 5, `number.gt(5)` rejects 5, `number.le(5)` rejects 6 |
| Scenarios.RefiningLeavesReceiver | src/typing/typing.ts:127-132 | building `number.ge(5)` leaves `number` accepting 4 |
| Scenarios.StringLength | src/typing/typing.ts:41-66 | `string.length(3)` parses "abc" to itself and rejects "ab" |
| Scenarios.CheckedAdd | src/typing/typing.ts:469-494 | `args(number, number).returns(number).implement(add)` executes (3, 5) to 8 and (3, "x") to "3x" |

## Left out

- Numbers are exact reals. NaN, the infinities and -0 are not modelled, and neither is
  double rounding. `isNaN` is the conversion returning nothing. `Number.isFinite` holds
  for every number. `%` on doubles is exact divisibility.
- `+text` is modelled on decimal text only: an optional sign, digits with an optional
  fraction, and "" as 0. `BigInt(text)` is modelled as an optional sign and digits, with
  "" as 0. Surrounding whitespace, exponents, `Infinity` and `0x`/`0o`/`0b` literals are
  not modelled, so text of those forms is treated as unconvertible.
- `RegExp` matching is an abstract pure predicate on the value (`pattern.test(String(v))`).
  A pattern with the `g` or `y` flag is assumed stateless, but its `test` advances
  `lastIndex`. With such a pattern, `test` is not a function of the value: the same
  value can be accepted, then rejected. Since `copy()` copies the list of closures but
  not the RegExp object they hold (typing.ts:37, 71), every descriptor refined from it
  shares that state, so testing one changes the next answer of another.
  `DescriptorLaws.RefineTest` and `StringParseIsIdentity` hold only for stateless patterns.
- Objects, arrays and symbols are not modelled as values; `test` accepts them in the
  source. The constraint closures behave differently on them: an array has its own
  `includes`, so `string.includes("a").test(["a"])` returns false instead of throwing,
  and a Symbol makes every numeric comparison throw a TypeError ("Cannot convert a
  Symbol value to a number"), which is not among the errors `Constraints.Eval` lists.
- Lengths, bounds and positions given as fractional numbers are not modelled; they are
  integers (string refinements) or reals (number bounds). Strings are sequences of Dafny
  characters, not UTF-16 code units.
- Descriptors referenced by a function type are kept as values (`Schema`), not shared
  object references. The executor built by `implement` captures the receiver's parameter
  and return types when `implement` runs. The source reads them through `this` when the
  executor runs, but nothing sets those fields on an existing instance afterwards.
- The wrapped function of `implement` is an abstract function from the argument list to
  a value or a thrown error. A function value is known only by its arity (`fn.length`).
- The rethrow in `safeParse` (typing.ts:13) is not modelled. Every error the core
  raises is an `Error`, so that branch cannot be taken.
- TypeScript generics, `accessor` typing and the `typeOf` helper type are not part of
  this model.
- The chat-type predicates (`src/typing/chat_type.ts`), the user mention type
  (`src/typing/mention.ts`), the command builder (`src/command/command.ts`), the bot
  entry point (`src/index.ts`), the zod example and the type-level tests are not part of
  this model. They either depend on classes that are not available or contain no logic
  of their own.
