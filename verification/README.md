# RAPI `Option` in Dafny

A model of the `Option<T>` type of the RAPI library (`fr.songbird.rapi`): the
two variants `Some` (holds one non-null value) and `None`, their combinator
protocol (`expect`, `unwrap`, `unwrapOr`, `unwrapOrElse`, `map`, `mapOr`,
`mapOrElse`, `and`, `andThen`, `or`, `orElse`, content `equals`), and the three
combinators that replace an option in place through a `ReferenceHandler`
(`getOrInsert`, `getOrInsertWith`, `take`).

How Java is represented:

- `Option<T>` is the datatype `Options.Option<T> = Some(value) | None`. Each
  Java method becomes a function taking the receiver as its first argument
  and dispatching on the tag; the `Some` branch follows `Some.java` and the
  `None` branch `None.java`, check for check.
- A Java reference the code null-checks is an `Outcomes.Nullable<X>`
  (`Null | NonNull(x)`): messages, default values, option arguments, functions,
  suppliers and the values they return.
- A thrown exception is `Outcomes.Outcome.Fail(kind, msg)`. The kind says what
  caused it: `NullArgument` (`Objects.requireNonNull`), `NullDereference` (a
  method called on a null reference), `IllegalArgument` (the copy constructor)
  and `UnwrapFailure` (the `RuntimeException` of `expect`/`unwrap`). The
  messages are the Java code's own strings, including where the two variants word
  them differently (`"opt cannot be null"` versus `"opt cannot be null."`,
  `"defaultActionResult cannot be null."` versus `"result cannot be null."`).
- User functions and suppliers are pure Dafny functions returning `Nullable`.
- `ReferenceHandler<V>` is a class with one `Nullable<V>` field
  (`references.dfy`). Each slot combinator exists twice (`slots.dfy`): as a
  pure step from the receiver and the handler's content to the returned value
  and the handler's new content, and as a method on a real handler that is
  proved to make exactly that step and to leave the handler alone when it
  throws.
- `Chains` models call chains `o.andThen(f1).andThen(f2)…`, where a null
  returned by one step makes the next call throw.

Behaviours of the code that are easy to miss, kept as written:

- `andThen` and `None.orElse` do not null-check the function's result, so
  `AndThen` and `OrElse` may return `NonNull` or `Null`.
- `ReferenceHandler` stores any value, null included.
- `Some.getOrInsert` returns its argument, not the contained value.
- `Some.take` unwraps whatever the handler holds, not the receiver.
- `Some.unwrapOrElse`, `Some.mapOrElse` and `Some.getOrInsertWith` call the
  default supplier and fail if it returns null, although they do not use the
  result.
- Null arguments raise a null-pointer exception (`NullArgument`), not an
  illegal-argument exception.

## Model

| member | source | states |
|---|---|---|
| Outcomes.RequireNonNull | src/main/java/fr/songbird/rapi/option/Some.java:35-37 | `Objects.requireNonNull(x, message)` returns `x` exactly when it is non-null, and otherwise throws a null-argument exception carrying exactly `message` |
| Options.NewSome | src/main/java/fr/songbird/rapi/option/Some.java:35-38 | construction fails with "value cannot be null." exactly when the value is null; otherwise the result is a `Some` from which `unwrap` gives back the value |
| Options.CopyOf | src/main/java/fr/songbird/rapi/option/Some.java:54-62 | copying succeeds exactly on a `Some`, gives the same option (equal contents, equal `unwrap`); copying `None` throws `IllegalArgument` with "`option` is none. It does not contain value to copy."; copying a null reference throws |
| Options.IsSome | src/main/java/fr/songbird/rapi/option/Option.java:22-25 | `isSome` holds exactly for `Some` (true in Some.java:64-67, false in None.java:33-36) |
| Options.IsNone | src/main/java/fr/songbird/rapi/option/Option.java:27-30 | `isNone` is the negation of `isSome`, and holds exactly for `None` |
| Options.Equals | src/main/java/fr/songbird/rapi/option/Some.java:183-191 | content equality (with None.java:172-181) holds exactly when the other reference is non-null and is the same option: both `None`, or both `Some` with equal values |
| Options.Expect | src/main/java/fr/songbird/rapi/option/Option.java:33-41 | a null message fails on both variants; otherwise `Some` gives what `unwrap` gives and `None` throws `UnwrapFailure` carrying exactly the caller's message |
| Options.Unwrap | src/main/java/fr/songbird/rapi/option/Option.java:43-48 | succeeds exactly on `Some`, and the option is `Some` of the returned value; on `None` throws the fixed message naming `fr.songbird.rapi.option.Option.unwrap()` |
| Options.UnwrapOr | src/main/java/fr/songbird/rapi/option/Option.java:50-55 | a null default fails on both variants; otherwise `Some` gives its `unwrap` and `None` the default |
| Options.UnwrapOrElse | src/main/java/fr/songbird/rapi/option/Some.java:91-96 | with None.java:61-67: a null supplier fails; the supplier is called on both variants and a null result fails on both; otherwise the outcome is `unwrapOr` of the supplied value |
| Options.Map | src/main/java/fr/songbird/rapi/option/Some.java:98-104 | a null function fails; `None` maps to `None` whatever the function (None.java:69-73); `Some(v)` maps to `Some(f(v))`, failing when `f(v)` is null; a success keeps the tag |
| Options.MapOr | src/main/java/fr/songbird/rapi/option/Some.java:106-113 | the default is checked before the function on both variants; `None` gives the default without applying the function (None.java:75-80); `Some(v)` gives `f(v)`, failing when it is null |
| Options.MapOrElse | src/main/java/fr/songbird/rapi/option/Some.java:115-125 | both functions are null-checked on both variants, the default action is always called and a null result fails with the variant's own message (None.java:82-90); `None` gives the default result, `Some(v)` gives `f(v)`, failing when it is null |
| Options.And | src/main/java/fr/songbird/rapi/option/Some.java:127-131 | a null argument fails with each variant's own message; `Some` returns the argument unchanged and `None` returns `None` (None.java:92-96) |
| Options.AndThen | src/main/java/fr/songbird/rapi/option/Some.java:133-137 | a null function fails; otherwise the call always succeeds, `Some(v)` returning `f(v)` as is (null included) and `None` returning `None` (None.java:98-102) |
| Options.Or | src/main/java/fr/songbird/rapi/option/Some.java:139-143 | a null argument fails on both variants; `Some` returns itself, `None` returns the argument (None.java:104-107) |
| Options.OrElse | src/main/java/fr/songbird/rapi/option/None.java:109-113 | a null supplier fails; `Some` returns itself without calling the supplier (Some.java:145-149); `None` returns what the supplier gives, null included |
| References.ReferenceHandler.constructor | src/main/java/fr/songbird/rapi/ref/ReferenceHandler.java:10-12 | the new handler holds the initial value verbatim, null included |
| References.ReferenceHandler.Set | src/main/java/fr/songbird/rapi/ref/ReferenceHandler.java:14-16 | after `set(x)` the handler holds `x`, null included; only this handler may change |
| References.ReferenceHandler.Get | src/main/java/fr/songbird/rapi/ref/ReferenceHandler.java:18-20 | returns the current content and, having no `modifies` clause, changes nothing |
| References.SetThenGet | src/main/java/fr/songbird/rapi/ref/ReferenceHandler.java:14-20 | after `set(x)`, `get()` returns `x`, null included, and only the handler's field changes |
| Slots.GetOrInsert | src/main/java/fr/songbird/rapi/option/Some.java:151-156 | a null handler, then a null value, fail; otherwise both variants return the argument; `None` leaves `Some(value)` in the handler (None.java:115-121), `Some` leaves the handler's content as it was |
| Slots.GetOrInsertWith | src/main/java/fr/songbird/rapi/option/Some.java:158-164 | a null handler, a null supplier, then a null supplied value fail on both variants; `Some` returns its own value and leaves the handler alone; `None` behaves as `getOrInsert` of the supplied value (None.java:131-139) |
| Slots.Take | src/main/java/fr/songbird/rapi/option/Some.java:166-172 | a null handler fails; `None` returns itself and leaves the handler alone (None.java:151-155); `Some` unwraps the handler's content (throwing if it is null or `None`), then returns `Some` of it and leaves `None` behind |
| Slots.GetOrInsertInto | src/main/java/fr/songbird/rapi/option/None.java:115-121 | on a real handler, the call returns what the pure step returns and the handler ends up with the step's content; on an exception the handler is unchanged |
| Slots.GetOrInsertWithInto | src/main/java/fr/songbird/rapi/option/None.java:131-139 | the same correspondence for `getOrInsertWith` |
| Slots.TakeFrom | src/main/java/fr/songbird/rapi/option/Some.java:166-172 | the same correspondence for `take` |
| Slots.TakeEmptiesOwnSlot | src/main/java/fr/songbird/rapi/option/None.java:151-155 | when the handler holds the receiver, `take` returns the receiver and leaves `None`, for both variants |
| Slots.TakeTwiceTakesNothing | src/test/java/fr/songbird/rapi/OptionTest.java:207-215 | taking again from the emptied handler returns `None` and leaves it `None` |
| Slots.InsertThenTake | src/test/java/fr/songbird/rapi/OptionTest.java:191-211 | inserting `v` into an empty handler then taking it gives back `Some(v)` and empties the handler |
| Slots.GetOrInsertOwnSlot | src/main/java/fr/songbird/rapi/option/Some.java:151-156 | on its own handler `getOrInsert(v)` always returns `v` and leaves a `Some` behind, but a `Some` receiver keeps its own content, so whenever `v` differs from the contained value the returned value is not what the handler holds |
| Slots.GetOrInsertWithConstant | src/main/java/fr/songbird/rapi/option/Some.java:158-164 | with a supplier of `v`, `getOrInsertWith` agrees with `getOrInsert(v)` on `None` but returns the contained value on `Some` |
| OptionLaws.ExactlyOneTag | src/main/java/fr/songbird/rapi/option/Option.java:22-30 | exactly one of `isSome`/`isNone` holds, and `isSome` holds exactly when some value is contained |
| OptionLaws.ExpectIsUnwrapWithMessage | src/main/java/fr/songbird/rapi/option/Option.java:33-48 | with a non-null message, `expect` and `unwrap` succeed on the same options with the same value and fail with the same kind, `expect` carrying the caller's message |
| OptionLaws.ExpectNullMessage | src/main/java/fr/songbird/rapi/option/Option.java:38-41 | a null message fails identically on both variants |
| OptionLaws.UnwrapOrIsTotal | src/main/java/fr/songbird/rapi/option/Option.java:50-55 | with a non-null default, `unwrapOr` never fails and returns the contained value or the default |
| OptionLaws.UnwrapOrElseOfConstant | src/main/java/fr/songbird/rapi/option/None.java:61-67 | `unwrapOrElse` with a constant supplier is `unwrapOr` of that constant |
| OptionLaws.UnwrapThenRewrap | src/main/java/fr/songbird/rapi/option/Some.java:80-83 | `Some(o.unwrap())` rebuilds `o` whenever `unwrap` succeeds, and `unwrap` fails only on `None` |
| OptionLaws.CopyRoundTrip | src/test/java/fr/songbird/rapi/OptionTest.java:218-227 | copying a `Some` gives an equal option; copying `None` always throws `IllegalArgument` |
| OptionLaws.EqualsIsEquivalence | src/main/java/fr/songbird/rapi/option/None.java:172-181 | content equality is reflexive, symmetric and transitive, and never holds against null |
| OptionLaws.MapIdentity | src/main/java/fr/songbird/rapi/option/Some.java:98-104 | mapping the identity function gives the option back |
| OptionLaws.MapComposition | src/main/java/fr/songbird/rapi/option/Some.java:98-104 | mapping `f` then `g` is mapping their composition, for functions that never return null |
| OptionLaws.MapThenUnwrap | src/test/java/fr/songbird/rapi/OptionTest.java:98-110 | `map(f).unwrap()` is `f` of the contained value, and throws the unwrap error on `None` |
| OptionLaws.MapOrIsUnwrapOrOfMap | src/main/java/fr/songbird/rapi/option/None.java:75-80 | `mapOr(d, f)` equals `map(f).unwrapOr(d)` for a function that never returns null |
| OptionLaws.MapOrElseOfConstant | src/main/java/fr/songbird/rapi/option/Some.java:106-125 | for every function reference, null included, `mapOrElse` with a constant default supplier succeeds exactly when `mapOr` with that default does, with the same value, and otherwise fails with the same kind of exception (None.java:75-90 likewise) |
| OptionLaws.AndIsAndThenOfConstant | src/main/java/fr/songbird/rapi/option/None.java:92-102 | `and(p)` is `andThen` of the function that ignores its argument and returns `p` |
| OptionLaws.AndThenLeftIdentity | src/main/java/fr/songbird/rapi/option/Some.java:133-137 | `Some(v).andThen(f)` is `f(v)`, null or not |
| OptionLaws.AndThenRightIdentity | src/main/java/fr/songbird/rapi/option/Some.java:133-137 | `andThen` with `Some`'s constructor gives the option back |
| OptionLaws.AndThenAssociative | src/test/java/fr/songbird/rapi/OptionTest.java:153-163 | `o.andThen(f).andThen(g)` equals `o.andThen(x -> f(x).andThen(g))` for functions that never return null |
| OptionLaws.OrElseOfConstant | src/main/java/fr/songbird/rapi/option/None.java:104-113 | `orElse` with a constant supplier is `or` of that constant |
| OptionLaws.OrPrefersReceiver | src/test/java/fr/songbird/rapi/OptionTest.java:166-178 | `a.or(b)` is `Some` exactly when one of them is, and is `a` when `a` is `Some` |
| OptionLaws.OrAssociative | src/main/java/fr/songbird/rapi/option/Some.java:139-143 | `(a.or(b)).or(c)` equals `a.or(b.or(c))` |
| Chains.Then | src/main/java/fr/songbird/rapi/option/Some.java:133-137 | one `.andThen(f)` on a chain's current result: an exception already raised is kept, a null current result makes the call throw a null dereference, and a non-null option behaves as `andThen` on it |
| Chains.Run | src/test/java/fr/songbird/rapi/OptionTest.java:153-163 | an `andThen` chain keeps an exception it has already raised, and a chain at `None` stays `None` through any non-null functions |
| Chains.RunAppend | src/test/java/fr/songbird/rapi/OptionTest.java:158-162 | running a chain `fs + gs` is running `gs` on the result of `fs` |
| Chains.NoneIsAbsorbing | src/test/java/fr/songbird/rapi/OptionTest.java:159-160 | a chain that reaches `None` ends in `None`, whatever non-null functions follow |
| Chains.ChainFromNone | src/test/java/fr/songbird/rapi/OptionTest.java:161 | a chain started from `None` ends in `None` |
| Chains.AlwaysSomeStaysSome | src/main/java/fr/songbird/rapi/option/Some.java:133-137 | a chain whose functions all return `Some` never becomes `None` and never throws |
| Scenarios.ExtractionExamples | src/test/java/fr/songbird/rapi/OptionTest.java:59-86 | `expect`, `unwrap` and `unwrapOr` on `Some(117)` and `None` give the values and messages the tests expect |
| Scenarios.UnwrapOrElseExamples | src/test/java/fr/songbird/rapi/OptionTest.java:88-95 | `unwrapOrElse(() -> 2 * 2)` gives 117 on `Some(117)` and 4 on `None` |
| Scenarios.TransformationExamples | src/test/java/fr/songbird/rapi/OptionTest.java:97-130 | `map(String::length)`, `mapOr` and `mapOrElse` give the strings and lengths the tests expect |
| Scenarios.CombinatorExamples | src/test/java/fr/songbird/rapi/OptionTest.java:142-188 | the `and`, `or` and `orElse` examples give the expected options |
| Scenarios.AndThenChainExamples | src/test/java/fr/songbird/rapi/OptionTest.java:153-163 | squaring `Some(2)` twice gives `Some(16)`; chains through a `None` step or from `None` give `None`; the payload type may change |
| Scenarios.DoubleOrSixtyEightPlusTen | src/test/java/fr/songbird/rapi/OptionTest.java:229-247 | `map(x*2).or(Some(68)).map(x+10).unwrap()` gives `2x + 10` from `Some(x)` and 78 from `None` |
| Scenarios.UseCases | src/test/java/fr/songbird/rapi/OptionTest.java:229-247 | the chain gives 94 from `Some(42)` and 78 from `None` |
| Scenarios.CopyExamples | src/test/java/fr/songbird/rapi/OptionTest.java:217-227 | copying `Some("foo")` gives an equal option and copying `None` throws the copy error |
| Scenarios.GetOrInsertExample | src/test/java/fr/songbird/rapi/OptionTest.java:190-196 | on a handler holding `None`, `getOrInsert("foo")` returns "foo" and leaves `Some("foo")` |
| Scenarios.GetOrInsertWithExample | src/test/java/fr/songbird/rapi/OptionTest.java:198-204 | the same with the supplier `() -> "foo"` |
| Scenarios.TakeExample | src/test/java/fr/songbird/rapi/OptionTest.java:206-215 | `take` on a handler holding `Some(117)` returns `Some(117)` and leaves `None`; on a handler holding `None` returns `None` and leaves `None` |

## Left out

- `Result`, `Ok` and `Err`: a stub with tag predicates and non-null constructors only; it has no behaviour to model.
- The `AtomicReference` overloads of `getOrInsert`, `getOrInsertWith` and `take` in `None`: duplicates of the `ReferenceHandler` overloads for concurrent use, with no `Some` counterpart.
- Object identity and shallow-copy aliasing: datatypes have value semantics, so only value equality is modelled.
- The JVM exception classes: an error kind and the message stand in for them. The message of a null-pointer exception raised by the JVM itself (`NullDereference`) is not modelled and is left empty.
- `hashCode`, and `equals` against objects that are not options (it returns false).
- Side effects and exceptions inside user-supplied functions and suppliers: they are pure, total functions.
- Payload equality: `Objects.equals` on the contained values is taken to be value equality.
- Scenarios.DoubleOrSixtyEightPlusTen: uses unbounded integers, so it does not model the 32-bit wrap-around of `x * 2` and `x + 10` for large `x`; the tests use only 42 and 68.
- Chains: a chain is over one payload type; chains that change type are shown only step by step.
