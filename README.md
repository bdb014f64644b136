# Result API — a Dafny model

This project models the `Result<V, E>` type of the ResultAPI Java library: an immutable
value that is either `Ok(value)` or `Error(error)`, with its introspection (`isOk`,
`isError`), unwrapping (`unwrap`, `unwrapError`, `unwrapOr`, `expect`, `expectError`),
combinators (`and`, `andThen`, `or`, `orElse`, `map`, `mapOr`, `mapError`), conversions
(`toOptional`, `toErrorOptional`, `ofNullable`, `fromOptional`, `fromErrorOptional`,
`resolve`), structural `equals`, and the batch collectors `all` and `errors`.

Files and modules:

- `none.dfy` — `NoneValue`: the `None` marker as a one-value datatype.
- `exceptions.dfy` — `Exceptions`: the fields of `UnwrapException` and `ExpectException`,
  and `Outcome<T, X>` (`Returned(value)` or `Threw(exception)`), the result of a call that
  may throw.
- `optionals.dfy` — `Optionals`: `java.util.Optional` as `Optional<T>` (`Empty` or `Of`)
  and a possibly-null reference as `Nullable<T>`.
- `result.dfy` — `Results`: the `Result` datatype and its instance operations as member
  functions, the static factories, `Resolve`, `Equals`, and the methods `All` and `Errors`
  with the recursive functions `OkPayloads` and `ErrorPayloads` that specify them.
- `result_laws.dfy` — `ResultLaws`: lemmas relating the operations to one another
  (monad and functor laws, round trips, the collectors' partition, membership and order).
- `result_examples.dfy` — `ResultExamples`: the scenarios of `ResultTest.java` as lemmas.

Modelling decisions:

- The Java class keeps two nullable fields and a `caughtError` flag. Here `Result` is a
  two-constructor datatype, so exactly one payload exists by construction.
- Every value-producing combinator is defined, as in the Java, through `MatchResult` with
  lambdas. Its contract states what the result means: for example, the variant truth table
  of `And`/`Or`, or that `Map` keeps the error side.
- Calls that throw on misuse (`unwrap`, `unwrapError`, `expect`, `expectError`) are total
  functions returning an `Outcome`. The thrown value carries the call name and the variant
  name, or the caller's message and the other variant's payload.
- `resolve` takes what the supplier did as an `Outcome<V, X>` rather than running code.
  `X` stands for the thrown `Throwable`.
- `all` and `errors` take their varargs as a `seq` and return a fresh `seq`. They loop and
  append, as the Java does, and are proved equal to `OkPayloads`/`ErrorPayloads`.

## Model

| member | source | states |
|---|---|---|
| `NoneValue.NoneIsSingleton` | src/main/java/com/datasiqn/resultapi/None.java:6-16 | any two markers are the same value, the canonical `NONE` |
| `Results.Result.IsError` | src/main/java/com/datasiqn/resultapi/Result.java:86-88 | true exactly for the `Error` variant |
| `Results.Result.IsOk` | src/main/java/com/datasiqn/resultapi/Result.java:78-80 | true exactly for the `Ok` variant, and always the opposite of `IsError` |
| `Results.Result.MatchResult` | src/main/java/com/datasiqn/resultapi/Result.java:69-72 | applies the ok function to the value on `Ok` and the error function to the error on `Error` |
| `Results.Result.Expect` | src/main/java/com/datasiqn/resultapi/Result.java:107-110 | returns exactly on `Ok`, and re-wrapping the returned value gives this result; on `Error` it raises carrying the message and the error payload |
| `Results.Result.ExpectError` | src/main/java/com/datasiqn/resultapi/Result.java:129-132 | mirror of `Expect`: returns exactly on `Error`, raises with the message and the ok payload on `Ok` |
| `Results.Result.Unwrap` | src/main/java/com/datasiqn/resultapi/Result.java:139-142 | returns exactly on `Ok` and re-wrapping gives this result; on `Error` raises `UnwrapException("unwrap", "err")` |
| `Results.Result.UnwrapOr` | src/main/java/com/datasiqn/resultapi/Result.java:149-151 | on `Ok` equals what `Unwrap` returns; on `Error` is the default; never raises |
| `Results.Result.UnwrapError` | src/main/java/com/datasiqn/resultapi/Result.java:158-161 | returns exactly on `Error` and re-wrapping gives this result; on `Ok` raises `UnwrapException("unwrapError", "ok")` |
| `Results.Result.And` | src/main/java/com/datasiqn/resultapi/Result.java:196-198 | `Ok` iff both are `Ok`; on `Ok` it is `other`; on `Error` it keeps this error payload |
| `Results.Result.AndThen` | src/main/java/com/datasiqn/resultapi/Result.java:216-218 | on `Ok` it is `f(value)`; on `Error` it keeps this error payload and ignores `f` |
| `Results.Result.Or` | src/main/java/com/datasiqn/resultapi/Result.java:237-239 | `Error` iff both are `Error`; on `Ok` it keeps this ok payload; on `Error` it is `other` |
| `Results.Result.OrElse` | src/main/java/com/datasiqn/resultapi/Result.java:258-260 | on `Ok` it keeps this ok payload and ignores `f`; on `Error` it is `f(error)` |
| `Results.Result.Map` | src/main/java/com/datasiqn/resultapi/Result.java:280-282 | keeps the variant and the error side; an ok payload becomes `mapper(value)` |
| `Results.Result.MapOr` | src/main/java/com/datasiqn/resultapi/Result.java:303-305 | `mapper(value)` on `Ok`, the default on `Error` |
| `Results.Result.MapError` | src/main/java/com/datasiqn/resultapi/Result.java:326-328 | keeps the variant and the ok side; an error payload becomes `mapper(error)` |
| `Results.Result.ToOptional` | src/main/java/com/datasiqn/resultapi/Result.java:348-351 | present exactly on `Ok`, and the present value re-wrapped as `Ok` is this result |
| `Results.Result.ToErrorOptional` | src/main/java/com/datasiqn/resultapi/Result.java:369-372 | present exactly on `Error`, and the present value re-wrapped as `Error` is this result |
| `Results.Equals` | src/main/java/com/datasiqn/resultapi/Result.java:380-389 | the flag-then-payload comparison holds exactly when the two results are the same value, so different variants are never equal |
| `Results.OkNone` | src/main/java/com/datasiqn/resultapi/Result.java:396-398 | an `Ok` that unwraps to the marker |
| `Results.ErrorNone` | src/main/java/com/datasiqn/resultapi/Result.java:417-419 | an `Error` whose error unwraps to the marker |
| `Results.OfNullable` | src/main/java/com/datasiqn/resultapi/Result.java:441-444 | `Ok` iff the reference is non-null; then it unwraps to the reference, otherwise its error unwraps to the given error |
| `Results.FromOptional` | src/main/java/com/datasiqn/resultapi/Result.java:454-456 | `Ok` iff the optional is present, and `ToOptional` of the result is the optional again |
| `Results.FromErrorOptional` | src/main/java/com/datasiqn/resultapi/Result.java:466-468 | `Error` iff the optional is present, and `ToErrorOptional` of the result is the optional again |
| `Results.Resolve` | src/main/java/com/datasiqn/resultapi/Result.java:479-485 | `Ok` of the returned value iff the supplier returned; otherwise `Error` of the mapper applied to what was thrown |
| `Results.ResolveNone` | src/main/java/com/datasiqn/resultapi/Result.java:493-499 | `Ok` of the returned value iff the supplier returned; otherwise an `Error` |
| `Results.OkPayloads` | src/main/java/com/datasiqn/resultapi/Result.java:501-513 | the specification of `all`: no longer than the input, and every element is the payload of an `Ok` in the input |
| `Results.ErrorPayloads` | src/main/java/com/datasiqn/resultapi/Result.java:522-534 | the specification of `errors`: no longer than the input, and every element is the payload of an `Error` in the input |
| `Results.OkPayloadsAppend` | src/main/java/com/datasiqn/resultapi/Result.java:517-519 | collecting `Ok` payloads distributes over concatenation, so each step of the loop appends |
| `Results.ErrorPayloadsAppend` | src/main/java/com/datasiqn/resultapi/Result.java:538-543 | collecting `Error` payloads distributes over concatenation, so each step of the loop appends |
| `Results.All` | src/main/java/com/datasiqn/resultapi/Result.java:516-520 | the loop returns exactly `OkPayloads(results)` |
| `Results.Errors` | src/main/java/com/datasiqn/resultapi/Result.java:537-544 | the loop, skipping `Ok` entries and unwrapping the others, returns exactly `ErrorPayloads(results)` |
| `ResultLaws.EqualsByVariantAndPayload` | src/main/java/com/datasiqn/resultapi/Result.java:386-388 | `Ok(x)` never equals `Error(x)`; same-variant results are equal iff their payloads are |
| `ResultLaws.UnwrapOrViaOptional` | src/main/java/com/datasiqn/resultapi/Result.java:149-151 | `unwrapOr(d)` is `toOptional().orElse(d)` |
| `ResultLaws.MapOrIsMapThenUnwrapOr` | src/main/java/com/datasiqn/resultapi/Result.java:303-305 | `mapOr(f, d)` is `map(f).unwrapOr(d)` |
| `ResultLaws.AndIsAndThenConstant` | src/main/java/com/datasiqn/resultapi/Result.java:196-218 | `and(other)` is `andThen` of the constant function giving `other` |
| `ResultLaws.OrIsOrElseConstant` | src/main/java/com/datasiqn/resultapi/Result.java:237-260 | `or(other)` is `orElse` of the constant function giving `other` |
| `ResultLaws.AndThenIdentities` | src/main/java/com/datasiqn/resultapi/Result.java:216-218 | `ok(v).andThen(f)` is `f(v)`, and `andThen(Result::ok)` changes nothing |
| `ResultLaws.AndThenAssociative` | src/main/java/com/datasiqn/resultapi/Result.java:216-218 | two chained `andThen` calls equal one `andThen` of the composed chain |
| `ResultLaws.OrElseIdentities` | src/main/java/com/datasiqn/resultapi/Result.java:258-260 | `error(e).orElse(f)` is `f(e)`, and `orElse(Result::error)` changes nothing |
| `ResultLaws.MapFunctor` | src/main/java/com/datasiqn/resultapi/Result.java:280-282 | mapping the identity changes nothing; two maps equal one map of the composition |
| `ResultLaws.MapErrorFunctor` | src/main/java/com/datasiqn/resultapi/Result.java:326-328 | the same two laws for `mapError` |
| `ResultLaws.MapCommutesWithMapError` | src/main/java/com/datasiqn/resultapi/Result.java:280-328 | `map` then `mapError` equals `mapError` then `map` |
| `ResultLaws.OptionalRoundTrips` | src/main/java/com/datasiqn/resultapi/Result.java:348-372 | `fromOptional`/`toOptional` and `fromErrorOptional`/`toErrorOptional` are mutually inverse when the absent side is the marker |
| `ResultLaws.ResolveNoneIsResolveToMarker` | src/main/java/com/datasiqn/resultapi/Result.java:493-499 | resolving without a mapper equals resolving with the mapper that always gives `NONE` |
| `ResultLaws.ResolveThenMapError` | src/main/java/com/datasiqn/resultapi/Result.java:479-485 | resolving with a mapper equals resolving to the thrown value and then `mapError` |
| `ResultLaws.PayloadsPartition` | src/main/java/com/datasiqn/resultapi/Result.java:516-544 | the lengths of `all` and `errors` on the same input add up to the input length |
| `ResultLaws.OkPayloadsMembership` | src/main/java/com/datasiqn/resultapi/Result.java:501-520 | a value is in `all`'s output iff an `Ok` of it is in the input |
| `ResultLaws.ErrorPayloadsMembership` | src/main/java/com/datasiqn/resultapi/Result.java:522-544 | a value is in `errors`' output iff an `Error` of it is in the input |
| `ResultLaws.OkPayloadsEmpty` | src/main/java/com/datasiqn/resultapi/Result.java:516-520 | `all` yields nothing iff every input is an `Error`, the empty input included |
| `ResultLaws.ErrorPayloadsEmpty` | src/main/java/com/datasiqn/resultapi/Result.java:537-544 | `errors` yields nothing iff every input is an `Ok`, the empty input included |
| `ResultLaws.OkPayloadsPlacement` | src/main/java/com/datasiqn/resultapi/Result.java:516-520 | the `Ok` at input position i appears in `all`'s output at the index given by the number of `Ok` inputs before i |
| `ResultLaws.ErrorPayloadsPlacement` | src/main/java/com/datasiqn/resultapi/Result.java:537-544 | the `Error` at input position i appears in `errors`' output at the index given by the number of `Error` inputs before i |
| `ResultLaws.OkPayloadsKeepOrder` | src/main/java/com/datasiqn/resultapi/Result.java:516-520 | an earlier `Ok` input is placed before a later one |
| `ResultLaws.ErrorPayloadsKeepOrder` | src/main/java/com/datasiqn/resultapi/Result.java:537-544 | an earlier `Error` input is placed before a later one |
| `ResultExamples.ConstructionVariants` | src/test/java/ResultTest.java:14-37 | the factories give the variants the tests expect |
| `ResultExamples.CollectorScenarios` | src/test/java/ResultTest.java:41-51 | the collectors return the payloads the tests count |
| `ResultExamples.UnwrapScenarios` | src/test/java/ResultTest.java:55-98 | `expect`, `unwrap` and `unwrapOr` return or raise as the tests expect |
| `ResultExamples.ChainingScenarios` | src/test/java/ResultTest.java:112-169 | the variant combinations of `and`, `andThen`, `or` and `orElse` from the tests |
| `ResultExamples.MappingScenarios` | src/test/java/ResultTest.java:172-214 | `map`, `mapOr` and `mapError` on the tests' inputs |
| `ResultExamples.OptionalScenarios` | src/test/java/ResultTest.java:217-225 | `toOptional` and `toErrorOptional` on the tests' inputs |

## Left out

- `match`, `ifOk`, `ifError` (Result.java:46-49, 167-177): they only run caller-supplied consumers for their side effects. `MatchResult` is the pure case split they are built on.
- `toString` (Result.java:375-377): it depends on the payloads' own string forms.
- Java `null`: the variant is derived from `error != null`, so `error(null)` would yield an `Ok`, and `equals` would fail on a null payload. The model treats every `@NotNull` argument as non-null. Only `ofNullable` sees a possibly-null reference, as `Nullable`.
- `Results.Equals`: the identity shortcut (`this == o`) and the class check are not modelled. Both sides have the same static type here, and identity implies value equality.
- `Results.Resolve` and `Results.ResolveNone`: the supplier is given as what it did (returned or threw). Actually running code, catching every `Throwable`, and calling the supplier and mapper once each are not modelled.
- The `None` singleton guard (None.java:10-16): process-wide mutable state. `None` is a one-value datatype, so a second marker cannot exist. Also, `instantiated` is initialised after `NONE` is built, so the flag is reset to `false` once the class is loaded.
- The exception messages: `UnwrapException` formats its fields into text (UnwrapException.java:12). `ExpectException` is not part of this model beyond its two fields, the message and the payload.
- `unwrapOrThrow` (exercised by ResultTest.java:83-91): it is not in the Result.java modelled here.
- `All` and `Errors` return a `seq` rather than a `java.util.Collection`. Their varargs array is a `seq`.
