/** Properties that relate several Result operations to one another. */
module ResultLaws {
  import opened NoneValue
  import opened Exceptions
  import opened Optionals
  import opened Results

  // ---- introspection and equality ----

  /** Results in different variants are never equal, even with equal payloads;
      equal variants are equal exactly when their payloads are. */
  lemma EqualsByVariantAndPayload<T>(x: T, y: T)
    ensures !Equals(Result<T, T>.Ok(x), Result<T, T>.Error(x))
    ensures Equals(Result<T, T>.Ok(x), Result<T, T>.Ok(y)) <==> x == y
    ensures Equals(Result<T, T>.Error(x), Result<T, T>.Error(y)) <==> x == y
  {
  }

  // ---- unwrapping ----

  /** UnwrapOr agrees with converting to an optional and taking its value or the default. */
  lemma UnwrapOrViaOptional<V, E>(r: Result<V, E>, d: V)
    ensures r.UnwrapOr(d) == r.ToOptional().OrElse(d)
  {
  }

  /** MapOr is Map followed by UnwrapOr. */
  lemma MapOrIsMapThenUnwrapOr<V, E, N>(r: Result<V, E>, f: V -> N, d: N)
    ensures r.MapOr(f, d) == r.Map(f).UnwrapOr(d)
  {
  }

  // ---- chaining ----

  /** And is AndThen with a function that ignores its argument. */
  lemma AndIsAndThenConstant<V, E, N>(r: Result<V, E>, other: Result<N, E>)
    ensures r.And(other) == r.AndThen(_ => other)
  {
  }

  /** Or is OrElse with a function that ignores its argument. */
  lemma OrIsOrElseConstant<V, E, N>(r: Result<V, E>, other: Result<V, N>)
    ensures r.Or(other) == r.OrElse(_ => other)
  {
  }

  /** AndThen on a fresh `Ok` is plain application, and wrapping in `Ok` is its unit. */
  lemma AndThenIdentities<V, E, N>(v: V, f: V -> Result<N, E>, r: Result<V, E>)
    ensures Result<V, E>.Ok(v).AndThen(f) == f(v)
    ensures r.AndThen(x => Ok(x)) == r
  {
  }

  /** Chains of AndThen may be regrouped. */
  lemma AndThenAssociative<V, E, N, M>(r: Result<V, E>, f: V -> Result<N, E>, g: N -> Result<M, E>)
    ensures r.AndThen(f).AndThen(g) == r.AndThen(x => f(x).AndThen(g))
  {
  }

  /** OrElse on a fresh `Error` is plain application, and wrapping in `Error` is its unit. */
  lemma OrElseIdentities<V, E, N>(e: E, f: E -> Result<V, N>, r: Result<V, E>)
    ensures Result<V, E>.Error(e).OrElse(f) == f(e)
    ensures r.OrElse(x => Error(x)) == r
  {
  }

  // ---- single-side transforms ----

  /** Map with the identity changes nothing, and two maps compose into one. */
  lemma MapFunctor<V, E, N, M>(r: Result<V, E>, f: V -> N, g: N -> M)
    ensures r.Map(x => x) == r
    ensures r.Map(f).Map(g) == r.Map(x => g(f(x)))
  {
  }

  /** MapError with the identity changes nothing, and two error maps compose into one. */
  lemma MapErrorFunctor<V, E, N, M>(r: Result<V, E>, f: E -> N, g: N -> M)
    ensures r.MapError(x => x) == r
    ensures r.MapError(f).MapError(g) == r.MapError(x => g(f(x)))
  {
  }

  /** Mapping one side commutes with mapping the other. */
  lemma MapCommutesWithMapError<V, E, N, M>(r: Result<V, E>, f: V -> N, g: E -> M)
    ensures r.Map(f).MapError(g) == r.MapError(g).Map(f)
  {
  }

  // ---- conversions ----

  /** With the marker as the absent side, optionals and results are inverse conversions. */
  lemma OptionalRoundTrips<V, E>(o: Optional<V>, r: Result<V, None>, p: Optional<E>, s: Result<None, E>)
    ensures FromOptional(o).ToOptional() == o
    ensures FromOptional(r.ToOptional()) == r
    ensures FromErrorOptional(p).ToErrorOptional() == p
    ensures FromErrorOptional(s.ToErrorOptional()) == s
  {
    // the absent side can only be the marker
    if r.IsError() {
      NoneIsSingleton(r.error, NONE);
    }
    if s.IsOk() {
      NoneIsSingleton(s.value, NONE);
    }
  }

  /** Resolving without a mapper is resolving with the mapper that always gives the marker. */
  lemma ResolveNoneIsResolveToMarker<V, X>(supplied: Outcome<V, X>)
    ensures ResolveNone(supplied) == Resolve(supplied, (_: X) => NONE)
  {
  }

  /** Resolving with a mapper is resolving to the raw thrown value, then mapping the error. */
  lemma ResolveThenMapError<V, E, X>(supplied: Outcome<V, X>, errorMapper: X -> E)
    ensures Resolve(supplied, errorMapper) == Resolve(supplied, (t: X) => t).MapError(errorMapper)
  {
  }

  // ---- collectors ----

  /** Every result is either collected by All or by Errors, never both. */
  lemma {:induction false} PayloadsPartition<V, E>(results: seq<Result<V, E>>)
    ensures |OkPayloads(results)| + |ErrorPayloads(results)| == |results|
  {
    if results != [] {
      PayloadsPartition(results[1..]);
    }
  }

  /** A value is collected by All exactly when an `Ok` of it is among the inputs. */
  lemma {:induction false} OkPayloadsMembership<V, E>(results: seq<Result<V, E>>, v: V)
    ensures v in OkPayloads(results) <==> Ok(v) in results
  {
    if results != [] {
      OkPayloadsMembership(results[1..], v);
      assert results == [results[0]] + results[1..];
    }
  }

  /** A value is collected by Errors exactly when an `Error` of it is among the inputs. */
  lemma {:induction false} ErrorPayloadsMembership<V, E>(results: seq<Result<V, E>>, e: E)
    ensures e in ErrorPayloads(results) <==> Error(e) in results
  {
    if results != [] {
      ErrorPayloadsMembership(results[1..], e);
      assert results == [results[0]] + results[1..];
    }
  }

  /** All yields nothing exactly when every input is an `Error` (so also for no input). */
  lemma {:induction false} OkPayloadsEmpty<V, E>(results: seq<Result<V, E>>)
    ensures OkPayloads(results) == [] <==> forall i :: 0 <= i < |results| ==> results[i].IsError()
  {
    if results != [] {
      OkPayloadsEmpty(results[1..]);
      assert forall i :: 1 <= i < |results| ==> results[i] == results[1..][i - 1];
    }
  }

  /** Errors yields nothing exactly when every input is an `Ok` (so also for no input). */
  lemma {:induction false} ErrorPayloadsEmpty<V, E>(results: seq<Result<V, E>>)
    ensures ErrorPayloads(results) == [] <==> forall i :: 0 <= i < |results| ==> results[i].IsOk()
  {
    if results != [] {
      ErrorPayloadsEmpty(results[1..]);
      assert forall i :: 1 <= i < |results| ==> results[i] == results[1..][i - 1];
    }
  }

  /** The `Ok` at input position i lands in All's output right after the `Ok` payloads
      that precede it: the output keeps input order. */
  lemma OkPayloadsPlacement<V, E>(results: seq<Result<V, E>>, i: nat)
    requires i < |results| && results[i].IsOk()
    ensures |OkPayloads(results[..i])| < |OkPayloads(results)|
    ensures OkPayloads(results)[|OkPayloads(results[..i])|] == results[i].value
  {
    assert results == results[..i] + results[i..];
    OkPayloadsAppend(results[..i], results[i..]);
    assert results[i..][0] == results[i];
  }

  /** The `Error` at input position i lands in Errors' output right after the `Error`
      payloads that precede it: the output keeps input order. */
  lemma ErrorPayloadsPlacement<V, E>(results: seq<Result<V, E>>, i: nat)
    requires i < |results| && results[i].IsError()
    ensures |ErrorPayloads(results[..i])| < |ErrorPayloads(results)|
    ensures ErrorPayloads(results)[|ErrorPayloads(results[..i])|] == results[i].error
  {
    assert results == results[..i] + results[i..];
    ErrorPayloadsAppend(results[..i], results[i..]);
    assert results[i..][0] == results[i];
  }

  /** Of two `Ok` inputs, the earlier one is placed earlier in All's output. */
  lemma OkPayloadsKeepOrder<V, E>(results: seq<Result<V, E>>, i: nat, j: nat)
    requires i < j < |results| && results[i].IsOk() && results[j].IsOk()
    ensures |OkPayloads(results[..i])| < |OkPayloads(results[..j])|
  {
    assert results[..j] == results[..i] + results[i..j];
    OkPayloadsAppend(results[..i], results[i..j]);
    assert results[i..j][0] == results[i];
  }

  /** Of two `Error` inputs, the earlier one is placed earlier in Errors' output. */
  lemma ErrorPayloadsKeepOrder<V, E>(results: seq<Result<V, E>>, i: nat, j: nat)
    requires i < j < |results| && results[i].IsError() && results[j].IsError()
    ensures |ErrorPayloads(results[..i])| < |ErrorPayloads(results[..j])|
  {
    assert results[..j] == results[..i] + results[i..j];
    ErrorPayloadsAppend(results[..i], results[i..j]);
    assert results[i..j][0] == results[i];
  }
}
