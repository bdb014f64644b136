/** A result of a computation: either an `Ok` value or an `Error` value, with the
    combinators that inspect, unwrap, chain and convert it. */
module Results {
  import opened NoneValue
  import opened Exceptions
  import opened Optionals

  /** Exactly one payload is present: the invariant the two nullable fields and the
      `caughtError` flag maintain holds here by construction. */
  datatype Result<V, E> = Ok(value: V) | Error(error: E) {

    /** True iff this is an `Error`. */
    function IsError(): (r: bool)
      ensures r <==> this.Error?
    {
      this.Error?
    }

    /** True iff this is an `Ok`: the exact complement of IsError. */
    function IsOk(): (r: bool)
      ensures r <==> this.Ok?
      ensures r != IsError()
    {
      !IsError()
    }

    /** Calls the function for the present variant and returns what it returns;
        every value-producing combinator below is defined through it. */
    function MatchResult<T>(okFunction: V -> T, errorFunction: E -> T): (r: T)
      ensures IsOk() ==> r == okFunction(value)
      ensures IsError() ==> r == errorFunction(error)
    {
      if IsOk() then okFunction(value) else errorFunction(error)
    }

    /** The `Ok` payload; on `Error` the call raises an ExpectException carrying
        `message` and the error payload. */
    function Expect(message: string): (r: Outcome<V, ExpectException<E>>)
      ensures r.Returned? <==> IsOk()
      ensures r.Returned? ==> Ok(r.value) == this
      ensures r.Threw? ==> r.exception.message == message && Error(r.exception.payload) == this
    {
      if IsError() then Threw(ExpectException(message, error)) else Returned(value)
    }

    /** The `Error` payload; on `Ok` the call raises an ExpectException carrying
        `message` and the ok payload. */
    function ExpectError(message: string): (r: Outcome<E, ExpectException<V>>)
      ensures r.Returned? <==> IsError()
      ensures r.Returned? ==> Error(r.value) == this
      ensures r.Threw? ==> r.exception.message == message && Ok(r.exception.payload) == this
    {
      if IsOk() then Threw(ExpectException(message, value)) else Returned(error)
    }

    /** The `Ok` payload; on `Error` the call raises UnwrapException("unwrap", "err"). */
    function Unwrap(): (r: Outcome<V, UnwrapException>)
      ensures r.Returned? <==> IsOk()
      ensures r.Returned? ==> Ok(r.value) == this
      ensures r.Threw? ==> r.exception == UnwrapException("unwrap", "err")
    {
      if IsOk() then Returned(value) else Threw(UnwrapException("unwrap", "err"))
    }

    /** The `Ok` payload, or `defaultValue` on `Error`; never raises. */
    function UnwrapOr(defaultValue: V): (r: V)
      ensures IsOk() ==> Unwrap() == Returned(r)
      ensures IsError() ==> r == defaultValue
    {
      MatchResult(v => v, _ => defaultValue)
    }

    /** The `Error` payload; on `Ok` the call raises UnwrapException("unwrapError", "ok"). */
    function UnwrapError(): (r: Outcome<E, UnwrapException>)
      ensures r.Returned? <==> IsError()
      ensures r.Returned? ==> Error(r.value) == this
      ensures r.Threw? ==> r.exception == UnwrapException("unwrapError", "ok")
    {
      if IsError() then Returned(error) else Threw(UnwrapException("unwrapError", "ok"))
    }

    /** `other` if this is `Ok`, otherwise this error unchanged: `Ok` only when both are. */
    function And<N>(other: Result<N, E>): (r: Result<N, E>)
      ensures r.IsOk() <==> IsOk() && other.IsOk()
      ensures IsOk() ==> r == other
      ensures IsError() ==> r.ToErrorOptional() == ToErrorOptional()
    {
      MatchResult(_ => other, e => Error(e))
    }

    /** `f(value)` if this is `Ok`, otherwise this error unchanged; `f` is not consulted on `Error`. */
    function AndThen<N>(f: V -> Result<N, E>): (r: Result<N, E>)
      ensures IsOk() ==> r == f(value)
      ensures IsError() ==> r.ToErrorOptional() == ToErrorOptional()
    {
      MatchResult(f, e => Error(e))
    }

    /** This value unchanged if it is `Ok`, otherwise `other`: `Error` only when both are. */
    function Or<N>(other: Result<V, N>): (r: Result<V, N>)
      ensures r.IsError() <==> IsError() && other.IsError()
      ensures IsOk() ==> r.ToOptional() == ToOptional()
      ensures IsError() ==> r == other
    {
      MatchResult(v => Ok(v), _ => other)
    }

    /** This value unchanged if it is `Ok`, otherwise `f(error)`; `f` is not consulted on `Ok`. */
    function OrElse<N>(f: E -> Result<V, N>): (r: Result<V, N>)
      ensures IsOk() ==> r.ToOptional() == ToOptional()
      ensures IsError() ==> r == f(error)
    {
      MatchResult(v => Ok(v), f)
    }

    /** Transforms the `Ok` side only; the variant and an error payload are kept. */
    function Map<N>(mapper: V -> N): (r: Result<N, E>)
      ensures r.IsOk() == IsOk()
      ensures IsOk() ==> r.ToOptional() == Of(mapper(value))
      ensures r.ToErrorOptional() == ToErrorOptional()
    {
      MatchResult(v => Ok(mapper(v)), e => Error(e))
    }

    /** `mapper(value)` if this is `Ok`, otherwise `defaultValue`. */
    function MapOr<N>(mapper: V -> N, defaultValue: N): (r: N)
      ensures IsOk() ==> r == mapper(value)
      ensures IsError() ==> r == defaultValue
    {
      MatchResult(mapper, _ => defaultValue)
    }

    /** Transforms the `Error` side only; the variant and an ok payload are kept. */
    function MapError<N>(mapper: E -> N): (r: Result<V, N>)
      ensures r.IsError() == IsError()
      ensures IsError() ==> r.ToErrorOptional() == Of(mapper(error))
      ensures r.ToOptional() == ToOptional()
    {
      MatchResult(v => Ok(v), e => Error(mapper(e)))
    }

    /** The `Ok` payload as a present optional, or the empty optional on `Error`. */
    function ToOptional(): (r: Optional<V>)
      ensures r.Of? <==> IsOk()
      ensures r.Of? ==> Ok(r.value) == this
    {
      if IsOk() then Of(value) else Empty
    }

    /** The `Error` payload as a present optional, or the empty optional on `Ok`. */
    function ToErrorOptional(): (r: Optional<E>)
      ensures r.Of? <==> IsError()
      ensures r.Of? ==> Error(r.value) == this
    {
      if IsError() then Of(error) else Empty
    }
  }

  /** Structural equality as the source defines it: the variant flags must agree, and
      then the payload of that variant must be equal. */
  function Equals<V(==), E(==)>(a: Result<V, E>, b: Result<V, E>): (r: bool)
    ensures r <==> a == b
    ensures r ==> a.IsOk() == b.IsOk()
  {
    if a.IsError() != b.IsError() then false
    else if a.IsError() then a.error == b.error
    else a.value == b.value
  }

  /** An `Ok` whose payload is the marker. */
  function OkNone<E>(): (r: Result<None, E>)
    ensures r.IsOk() && r.Unwrap() == Returned(NONE)
  {
    Ok(NONE)
  }

  /** An `Error` whose payload is the marker. */
  function ErrorNone<V>(): (r: Result<V, None>)
    ensures r.IsError() && r.UnwrapError() == Returned(NONE)
  {
    Error(NONE)
  }

  /** `Ok(value)` when the reference is not null, otherwise `Error(error)`. */
  function OfNullable<V, E>(value: Nullable<V>, error: E): (r: Result<V, E>)
    ensures r.IsOk() <==> value.NonNull?
    ensures value.NonNull? ==> r.Unwrap() == Returned(value.value)
    ensures value.Null? ==> r.UnwrapError() == Returned(error)
  {
    if value.Null? then Error(error) else Ok(value.value)
  }

  /** `Ok` of the contained value, or `Error(NONE)` for an empty optional;
      converting back with ToOptional gives the optional again. */
  function FromOptional<V>(optional: Optional<V>): (r: Result<V, None>)
    ensures r.IsOk() <==> optional.Of?
    ensures r.ToOptional() == optional
  {
    optional.Map(v => Ok(v)).OrElse(ErrorNone())
  }

  /** `Error` of the contained value, or `Ok(NONE)` for an empty optional;
      converting back with ToErrorOptional gives the optional again. */
  function FromErrorOptional<E>(optional: Optional<E>): (r: Result<None, E>)
    ensures r.IsError() <==> optional.Of?
    ensures r.ToErrorOptional() == optional
  {
    optional.Map(e => Error(e)).OrElse(OkNone())
  }

  /** Runs a supplier, given here as what it did: `Ok` of a returned value, or `Error` of
      `errorMapper` applied to what it threw. Nothing it throws escapes. */
  function Resolve<V, E, X>(supplied: Outcome<V, X>, errorMapper: X -> E): (r: Result<V, E>)
    ensures r.IsOk() <==> supplied.Returned?
    ensures supplied.Returned? ==> r.ToOptional() == Of(supplied.value)
    ensures supplied.Threw? ==> r.ToErrorOptional() == Of(errorMapper(supplied.exception))
  {
    match supplied
    case Returned(v) => Ok(v)
    case Threw(t) => Error(errorMapper(t))
  }

  /** Like Resolve, but whatever the supplier throws becomes `Error(NONE)`. */
  function ResolveNone<V, X>(supplied: Outcome<V, X>): (r: Result<V, None>)
    ensures r.IsOk() <==> supplied.Returned?
    ensures supplied.Returned? ==> r.ToOptional() == Of(supplied.value)
  {
    match supplied
    case Returned(v) => Ok(v)
    case Threw(_) => ErrorNone()
  }

  /** The `Ok` payloads of `results`, in input order. */
  function OkPayloads<V, E>(results: seq<Result<V, E>>): (values: seq<V>)
    ensures |values| <= |results|
    ensures forall k :: 0 <= k < |values| ==> Ok(values[k]) in results
  {
    if results == [] then []
    else (if results[0].IsOk() then [results[0].value] else []) + OkPayloads(results[1..])
  }

  /** The `Error` payloads of `results`, in input order. */
  function ErrorPayloads<V, E>(results: seq<Result<V, E>>): (errors: seq<E>)
    ensures |errors| <= |results|
    ensures forall k :: 0 <= k < |errors| ==> Error(errors[k]) in results
  {
    if results == [] then []
    else (if results[0].IsError() then [results[0].error] else []) + ErrorPayloads(results[1..])
  }

  lemma {:induction false} OkPayloadsAppend<V, E>(a: seq<Result<V, E>>, b: seq<Result<V, E>>)
    ensures OkPayloads(a + b) == OkPayloads(a) + OkPayloads(b)
  {
    if a == [] {
      assert a + b == b;
    } else {
      assert (a + b)[1..] == a[1..] + b;
      OkPayloadsAppend(a[1..], b);
    }
  }

  lemma {:induction false} ErrorPayloadsAppend<V, E>(a: seq<Result<V, E>>, b: seq<Result<V, E>>)
    ensures ErrorPayloads(a + b) == ErrorPayloads(a) + ErrorPayloads(b)
  {
    if a == [] {
      assert a + b == b;
    } else {
      assert (a + b)[1..] == a[1..] + b;
      ErrorPayloadsAppend(a[1..], b);
    }
  }

  /** Collects every `Ok` payload of `results`, in order, into a fresh list. */
  method All<V, E>(results: seq<Result<V, E>>) returns (values: seq<V>)
    ensures values == OkPayloads(results)
  {
    values := [];
    for i := 0 to |results|
      invariant values == OkPayloads(results[..i])
    {
      var result := results[i];
      assert results[..i + 1] == results[..i] + [result];
      OkPayloadsAppend(results[..i], [result]);
      if result.IsOk() {
        values := values + [result.value];
      }
    }
    assert results[..|results|] == results;
  }

  /** Collects every `Error` payload of `results`, in order, into a fresh list:
      `Ok` entries are skipped and the others unwrapped. */
  method Errors<V, E>(results: seq<Result<V, E>>) returns (errors: seq<E>)
    ensures errors == ErrorPayloads(results)
  {
    errors := [];
    for i := 0 to |results|
      invariant errors == ErrorPayloads(results[..i])
    {
      var result := results[i];
      assert results[..i + 1] == results[..i] + [result];
      ErrorPayloadsAppend(results[..i], [result]);
      if result.IsOk() {
        continue;
      }
      var unwrapped := result.UnwrapError();
      errors := errors + [unwrapped.value];
    }
    assert results[..|results|] == results;
  }
}
