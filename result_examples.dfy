/** The concrete scenarios of the library's unit tests, stated as facts about the model. */
module ResultExamples {
  import opened NoneValue
  import opened Exceptions
  import opened Optionals
  import opened Results

  type IntResult = Result<int, int>
  type TextResult = Result<string, string>

  /** Construction helpers land in the expected variant. */
  lemma ConstructionVariants()
    ensures OkNone<int>().IsOk() && !OkNone<int>().IsError()
    ensures ErrorNone<int>().IsError()
    ensures !IntResult.Error(1).IsOk()
    ensures OfNullable(NonNull(12), 8).IsOk()
    ensures OfNullable(Nullable<int>.Null, 3).IsError()
    ensures Resolve(Returned(8), (_: string) => 2).IsOk()
    ensures Resolve(Outcome<real, string>.Threw("NumberFormatException"), (_: string) => 0).IsError()
    ensures FromOptional(Of("hello")).IsOk()
    ensures FromOptional<string>(Empty).IsError()
    ensures FromErrorOptional(Of(12)).IsError()
    ensures FromErrorOptional<int>(Empty).IsOk()
  {
  }

  /** All and Errors on the test inputs collect the expected payloads. */
  lemma CollectorScenarios()
    ensures OkPayloads([TextResult.Ok("1"), Error("error"), Ok("2"), Ok("3"), Error("error")]) == ["1", "2", "3"]
    ensures OkPayloads([TextResult.Error("error"), Error("another error")]) == []
    ensures ErrorPayloads([Result<int, string>.Error("1"), Ok(0), Ok(12), Error("2"), Error("3"), Error("4")]) == ["1", "2", "3", "4"]
    ensures ErrorPayloads([Result<int, string>.Ok(0), Ok(10)]) == []
  {
  }

  /** expect/unwrap return on the matching variant and raise the recorded signal otherwise. */
  lemma UnwrapScenarios()
    ensures IntResult.Ok(10).Expect("") == Returned(10)
    ensures TextResult.Error("aaa").Expect("invalid") == Threw(ExpectException("invalid", "aaa"))
    ensures IntResult.Ok(10).ExpectError("shouldn't be ok") == Threw(ExpectException("shouldn't be ok", 10))
    ensures TextResult.Error("aaa").ExpectError("invalid") == Returned("aaa")
    ensures IntResult.Error(8).Unwrap() == Threw(UnwrapException("unwrap", "err"))
    ensures OkNone<int>().UnwrapError() == Threw(UnwrapException("unwrapError", "ok"))
    ensures IntResult.Ok(5).UnwrapOr(2) == 5 && IntResult.Error(2).UnwrapOr(8) == 8
  {
  }

  /** The four variant combinations of and, andThen, or and orElse. */
  lemma ChainingScenarios()
    ensures IntResult.Ok(1).And(IntResult.Ok(2)) == Ok(2)
    ensures IntResult.Ok(12).And(IntResult.Error(8)) == Error(8)
    ensures IntResult.Error(6).And(IntResult.Ok(2)) == Error(6)
    ensures IntResult.Error(2).And(IntResult.Error(8)) == Error(2)
    ensures IntResult.Ok(1).AndThen(n => IntResult.Ok(n + 2)) == Ok(3)
    ensures IntResult.Ok(12).AndThen(n => IntResult.Error(n - 10)) == Error(2)
    ensures IntResult.Error(6).AndThen(n => IntResult.Ok(n + 1)) == Error(6)
    ensures IntResult.Ok(1).Or(IntResult.Ok(2)) == Ok(1)
    ensures IntResult.Error(6).Or(IntResult.Ok(2)) == Ok(2)
    ensures IntResult.Error(2).Or(IntResult.Error(8)) == Error(8)
    ensures IntResult.Ok(12).OrElse(e => IntResult.Error(e - 1)) == Ok(12)
    ensures IntResult.Error(6).OrElse(e => IntResult.Ok(e + 3)) == Ok(9)
    ensures IntResult.Error(2).OrElse(e => IntResult.Error(e - 2)) == Error(0)
  {
  }

  /** map, mapOr and mapError touch only their own side. */
  lemma MappingScenarios()
    ensures IntResult.Ok(1).Map(v => v + 1) == Ok(2)
    ensures IntResult.Error(6).Map(v => v - 2) == Error(6)
    ensures TextResult.Ok("result").MapOr((s: string) => |s|, 9) == 6
    ensures TextResult.Error("this is an error").MapOr((s: string) => |s|, 3) == 3
    ensures TextResult.Ok("hey").MapError((s: string) => |s|) == Ok("hey")
    ensures TextResult.Error("this is an error").MapError((s: string) => |s|) == Error(16)
  {
  }

  /** Conversions to optionals. */
  lemma OptionalScenarios()
    ensures TextResult.Ok("thing").ToOptional() == Of("thing")
    ensures TextResult.Error("error").ToOptional() == Empty
    ensures TextResult.Error("error").ToErrorOptional() == Of("error")
    ensures OkNone<int>().ToErrorOptional() == Empty
  {
  }
}
