// The success/failure carrier the services return instead of throwing.
// The C# class holds a success flag, an error list and a value, but its only
// constructors are the factories, so every reachable instance is either a
// success with no errors or a failure with a list of errors and a default
// value.  The value-less `Result` is `Result<()>`.
module Results {
  import opened Core

  datatype Result<T> = Success(val: T) | Failure(errorList: seq<string>)
  {
    predicate IsSuccess() { Success? }

    /** `IsFailure => !IsSuccess`. */
    predicate IsFailure()
    {
      !IsSuccess()
    }

    /** The error list; a success has none. */
    function Errors(): seq<string>
    {
      if Success? then [] else errorList
    }

    /** The `Value` getter, which throws on a failure. */
    function Value(): (r: Outcome<T>)
      ensures r.Returned? <==> IsSuccess()
      ensures r.Returned? ==> r.value == val
      ensures r.Threw? ==> r.error == InvalidOperationException("Cannot access value of failed result")
    {
      if IsSuccess() then Returned(val) else Threw(InvalidOperationException("Cannot access value of failed result"))
    }
  }

  /** `Result.Success()` and `Result.Success<T>(value)`. */
  function Succeed<T>(value: T): (r: Result<T>)
    ensures r.IsSuccess() && !r.IsFailure()
    ensures r.Errors() == []
    ensures r.Value() == Returned(value)
  {
    Success(value)
  }

  /** `Result.Failure(error)`: a failure carrying exactly that one error. */
  function Fail<T>(error: string): (r: Result<T>)
    ensures r.IsFailure() && !r.IsSuccess()
    ensures r.Errors() == [error]
    ensures r.Value().Threw?
  {
    Failure([error])
  }

  /** `Result.Failure(errors)`: a failure carrying the given list; null becomes the empty list. */
  function FailAll<T>(errors: Option<seq<string>>): (r: Result<T>)
    ensures r.IsFailure()
    ensures errors.Some? ==> r.Errors() == errors.value
    ensures errors.None? ==> r.Errors() == []
  {
    Failure(if errors.Some? then errors.value else [])
  }

  /** The implicit conversion from a `T` value: a success holding that value. */
  function FromValue<T>(value: T): (r: Result<T>)
    ensures r.IsSuccess() && r.Errors() == []
    ensures r.Value() == Returned(value)
  {
    Succeed(value)
  }

  /** `IsFailure` is the negation of `IsSuccess` on every result. */
  lemma FailureIsNotSuccess<T>(r: Result<T>)
    ensures r.IsFailure() <==> !r.IsSuccess()
    ensures r.IsSuccess() ==> r.Errors() == []
  {
  }
}
