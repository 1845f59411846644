// Primitive vocabulary shared by every module: nullable values, Guids,
// the exceptions the domain layer throws, and the outcome of a call that
// either returns or throws.
module Core {

  /** A C# nullable value (`T?`). */
  datatype Option<T> = None | Some(value: T)

  /** A `System.Guid`; 0 stands for `Guid.Empty`. */
  type Guid = nat

  const EmptyGuid: Guid := 0

  const MinInt32: int := -0x8000_0000
  const MaxInt32: int := 0x7FFF_FFFF

  /** A C# `int`. */
  type Int32 = x: int | MinInt32 <= x <= MaxInt32

  /** Unchecked C# `int` arithmetic: the exact result wrapped into 32 bits. */
  function WrapInt32(x: int): (r: Int32)
    ensures MinInt32 <= x <= MaxInt32 ==> r == x
    ensures MaxInt32 < x <= 2 * MaxInt32 + 1 ==> r == x - 0x1_0000_0000
  {
    (x - MinInt32) % 0x1_0000_0000 + MinInt32
  }

  /** The exceptions thrown by the domain layer, with their .NET message texts. */
  datatype Exception =
    | DomainException(text: string)
    | BusinessRuleViolation(rule: string, detail: string)
    | ArgumentException(paramName: string, argText: string)
    | ArgumentNullException(nullParam: string)
    | InvalidOperationException(opText: string)
    | NullReferenceException
  {
    /** `Exception.Message` as .NET renders it. */
    function Message(): string
    {
      match this
      case DomainException(t) => t
      case BusinessRuleViolation(rule, detail) => "Business rule violated: " + rule + ". " + detail
      case ArgumentException(p, t) => t + " (Parameter '" + p + "')"
      case ArgumentNullException(p) => "Value cannot be null. (Parameter '" + p + "')"
      case InvalidOperationException(t) => t
      case NullReferenceException => "Object reference not set to an instance of an object."
    }

    /** `BusinessRuleViolationException` derives from `DomainException`. */
    predicate IsDomainException()
    {
      DomainException? || BusinessRuleViolation?
    }
  }

  /**
   * What a C# call does: it returns a value or throws an exception.
   * A call returning `void` has outcome type `Outcome<()>`.
   */
  datatype Outcome<+T> = Returned(value: T) | Threw(error: Exception)
  {
    predicate IsFailure() { Threw? }

    function PropagateFailure<U>(): Outcome<U>
      requires Threw?
    {
      Threw(error)
    }

    function Extract(): T
      requires Returned?
    {
      value
    }
  }

  /** The outcome of a `void` call that completes normally. */
  const Done: Outcome<()> := Returned(())
}
