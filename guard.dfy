// The precondition checks every entity runs before it changes state.  Each
// check either completes normally or throws; none has any other effect.
module Guard {
  import opened Core
  import opened Text

  /** Throws a `DomainException` carrying `message` exactly when `condition` holds. */
  function Against(condition: bool, message: string): (r: Outcome<()>)
    ensures r.Threw? <==> condition
    ensures r.Threw? ==> r.error == DomainException(message) && r.error.IsDomainException()
  {
    if condition then Threw(DomainException(message)) else Done
  }

  /** Throws `ArgumentNullException(parameterName)` exactly when `value` is null. */
  function AgainstNull<T>(value: Option<T>, parameterName: string): (r: Outcome<()>)
    ensures r.Threw? <==> value.None?
    ensures r.Threw? ==> r.error == ArgumentNullException(parameterName) && !r.error.IsDomainException()
  {
    if value.None? then Threw(ArgumentNullException(parameterName)) else Done
  }

  /**
   * Accepts exactly the strings that hold at least one non-white-space
   * character; null, empty and white-space-only strings throw an `ArgumentException`.
   */
  function AgainstNullOrEmpty(value: Option<string>, parameterName: string): (r: Outcome<()>)
    ensures r.Returned? <==> value.Some? && exists i :: 0 <= i < |value.value| && !IsWhiteSpace(value.value[i])
    ensures r.Threw? ==> r.error == ArgumentException(parameterName, "Value cannot be null or empty")
    ensures r.Threw? ==> !r.error.IsDomainException()
  {
    if IsNullOrWhiteSpace(value) then Threw(ArgumentException(parameterName, "Value cannot be null or empty")) else Done
  }

  /** The `decimal` overload: rejects exactly the values below zero; zero passes. */
  function AgainstNegative(value: real, parameterName: string): (r: Outcome<()>)
    ensures r.Returned? <==> value >= 0.0
    ensures r.Threw? ==> r.error == ArgumentException(parameterName, "Value cannot be negative")
  {
    if value < 0.0 then Threw(ArgumentException(parameterName, "Value cannot be negative")) else Done
  }

  /** The `int` overload: rejects exactly the values below zero; zero passes. */
  function AgainstNegativeInt(value: int, parameterName: string): (r: Outcome<()>)
    ensures r.Returned? <==> value >= 0
    ensures r.Threw? ==> r.error == ArgumentException(parameterName, "Value cannot be negative")
  {
    if value < 0 then Threw(ArgumentException(parameterName, "Value cannot be negative")) else Done
  }

  /** Rejects exactly a null collection or one without elements. */
  function AgainstEmpty<T>(value: Option<seq<T>>, parameterName: string): (r: Outcome<()>)
    ensures r.Returned? <==> value.Some? && exists x :: x in value.value
    ensures r.Threw? ==> r.error == ArgumentException(parameterName, "Collection cannot be null or empty")
  {
    if value.None? || |value.value| == 0 then
      Threw(ArgumentException(parameterName, "Collection cannot be null or empty"))
    else
      assert value.value[0] in value.value;
      Done
  }

  /** Rejects exactly `Guid.Empty`. */
  function AgainstInvalidGuid(value: Guid, parameterName: string): (r: Outcome<()>)
    ensures r.Returned? <==> value != EmptyGuid
    ensures r.Threw? ==> r.error == ArgumentException(parameterName, "Guid cannot be empty")
  {
    if value == EmptyGuid then Threw(ArgumentException(parameterName, "Guid cannot be empty")) else Done
  }
}
