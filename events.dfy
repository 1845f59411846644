// The domain events the aggregates queue.  Each C# event also gets a fresh
// `Id` from `Guid.NewGuid()`, which is left out; `OccurredOn` is the `now`
// of the call that raised it.
module DomainEvents {
  import opened Core
  import opened Calendar

  datatype DomainEvent =
    | ProjectCreated(occurredOn: Instant, projectId: Guid, projectName: string, clientId: Guid, tenantId: string)
    | EmployeeAssignedToProject(occurredOn: Instant, projectId: Guid, employeeId: Guid, role: string,
                                allocationPercentage: int, tenantId: string)
  {
    /** `EventType`, the name of the event class. */
    function EventType(): string
    {
      match this
      case ProjectCreated(_, _, _, _, _) => "ProjectCreatedEvent"
      case EmployeeAssignedToProject(_, _, _, _, _, _) => "EmployeeAssignedToProjectEvent"
    }
  }
}
