// The enumerations of the domain.  The C# ordinals are given where the
// code does arithmetic or comparisons on them.
module Enums {

  datatype ProjectStatus = Planning | Active | OnHold | Completed | Cancelled
  {
    /** The enum member name, as string interpolation renders it. */
    function Name(): string
    {
      match this
      case Planning => "Planning"
      case Active => "Active"
      case OnHold => "OnHold"
      case Completed => "Completed"
      case Cancelled => "Cancelled"
    }
  }

  datatype ProjectType = FixedPrice | TimeAndMaterial | Retainer

  datatype RiskLevel = Low | Medium | High
  {
    /** `(int)riskLevel`: Low = 1, Medium = 2, High = 3. */
    function Ordinal(): int
    {
      match this
      case Low => 1
      case Medium => 2
      case High => 3
    }
  }

  datatype EmployeeStatus = Active | Inactive | OnLeave | Terminated
  {
    function Name(): string
    {
      match this
      case Active => "Active"
      case Inactive => "Inactive"
      case OnLeave => "OnLeave"
      case Terminated => "Terminated"
    }
  }

  datatype SkillLevel = Beginner | Intermediate | Advanced | Expert
  {
    /** `(int)level`: Beginner = 1 through Expert = 4; levels are compared by it. */
    function Ordinal(): int
    {
      match this
      case Beginner => 1
      case Intermediate => 2
      case Advanced => 3
      case Expert => 4
    }
  }

  /** `Overdue` is declared but no operation ever sets it. */
  datatype InvoiceStatus = Draft | Sent | Paid | Overdue | Cancelled

  datatype MilestoneStatus = Pending | InProgress | Completed | Delayed
}
