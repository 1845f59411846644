// A payment milestone of a project.  Its status machine runs
// Pending/Delayed -> InProgress -> Completed, and Completed is absorbing:
// every changing operation throws on a completed milestone.
module ProjectMilestoneEntity {
  import opened Core
  import opened Text
  import opened Calendar
  import opened Enums
  import Guard
  import Arith

  const PaymentMessage: string := "Payment percentage must be between 0 and 100"

  /** The constructor checks, in order: the project Guid, the name, the payment percentage. */
  function CheckNew(projectId: Guid, name: string, paymentPercentage: real): (r: Outcome<()>)
    ensures r.Returned? <==> projectId != EmptyGuid && !IsBlank(name) && 0.0 <= paymentPercentage <= 100.0
    ensures projectId == EmptyGuid ==> r == Threw(ArgumentException("projectId", "Guid cannot be empty"))
    ensures projectId != EmptyGuid && IsBlank(name) ==> r == Threw(ArgumentException("name", "Value cannot be null or empty"))
    ensures projectId != EmptyGuid && !IsBlank(name) && !(0.0 <= paymentPercentage <= 100.0) ==>
              r == Threw(DomainException(PaymentMessage))
  {
    var _ :- Guard.AgainstInvalidGuid(projectId, "projectId");
    var _ :- Guard.AgainstNullOrEmpty(Some(name), "name");
    Guard.Against(paymentPercentage < 0.0 || paymentPercentage > 100.0, PaymentMessage)
  }

  /** The mutable part of a milestone, for stating what an operation leaves alone. */
  datatype MilestoneState = MilestoneState(
    description: Option<string>, dueDate: Day, completionDate: Option<Instant>,
    paymentPercentage: real, status: MilestoneStatus, deliverables: Option<string>)

  /** The text `MarkAsDelayed` stores: the old description (null reads as empty) and the reason on a new line. */
  function DelayedDescription(description: Option<string>, reason: string): (d: string)
    ensures |d| > |reason|
    ensures d[|d| - |reason|..] == reason
  {
    (if description.Some? then description.value else "") + "\nDelay Reason: " + reason
  }

  class ProjectMilestone {
    const id: Guid
    const projectId: Guid
    const name: string
    const createdAt: Instant
    var description: Option<string>
    var dueDate: Day
    var completionDate: Option<Instant>
    var paymentPercentage: real
    var status: MilestoneStatus
    var deliverables: Option<string>

    /** A completion date is recorded exactly for completed milestones; the percentage stays in [0,100]. */
    predicate Valid()
      reads this
    {
      0.0 <= paymentPercentage <= 100.0 && (completionDate.Some? <==> status == MilestoneStatus.Completed)
    }

    function State(): MilestoneState
      reads this
    {
      MilestoneState(description, dueDate, completionDate, paymentPercentage, status, deliverables)
    }

    constructor (id: Guid, projectId: Guid, name: string, dueDate: Instant, description: Option<string>,
                 paymentPercentage: real, now: Instant)
      requires CheckNew(projectId, name, paymentPercentage).Returned?
      ensures Valid()
      ensures this.id == id && this.projectId == projectId && this.name == name && createdAt == now
      ensures State() == MilestoneState(description, DateOf(dueDate), None, paymentPercentage, Pending, None)
    {
      this.id := id;
      this.projectId := projectId;
      this.name := name;
      this.dueDate := DateOf(dueDate);
      this.description := description;
      this.paymentPercentage := paymentPercentage;
      this.status := Pending;
      this.completionDate := None;
      this.deliverables := None;
      this.createdAt := now;
    }

    /** `new ProjectMilestone(...)`: a Pending milestone due on the date of `dueDate`. */
    static method Create(id: Guid, projectId: Guid, name: string, dueDate: Instant, description: Option<string>,
                         paymentPercentage: real, now: Instant)
      returns (r: Outcome<ProjectMilestone>)
      ensures r.Threw? <==> CheckNew(projectId, name, paymentPercentage).Threw?
      ensures r.Threw? ==> r.error == CheckNew(projectId, name, paymentPercentage).error
      ensures r.Returned? ==> fresh(r.value) && r.value.Valid()
      ensures r.Returned? ==> r.value.id == id && r.value.projectId == projectId && r.value.name == name
      ensures r.Returned? ==> r.value.State() == MilestoneState(description, DateOf(dueDate), None, paymentPercentage, Pending, None)
    {
      var _ :- CheckNew(projectId, name, paymentPercentage);
      var m := new ProjectMilestone(id, projectId, name, dueDate, description, paymentPercentage, now);
      return Returned(m);
    }

    predicate IsCompleted()
      reads this
    {
      status == MilestoneStatus.Completed
    }

    /** `IsOverdue`: not completed and past the due date. */
    predicate IsOverdue(today: Day)
      reads this
    {
      status != MilestoneStatus.Completed && today > dueDate
    }

    /** `DaysUntilDue`: zero once completed, otherwise the signed days to the due date. */
    function DaysUntilDue(today: Day): int
      reads this
    {
      if IsCompleted() then 0 else dueDate - today
    }

    /** `DaysOverdue`: zero unless overdue, otherwise the days since the due date. */
    function DaysOverdue(today: Day): int
      reads this
    {
      if !IsOverdue(today) then 0 else today - dueDate
    }

    /** `CanBeCompleted`: Pending or InProgress. */
    predicate CanBeCompleted(): (b: bool)
      reads this
      ensures b <==> status != MilestoneStatus.Completed && status != Delayed
    {
      status == InProgress || status == Pending
    }

    /** Succeeds only from Pending or Delayed, and then only the status changes. */
    method StartProgress() returns (r: Outcome<()>)
      modifies this
      ensures old(status) == MilestoneStatus.Completed ==> r == Threw(DomainException("Cannot start progress on completed milestone"))
      ensures old(status) == InProgress ==> r == Threw(DomainException("Milestone is already in progress"))
      ensures r.Returned? <==> old(status) == Pending || old(status) == Delayed
      ensures r.Returned? ==> State() == old(State()).(status := InProgress)
      ensures r.Threw? ==> State() == old(State())
      ensures old(Valid()) ==> Valid()
    {
      var _ :- Guard.Against(status == MilestoneStatus.Completed, "Cannot start progress on completed milestone");
      var _ :- Guard.Against(status == InProgress, "Milestone is already in progress");
      status := InProgress;
      return Done;
    }

    /**
     * Sets status, completion date and deliverables together.  It is allowed
     * from Delayed, where `CanBeCompleted` is false.
     */
    method MarkAsCompleted(deliverables: Option<string>, now: Instant) returns (r: Outcome<()>)
      modifies this
      ensures r.Threw? <==> old(status) == MilestoneStatus.Completed
      ensures r.Threw? ==> r.error == DomainException("Milestone is already completed") && State() == old(State())
      ensures r.Returned? ==> State() == old(State()).(status := MilestoneStatus.Completed, completionDate := Some(now), deliverables := deliverables)
      ensures old(Valid()) ==> Valid()
    {
      var _ :- Guard.Against(status == MilestoneStatus.Completed, "Milestone is already completed");
      status := MilestoneStatus.Completed;
      completionDate := Some(now);
      this.deliverables := deliverables;
      return Done;
    }

    /** Moves to Delayed; a non-empty reason is appended to the description. */
    method MarkAsDelayed(reason: Option<string>) returns (r: Outcome<()>)
      modifies this
      ensures r.Threw? <==> old(status) == MilestoneStatus.Completed
      ensures r.Threw? ==> r.error == DomainException("Cannot mark completed milestone as delayed") && State() == old(State())
      ensures r.Returned? && IsNullOrEmpty(reason) ==> State() == old(State()).(status := Delayed)
      ensures r.Returned? && !IsNullOrEmpty(reason) ==>
                State() == old(State()).(status := Delayed, description := Some(DelayedDescription(old(description), reason.value)))
      ensures old(Valid()) ==> Valid()
    {
      var _ :- Guard.Against(status == MilestoneStatus.Completed, "Cannot mark completed milestone as delayed");
      status := Delayed;
      if !IsNullOrEmpty(reason) {
        description := Some(DelayedDescription(description, reason.value));
      }
      return Done;
    }

    method UpdateDescription(description: Option<string>) returns (r: Outcome<()>)
      modifies this
      ensures r.Threw? <==> old(status) == MilestoneStatus.Completed
      ensures r.Threw? ==> r.error == DomainException("Cannot update description of completed milestone") && State() == old(State())
      ensures r.Returned? ==> State() == old(State()).(description := description)
      ensures old(Valid()) ==> Valid()
    {
      var _ :- Guard.Against(status == MilestoneStatus.Completed, "Cannot update description of completed milestone");
      this.description := description;
      return Done;
    }

    /** Needs a due day strictly after today; Delayed becomes Pending, other statuses stay. */
    method UpdateDueDate(newDueDate: Instant, today: Day) returns (r: Outcome<()>)
      modifies this
      ensures old(status) == MilestoneStatus.Completed ==> r == Threw(DomainException("Cannot update due date of completed milestone"))
      ensures old(status) != MilestoneStatus.Completed && DateOf(newDueDate) <= today ==> r == Threw(DomainException("Due date must be in the future"))
      ensures r.Returned? <==> old(status) != MilestoneStatus.Completed && DateOf(newDueDate) > today
      ensures r.Threw? ==> State() == old(State())
      ensures r.Returned? ==> State() == old(State()).(dueDate := DateOf(newDueDate),
                                                      status := if old(status) == Delayed then Pending else old(status))
      ensures old(Valid()) ==> Valid()
    {
      var _ :- Guard.Against(status == MilestoneStatus.Completed, "Cannot update due date of completed milestone");
      var _ :- Guard.Against(DateOf(newDueDate) <= today, "Due date must be in the future");
      dueDate := DateOf(newDueDate);
      if status == Delayed {
        status := Pending;
      }
      return Done;
    }

    method UpdatePaymentPercentage(newPercentage: real) returns (r: Outcome<()>)
      modifies this
      ensures old(status) == MilestoneStatus.Completed ==> r == Threw(DomainException("Cannot update payment percentage of completed milestone"))
      ensures old(status) != MilestoneStatus.Completed && !(0.0 <= newPercentage <= 100.0) ==> r == Threw(DomainException(PaymentMessage))
      ensures r.Returned? <==> old(status) != MilestoneStatus.Completed && 0.0 <= newPercentage <= 100.0
      ensures r.Threw? ==> State() == old(State())
      ensures r.Returned? ==> State() == old(State()).(paymentPercentage := newPercentage)
      ensures old(Valid()) ==> Valid()
    {
      var _ :- Guard.Against(status == MilestoneStatus.Completed, "Cannot update payment percentage of completed milestone");
      var _ :- Guard.Against(newPercentage < 0.0 || newPercentage > 100.0, PaymentMessage);
      paymentPercentage := newPercentage;
      return Done;
    }

    /** Back to Pending with completion date and deliverables cleared. */
    method Reset() returns (r: Outcome<()>)
      modifies this
      ensures r.Threw? <==> old(status) == MilestoneStatus.Completed
      ensures r.Threw? ==> r.error == DomainException("Cannot reset completed milestone") && State() == old(State())
      ensures r.Returned? ==> State() == old(State()).(status := Pending, completionDate := None, deliverables := None)
      ensures old(Valid()) ==> Valid()
    {
      var _ :- Guard.Against(status == MilestoneStatus.Completed, "Cannot reset completed milestone");
      status := Pending;
      completionDate := None;
      deliverables := None;
      return Done;
    }

    /** `CalculatePaymentAmount(budget)`: rejects a negative budget; the share lies in [0, budget]. */
    function CalculatePaymentAmount(projectBudget: real): (r: Outcome<real>)
      reads this
      ensures projectBudget < 0.0 ==> r == Threw(ArgumentException("projectBudget", "Value cannot be negative"))
      ensures projectBudget >= 0.0 ==> r.Returned? && r.value * 100.0 == projectBudget * paymentPercentage
      ensures projectBudget >= 0.0 && 0.0 <= paymentPercentage <= 100.0 ==> 0.0 <= r.value <= projectBudget
    {
      var _ :- Guard.AgainstNegative(projectBudget, "projectBudget");
      Returned(PaymentShare(projectBudget, paymentPercentage))
    }
  }

  /** `budget * percentage / 100`: for a percentage in [0,100] of a non-negative budget, a share in [0, budget]. */
  function PaymentShare(budget: real, percentage: real): (share: real)
    ensures share * 100.0 == budget * percentage
    ensures budget >= 0.0 && 0.0 <= percentage <= 100.0 ==> 0.0 <= share <= budget
  {
    if budget >= 0.0 && 0.0 <= percentage <= 100.0 then
      Arith.ScaledShare(budget, percentage);
      budget * percentage / 100.0
    else budget * percentage / 100.0
  }


  /**
   * The day counters agree with the overdue flag: a completed milestone is
   * never overdue and is due in zero days; a milestone that is not overdue
   * has zero days overdue; an overdue one is exactly as many days overdue as
   * its due date lies behind.
   */
  lemma OverdueCounters(m: ProjectMilestone, today: Day)
    ensures m.IsCompleted() ==> !m.IsOverdue(today) && m.DaysUntilDue(today) == 0
    ensures !m.IsOverdue(today) ==> m.DaysOverdue(today) == 0
    ensures m.IsOverdue(today) ==> m.DaysOverdue(today) == -m.DaysUntilDue(today) > 0
  {
  }
}
