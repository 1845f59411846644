// Hours an employee logged on a project for one day.  Until it is approved
// an entry can be edited; approval is final, since every changing
// operation, rejection included, throws on an approved entry.
module TimeEntryEntity {
  import opened Core
  import opened Calendar
  import opened Abstractions
  import opened DomainEvents
  import Guard

  const HoursMessage: string := "Hours must be between 0 and 24"

  /** Logged hours lie in (0,24]. */
  predicate HoursInRange(hours: real)
  {
    0.0 < hours <= 24.0
  }

  /** The checks of the constructor after the tenant check: both Guids, the hours, a date not after today. */
  function CheckNew(employeeId: Guid, projectId: Guid, date: Instant, hours: real, today: Day): (r: Outcome<()>)
    ensures r.Returned? <==> employeeId != EmptyGuid && projectId != EmptyGuid && HoursInRange(hours) && DateOf(date) <= today
    ensures employeeId == EmptyGuid ==> r == Threw(ArgumentException("employeeId", "Guid cannot be empty"))
    ensures employeeId != EmptyGuid && projectId == EmptyGuid ==> r == Threw(ArgumentException("projectId", "Guid cannot be empty"))
    ensures employeeId != EmptyGuid && projectId != EmptyGuid && !HoursInRange(hours) ==> r == Threw(DomainException(HoursMessage))
    ensures employeeId != EmptyGuid && projectId != EmptyGuid && HoursInRange(hours) && DateOf(date) > today ==>
              r == Threw(DomainException("Cannot log time for future dates"))
  {
    var _ :- Guard.AgainstInvalidGuid(employeeId, "employeeId");
    var _ :- Guard.AgainstInvalidGuid(projectId, "projectId");
    var _ :- Guard.Against(hours <= 0.0 || hours > 24.0, HoursMessage);
    Guard.Against(DateOf(date) > today, "Cannot log time for future dates")
  }

  /** The mutable fields of an entry. */
  datatype EntryState = EntryState(
    hours: real, taskDescription: Option<string>, billable: bool,
    approved: bool, approvedBy: Option<Guid>, approvedAt: Option<Instant>)

  class TimeEntry {
    const base: BaseEntity<DomainEvent>
    const employeeId: Guid
    const projectId: Guid
    const date: Day
    var hours: real
    var taskDescription: Option<string>
    var billable: bool
    var approved: bool
    var approvedBy: Option<Guid>
    var approvedAt: Option<Instant>

    /** Hours in range; an approver and an approval time are recorded exactly for approved entries. */
    predicate Valid()
      reads this
    {
      HoursInRange(hours)
      && (approved <==> approvedBy.Some?)
      && (approved <==> approvedAt.Some?)
      && (approvedBy.Some? ==> approvedBy.value != EmptyGuid)
    }

    function State(): EntryState
      reads this
    {
      EntryState(hours, taskDescription, billable, approved, approvedBy, approvedAt)
    }

    constructor (base: BaseEntity<DomainEvent>, employeeId: Guid, projectId: Guid, date: Instant, hours: real,
                 taskDescription: Option<string>, billable: bool)
      requires HoursInRange(hours)
      ensures this.base == base && this.employeeId == employeeId && this.projectId == projectId && this.date == DateOf(date)
      ensures State() == EntryState(hours, taskDescription, billable, false, None, None)
      ensures Valid()
    {
      this.base := base;
      this.employeeId := employeeId;
      this.projectId := projectId;
      this.date := DateOf(date);
      this.hours := hours;
      this.taskDescription := taskDescription;
      this.billable := billable;
      this.approved := false;
      this.approvedBy := None;
      this.approvedAt := None;
    }

    /** `new TimeEntry(tenantId, employeeId, projectId, date, hours, taskDescription, billable)`: unapproved, dated by day. */
    static method Create(tenantId: string, id: Guid, now: Instant, today: Day, employeeId: Guid, projectId: Guid,
                         date: Instant, hours: real, taskDescription: Option<string>, billable: bool)
      returns (r: Outcome<TimeEntry>)
      ensures CheckTenant(tenantId).Threw? ==> r == Threw(CheckTenant(tenantId).error)
      ensures CheckTenant(tenantId).Returned? ==> (r.Threw? <==> CheckNew(employeeId, projectId, date, hours, today).Threw?)
      ensures CheckTenant(tenantId).Returned? && r.Threw? ==> r.error == CheckNew(employeeId, projectId, date, hours, today).error
      ensures r.Returned? ==> fresh(r.value) && fresh(r.value.base) && r.value.Valid()
      ensures r.Returned? ==> r.value.base.id == id && r.value.employeeId == employeeId && r.value.projectId == projectId
      ensures r.Returned? ==> r.value.date == DateOf(date) && r.value.date <= today
      ensures r.Returned? ==> r.value.State() == EntryState(hours, taskDescription, billable, false, None, None)
    {
      var b :- BaseEntity<DomainEvent>.Create(tenantId, id, now);
      var _ :- CheckNew(employeeId, projectId, date, hours, today);
      var e := new TimeEntry(b, employeeId, projectId, date, hours, taskDescription, billable);
      return Returned(e);
    }

    method UpdateHours(newHours: real, now: Instant) returns (r: Outcome<()>)
      requires Valid()
      modifies this, base
      ensures Valid() && base.domainEvents == old(base.domainEvents)
      ensures old(approved) ==> r == Threw(DomainException("Cannot update approved time entry"))
      ensures !old(approved) && !HoursInRange(newHours) ==> r == Threw(DomainException(HoursMessage))
      ensures r.Returned? <==> !old(approved) && HoursInRange(newHours)
      ensures r.Threw? ==> State() == old(State()) && base.updatedAt == old(base.updatedAt)
      ensures r.Returned? ==> State() == old(State()).(hours := newHours) && base.updatedAt == now
    {
      var _ :- Guard.Against(approved, "Cannot update approved time entry");
      var _ :- Guard.Against(newHours <= 0.0 || newHours > 24.0, HoursMessage);
      hours := newHours;
      base.UpdateTimestamp(now);
      return Done;
    }

    method UpdateDescription(description: Option<string>, now: Instant) returns (r: Outcome<()>)
      requires Valid()
      modifies this, base
      ensures Valid() && base.domainEvents == old(base.domainEvents)
      ensures r.Returned? <==> !old(approved)
      ensures r.Threw? ==> r.error == DomainException("Cannot update approved time entry")
      ensures r.Threw? ==> State() == old(State()) && base.updatedAt == old(base.updatedAt)
      ensures r.Returned? ==> State() == old(State()).(taskDescription := description) && base.updatedAt == now
    {
      var _ :- Guard.Against(approved, "Cannot update approved time entry");
      taskDescription := description;
      base.UpdateTimestamp(now);
      return Done;
    }

    /** Approves an unapproved entry, recording who approved it and when. */
    method Approve(approver: Guid, now: Instant) returns (r: Outcome<()>)
      requires Valid()
      modifies this, base
      ensures Valid() && base.domainEvents == old(base.domainEvents)
      ensures old(approved) ==> r == Threw(DomainException("Time entry is already approved"))
      ensures !old(approved) && approver == EmptyGuid ==> r == Threw(ArgumentException("approvedBy", "Guid cannot be empty"))
      ensures r.Returned? <==> !old(approved) && approver != EmptyGuid
      ensures r.Threw? ==> State() == old(State()) && base.updatedAt == old(base.updatedAt)
      ensures r.Returned? ==> State() == old(State()).(approved := true, approvedBy := Some(approver), approvedAt := Some(now))
      ensures r.Returned? ==> base.updatedAt == now
    {
      var _ :- Guard.Against(approved, "Time entry is already approved");
      var _ :- Guard.AgainstInvalidGuid(approver, "approvedBy");
      approved := true;
      approvedBy := Some(approver);
      approvedAt := Some(now);
      base.UpdateTimestamp(now);
      return Done;
    }

    /**
     * `Reject()` throws on an APPROVED entry.  On an unapproved one it
     * re-asserts the unapproved state, which changes nothing but the
     * timestamp; an approval can therefore never be withdrawn.
     */
    method Reject(now: Instant) returns (r: Outcome<()>)
      requires Valid()
      modifies this, base
      ensures Valid() && base.domainEvents == old(base.domainEvents)
      ensures r.Returned? <==> !old(approved)
      ensures r.Threw? ==> r.error == DomainException("Cannot reject approved time entry")
      ensures r.Threw? ==> State() == old(State()) && base.updatedAt == old(base.updatedAt)
      ensures r.Returned? ==> State() == old(State()) && !approved && approvedBy.None? && approvedAt.None? && base.updatedAt == now
    {
      var _ :- Guard.Against(approved, "Cannot reject approved time entry");
      approved := false;
      approvedBy := None;
      approvedAt := None;
      base.UpdateTimestamp(now);
      return Done;
    }

    method SetBillable(billable: bool, now: Instant) returns (r: Outcome<()>)
      requires Valid()
      modifies this, base
      ensures Valid() && base.domainEvents == old(base.domainEvents)
      ensures r.Returned? <==> !old(approved)
      ensures r.Threw? ==> r.error == DomainException("Cannot change billability of approved time entry")
      ensures r.Threw? ==> State() == old(State()) && base.updatedAt == old(base.updatedAt)
      ensures r.Returned? ==> State() == old(State()).(billable := billable) && base.updatedAt == now
    {
      var _ :- Guard.Against(approved, "Cannot change billability of approved time entry");
      this.billable := billable;
      base.UpdateTimestamp(now);
      return Done;
    }

    /** `CalculateCost(hourlyRate)`: rejects a negative rate, otherwise hours times rate. */
    function CalculateCost(hourlyRate: real): (r: Outcome<real>)
      reads this
      ensures r.Returned? <==> hourlyRate >= 0.0
      ensures r.Threw? ==> r.error == ArgumentException("hourlyRate", "Value cannot be negative")
      ensures r.Returned? ==> r.value == hours * hourlyRate
      ensures r.Returned? && HoursInRange(hours) ==> 0.0 <= r.value <= 24.0 * hourlyRate
    {
      var _ :- Guard.AgainstNegative(hourlyRate, "hourlyRate");
      CostBound(hours, hourlyRate);
      Returned(hours * hourlyRate)
    }

    /** `IsEditableBy(userId)`: unapproved, and the user is the employee or the recorded approver. */
    predicate IsEditableBy(userId: Guid)
      reads this
    {
      !approved && (employeeId == userId || approvedBy == Some(userId))
    }
  }

  lemma CostBound(hours: real, rate: real)
    requires rate >= 0.0
    ensures 0.0 < hours <= 24.0 ==> 0.0 <= hours * rate <= 24.0 * rate
  {
  }

  /**
   * Nobody may edit an approved entry, and since an unapproved entry has no
   * recorded approver, an unapproved entry is editable by its employee alone.
   */
  lemma EditableOnlyByOwnerWhileUnapproved(e: TimeEntry, userId: Guid)
    requires e.Valid()
    ensures e.approved ==> !e.IsEditableBy(userId)
    ensures e.IsEditableBy(userId) <==> !e.approved && userId == e.employeeId
  {
  }
}
