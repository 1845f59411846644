// A client project: a status machine, the employees assigned to it (no
// employee twice over overlapping periods), its payment milestones inside
// the project period, a set of technologies distinct up to case, a budget,
// and the derived progress and cost figures.
module ProjectEntity {
  import opened Core
  import opened Text
  import opened Calendar
  import opened Enums
  import opened DateRangeValue
  import opened MoneyValue
  import opened ProjectCodeValue
  import opened Abstractions
  import opened DomainEvents
  import opened ProjectAssignmentEntity
  import opened ProjectMilestoneEntity
  import Guard
  import Arith

  /* ---------------- status machine ---------------- */

  /** The transition table of `ValidateStatusTransition`. */
  predicate CanTransition(from: ProjectStatus, to: ProjectStatus)
  {
    match from
    case Planning => to == ProjectStatus.Active || to == ProjectStatus.Cancelled
    case Active => to == OnHold || to == ProjectStatus.Completed || to == ProjectStatus.Cancelled
    case OnHold => to == ProjectStatus.Active || to == ProjectStatus.Cancelled
    case Completed => false
    case Cancelled => false
  }

  function ValidateStatusTransition(from: ProjectStatus, to: ProjectStatus): (r: Outcome<()>)
    ensures r.Returned? <==> CanTransition(from, to)
    ensures r.Threw? ==> r.error == BusinessRuleViolation("INVALID_STATUS_TRANSITION",
                                       "Cannot change project status from " + from.Name() + " to " + to.Name())
  {
    if CanTransition(from, to) then Done
    else Threw(BusinessRuleViolation("INVALID_STATUS_TRANSITION",
                                     "Cannot change project status from " + from.Name() + " to " + to.Name()))
  }

  /**
   * The shape of the table: no status moves to itself, Completed and
   * Cancelled are terminal, every live status can be cancelled, and only an
   * Active project can complete.
   */
  lemma TransitionTableShape(s: ProjectStatus, t: ProjectStatus)
    ensures !CanTransition(s, s)
    ensures s == ProjectStatus.Completed || s == ProjectStatus.Cancelled ==> !CanTransition(s, t)
    ensures CanTransition(s, ProjectStatus.Cancelled) <==> s == Planning || s == ProjectStatus.Active || s == OnHold
    ensures CanTransition(s, ProjectStatus.Completed) <==> s == ProjectStatus.Active
    ensures !CanTransition(s, Planning)
  {
  }

  /* ---------------- assignments ---------------- */

  /** Some assignment of `employeeId` has a period overlapping `period`. */
  predicate HasConflict(assignments: seq<ProjectAssignment>, employeeId: Guid, period: DateRange)
  {
    exists i :: 0 <= i < |assignments| && assignments[i].employeeId == employeeId && assignments[i].period.Overlaps(period)
  }

  /** No employee is assigned twice over overlapping periods. */
  predicate NoDoubleBooking(assignments: seq<ProjectAssignment>)
  {
    forall i, j :: 0 <= i < j < |assignments| && assignments[i].employeeId == assignments[j].employeeId ==>
      !assignments[i].period.Overlaps(assignments[j].period)
  }

  const DoubleBookingMessage: string := "Employee is already assigned to this project during the specified period"

  /** The checks `AssignEmployee` runs before it builds the assignment. */
  function CheckAssign(assignments: seq<ProjectAssignment>, employeeId: Guid, role: string,
                       allocationPercentage: int, period: DateRange): (r: Outcome<()>)
    ensures r.Returned? <==> employeeId != EmptyGuid && !IsBlank(role) && 1 <= allocationPercentage <= 100
                             && !HasConflict(assignments, employeeId, period)
    ensures employeeId == EmptyGuid ==> r == Threw(ArgumentException("employeeId", "Guid cannot be empty"))
    ensures employeeId != EmptyGuid && IsBlank(role) ==> r == Threw(ArgumentException("role", "Value cannot be null or empty"))
    ensures employeeId != EmptyGuid && !IsBlank(role) && !(1 <= allocationPercentage <= 100) ==>
              r == Threw(DomainException(AllocationMessage))
    ensures employeeId != EmptyGuid && !IsBlank(role) && 1 <= allocationPercentage <= 100 && HasConflict(assignments, employeeId, period) ==>
              r == Threw(DomainException(DoubleBookingMessage))
  {
    var _ :- Guard.AgainstInvalidGuid(employeeId, "employeeId");
    var _ :- Guard.AgainstNullOrEmpty(Some(role), "role");
    var _ :- Guard.Against(allocationPercentage <= 0 || allocationPercentage > 100, AllocationMessage);
    Guard.Against(HasConflict(assignments, employeeId, period), DoubleBookingMessage)
  }

  /** Appending an assignment that does not conflict keeps the project free of double bookings. */
  lemma AppendWithoutConflict(assignments: seq<ProjectAssignment>, a: ProjectAssignment)
    requires NoDoubleBooking(assignments) && !HasConflict(assignments, a.employeeId, a.period)
    ensures NoDoubleBooking(assignments + [a])
  {
    var s := assignments + [a];
    forall i, j | 0 <= i < j < |s| && s[i].employeeId == s[j].employeeId
      ensures !s[i].period.Overlaps(s[j].period)
    {
      if j == |assignments| {
        assert s[i] == assignments[i];
      } else {
        assert s[i] == assignments[i] && s[j] == assignments[j];
      }
    }
  }

  /** `Sum(a => a.CalculateEstimatedCost())` over the assignments with a positive hourly rate. */
  function SumEstimatedCost(assignments: seq<ProjectAssignment>, today: Day): real
    reads assignments
  {
    if assignments == [] then 0.0
    else (if assignments[0].hourlyRate > 0.0 then assignments[0].CalculateEstimatedCost(today) else 0.0)
         + SumEstimatedCost(assignments[1..], today)
  }

  /** Once every assignment has started, the summed estimate is not negative. */
  lemma {:induction false} SumEstimatedCostNonNegative(assignments: seq<ProjectAssignment>, today: Day)
    requires forall a :: a in assignments ==> a.Valid() && a.period.startDate <= today
    ensures SumEstimatedCost(assignments, today) >= 0.0
    decreases |assignments|
  {
    if assignments != [] {
      var a := assignments[0];
      assert a in assignments;
      var d := a.period.DurationInDays(today);
      assert d >= 0;
      CostBounds(d, a.allocationPercentage, a.hourlyRate);
      SumEstimatedCostNonNegative(assignments[1..], today);
    }
  }

  /* ---------------- milestones ---------------- */

  /** `_milestones.Count(m => m.IsCompleted)`. */
  function CountCompleted(milestones: seq<ProjectMilestone>): (n: nat)
    reads milestones
    ensures n <= |milestones|
  {
    if milestones == [] then 0
    else (if milestones[0].status == MilestoneStatus.Completed then 1 else 0) + CountCompleted(milestones[1..])
  }

  /** The milestone-window checks of `AddMilestone`; the due date keeps its time of day here. */
  function CheckMilestoneWindow(period: DateRange, dueDate: Instant): (r: Outcome<()>)
    ensures r.Returned? <==> StartOf(period.startDate) <= dueDate && (period.endDate.None? || dueDate <= StartOf(period.endDate.value))
    ensures dueDate < StartOf(period.startDate) ==> r == Threw(DomainException("Milestone due date cannot be before project start"))
    ensures StartOf(period.startDate) <= dueDate && period.endDate.Some? && dueDate > StartOf(period.endDate.value) ==>
              r == Threw(DomainException("Milestone due date cannot be after project end"))
  {
    var _ :- Guard.Against(dueDate < StartOf(period.startDate), "Milestone due date cannot be before project start");
    Guard.Against(period.endDate.Some? && dueDate > StartOf(period.endDate.value), "Milestone due date cannot be after project end")
  }

  /**
   * The end of the window is midnight of the last project day: a due date
   * at any later time on that day is rejected, while the same day at
   * midnight is accepted.
   */
  lemma LastDayAfterMidnightIsRejected(start: Day, end: Day, offset: nat)
    requires start <= end && 0 < offset < TicksPerDay
    ensures CheckMilestoneWindow(DateRange(start, Some(end)), StartOf(end)).Returned?
    ensures CheckMilestoneWindow(DateRange(start, Some(end)), StartOf(end) + offset).Threw?
    ensures DateOf(StartOf(end) + offset) == end
  {
    DateOfStartOf(end);
    assert StartOf(start) <= StartOf(end) by { StartOfMonotone(start, end); }
  }

  lemma StartOfMonotone(a: Day, b: Day)
    requires a <= b
    ensures StartOf(a) <= StartOf(b)
  {
  }

  /* ---------------- technologies ---------------- */

  /** The index of the first technology equal to `t` up to case. */
  function IndexOfTechnology(ts: seq<string>, t: string): (r: Option<nat>)
    ensures r.Some? ==> r.value < |ts| && EqualsIgnoreCase(ts[r.value], t)
    ensures r.Some? ==> forall k :: 0 <= k < r.value ==> !EqualsIgnoreCase(ts[k], t)
    ensures r.None? ==> forall k :: 0 <= k < |ts| ==> !EqualsIgnoreCase(ts[k], t)
  {
    if ts == [] then None
    else if EqualsIgnoreCase(ts[0], t) then Some(0)
    else
      var rest := IndexOfTechnology(ts[1..], t);
      if rest.Some? then Some(rest.value + 1) else None
  }

  /** No two technologies are equal up to case, and none is blank. */
  predicate DistinctTechnologies(ts: seq<string>)
  {
    (forall i, j :: 0 <= i < j < |ts| ==> !EqualsIgnoreCase(ts[i], ts[j]))
    && (forall i :: 0 <= i < |ts| ==> !IsBlank(ts[i]))
  }

  /** The list after `AddTechnology(t)` has passed its check: `t` is appended unless a match is present. */
  function WithTechnology(ts: seq<string>, t: string): (r: seq<string>)
    ensures IndexOfTechnology(ts, t).Some? ==> r == ts
    ensures IndexOfTechnology(ts, t).None? ==> r == ts + [t]
  {
    if IndexOfTechnology(ts, t).Some? then ts else ts + [t]
  }

  /** The list after `RemoveTechnology(t)` has passed its check: the first match, if any, is removed. */
  function WithoutTechnology(ts: seq<string>, t: string): (r: seq<string>)
    ensures IndexOfTechnology(ts, t).None? ==> r == ts
    ensures IndexOfTechnology(ts, t).Some? ==> |r| == |ts| - 1
    ensures IndexOfTechnology(ts, t).Some? ==>
              EqualsIgnoreCase(ts[IndexOfTechnology(ts, t).value], t)
              && multiset(r) + multiset([ts[IndexOfTechnology(ts, t).value]]) == multiset(ts)
  {
    var i := IndexOfTechnology(ts, t);
    if i.Some? then
      assert ts == ts[..i.value] + [ts[i.value]] + ts[i.value + 1..];
      ts[..i.value] + ts[i.value + 1..]
    else ts
  }

  /** After adding, a technology is present up to case; adding again changes nothing. */
  lemma AddTechnologyIdempotent(ts: seq<string>, t: string)
    ensures IndexOfTechnology(WithTechnology(ts, t), t).Some?
    ensures WithTechnology(WithTechnology(ts, t), t) == WithTechnology(ts, t)
  {
    var w := WithTechnology(ts, t);
    if IndexOfTechnology(ts, t).None? {
      assert w[|ts|] == t;
      assert EqualsIgnoreCase(w[|ts|], t);
    }
  }

  /** Adding a technology with no match and then removing it gives back the list. */
  lemma AddThenRemoveTechnology(ts: seq<string>, t: string)
    requires IndexOfTechnology(ts, t).None?
    ensures WithoutTechnology(WithTechnology(ts, t), t) == ts
  {
    var w := ts + [t];
    assert EqualsIgnoreCase(w[|ts|], t);
    assert forall k :: 0 <= k < |ts| ==> w[k] == ts[k];
    assert IndexOfTechnology(w, t) == Some(|ts|);
    assert w[..|ts|] == ts;
  }

  /** Adding a technology keeps the list distinct up to case. */
  lemma AddKeepsDistinct(ts: seq<string>, t: string)
    requires DistinctTechnologies(ts) && !IsBlank(t)
    ensures DistinctTechnologies(WithTechnology(ts, t))
  {
    if IndexOfTechnology(ts, t).None? {
      var w := ts + [t];
      forall i, j | 0 <= i < j < |w|
        ensures !EqualsIgnoreCase(w[i], w[j])
      {
        if j == |ts| {
          assert w[i] == ts[i];
        } else {
          assert w[i] == ts[i] && w[j] == ts[j];
        }
      }
    }
  }

  /** Removing a technology keeps the list distinct up to case. */
  lemma RemoveKeepsDistinct(ts: seq<string>, t: string)
    requires DistinctTechnologies(ts)
    ensures DistinctTechnologies(WithoutTechnology(ts, t))
  {
    var i := IndexOfTechnology(ts, t);
    if i.Some? {
      var k := i.value;
      var w := ts[..k] + ts[k + 1..];
      assert w == WithoutTechnology(ts, t);
      forall p | 0 <= p < |w|
        ensures w[p] == ts[if p < k then p else p + 1]
      {
      }
      forall p, q | 0 <= p < q < |w|
        ensures !EqualsIgnoreCase(w[p], w[q])
      {
        assert w[p] == ts[if p < k then p else p + 1];
        assert w[q] == ts[if q < k then q else q + 1];
      }
    }
  }

  /** In a list distinct up to case, removing a technology leaves no match for it. */
  lemma RemoveMakesAbsent(ts: seq<string>, t: string)
    requires DistinctTechnologies(ts)
    ensures IndexOfTechnology(WithoutTechnology(ts, t), t).None?
  {
    var i := IndexOfTechnology(ts, t);
    if i.Some? {
      var k := i.value;
      var w := ts[..k] + ts[k + 1..];
      forall p | 0 <= p < |w|
        ensures !EqualsIgnoreCase(w[p], t)
      {
        var j := if p < k then p else p + 1;
        assert w[p] == ts[j];
        if j < k {
          assert !EqualsIgnoreCase(ts[j], ts[k]);
        } else {
          assert !EqualsIgnoreCase(ts[k], ts[j]);
        }
      }
    }
  }

  /* ---------------- the entity ---------------- */

  /** The project's own mutable fields. */
  datatype ProjectState = ProjectState(
    name: string, description: Option<string>, status: ProjectStatus, budget: Money, profitMargin: real,
    assignments: seq<ProjectAssignment>, milestones: seq<ProjectMilestone>, technologies: seq<string>)

  /** The checks of the constructor after the tenant check: name, client, manager. */
  function CheckNewProject(name: string, clientId: Guid, managerId: Guid): (r: Outcome<()>)
    ensures r.Returned? <==> !IsBlank(name) && clientId != EmptyGuid && managerId != EmptyGuid
    ensures IsBlank(name) ==> r == Threw(ArgumentException("name", "Value cannot be null or empty"))
    ensures !IsBlank(name) && clientId == EmptyGuid ==> r == Threw(ArgumentException("clientId", "Guid cannot be empty"))
    ensures !IsBlank(name) && clientId != EmptyGuid && managerId == EmptyGuid ==>
              r == Threw(ArgumentException("managerId", "Guid cannot be empty"))
  {
    var _ :- Guard.AgainstNullOrEmpty(Some(name), "name");
    var _ :- Guard.AgainstInvalidGuid(clientId, "clientId");
    Guard.AgainstInvalidGuid(managerId, "managerId")
  }

  /** The `Budget` getter: a budget without a currency reads as the same amount in USD. */
  function EffectiveBudget(budget: Money): (r: Money)
    ensures r.amount == budget.amount
    ensures r.currency == (if budget.currency == "" then USD else budget.currency)
  {
    if budget.currency == "" then Money(budget.amount, USD) else budget
  }

  class Project {
    const base: BaseEntity<DomainEvent>
    const code: string
    const clientId: Guid
    const managerId: Guid
    const projectType: ProjectType
    const riskLevel: RiskLevel
    const period: DateRange
    var name: string
    var description: Option<string>
    var status: ProjectStatus
    var budget: Money
    var profitMargin: real
    var assignments: seq<ProjectAssignment>
    var milestones: seq<ProjectMilestone>
    var technologies: seq<string>

    /**
     * The invariant the operations keep: valid assignments and milestones of
     * this project, no employee booked twice over overlapping periods,
     * technologies distinct up to case, a profit margin in [0,100].
     */
    predicate Valid()
      reads this, assignments, milestones
    {
      (forall a :: a in assignments ==> a.Valid() && a.projectId == base.id)
      && NoDoubleBooking(assignments)
      && (forall m :: m in milestones ==> m.Valid() && m.projectId == base.id)
      && DistinctTechnologies(technologies)
      && 0.0 <= profitMargin <= 100.0
    }

    function State(): ProjectState
      reads this
    {
      ProjectState(name, description, status, budget, profitMargin, assignments, milestones, technologies)
    }

    constructor (base: BaseEntity<DomainEvent>, code: ProjectCode, name: string, clientId: Guid, managerId: Guid,
                 period: DateRange, budget: Money)
      ensures this.base == base && this.code == code.value && this.clientId == clientId && this.managerId == managerId
      ensures this.period == period && projectType == TimeAndMaterial && riskLevel == Medium
      ensures State() == ProjectState(name, None, Planning, budget, 0.0, [], [], [])
      ensures Valid()
    {
      this.base := base;
      this.code := code.value;
      this.clientId := clientId;
      this.managerId := managerId;
      this.projectType := TimeAndMaterial;
      this.riskLevel := Medium;
      this.period := period;
      this.name := name;
      this.description := None;
      this.status := Planning;
      this.budget := budget;
      this.profitMargin := 0.0;
      this.assignments := [];
      this.milestones := [];
      this.technologies := [];
    }

    /**
     * `new Project(tenantId, code, name, clientId, managerId, period, budget)`:
     * Planning, time and material, medium risk, zero USD when no budget is
     * given, and exactly one `ProjectCreated` event queued.
     */
    static method Create(tenantId: string, id: Guid, now: Instant, code: ProjectCode, name: string,
                         clientId: Guid, managerId: Guid, period: DateRange, budget: Option<Money>)
      returns (r: Outcome<Project>)
      ensures CheckTenant(tenantId).Threw? ==> r == Threw(CheckTenant(tenantId).error)
      ensures CheckTenant(tenantId).Returned? ==> (r.Threw? <==> CheckNewProject(name, clientId, managerId).Threw?)
      ensures CheckTenant(tenantId).Returned? && r.Threw? ==> r.error == CheckNewProject(name, clientId, managerId).error
      ensures r.Returned? ==> fresh(r.value) && fresh(r.value.base) && r.value.Valid()
      ensures r.Returned? ==> r.value.base.id == id && r.value.base.tenantId == tenantId && r.value.code == code.value
      ensures r.Returned? ==> r.value.projectType == TimeAndMaterial && r.value.riskLevel == Medium && r.value.period == period
      ensures r.Returned? ==> r.value.State() == ProjectState(name, None, Planning,
                                                              if budget.Some? then budget.value else Money(0.0, USD),
                                                              0.0, [], [], [])
      ensures r.Returned? ==> r.value.base.domainEvents == [ProjectCreated(now, id, name, clientId, tenantId)]
    {
      var b :- BaseEntity<DomainEvent>.Create(tenantId, id, now);
      var _ :- CheckNewProject(name, clientId, managerId);
      var p := new Project(b, code, name, clientId, managerId, period, if budget.Some? then budget.value else Money(0.0, USD));
      b.AddDomainEvent(ProjectCreated(now, id, name, clientId, tenantId));
      return Returned(p);
    }

    /** `Budget`: the stored amount, in USD when no currency was stored. */
    function Budget(): (m: Money)
      reads this
      ensures m.amount == budget.amount
      ensures m.currency != ""
      ensures budget.currency != "" ==> m == budget
    {
      EffectiveBudget(budget)
    }

    method UpdateBasicInfo(name: string, description: Option<string>, now: Instant) returns (r: Outcome<()>)
      requires Valid()
      modifies this, base
      ensures Valid() && base.domainEvents == old(base.domainEvents)
      ensures r.Returned? <==> !IsBlank(name)
      ensures r.Threw? ==> r.error == ArgumentException("name", "Value cannot be null or empty")
      ensures r.Threw? ==> State() == old(State()) && base.updatedAt == old(base.updatedAt)
      ensures r.Returned? ==> State() == old(State()).(name := name, description := description) && base.updatedAt == now
    {
      var _ :- Guard.AgainstNullOrEmpty(Some(name), "name");
      this.name := name;
      this.description := description;
      base.UpdateTimestamp(now);
      return Done;
    }

    method UpdateBudget(budget: Money, profitMargin: real, now: Instant) returns (r: Outcome<()>)
      requires Valid()
      modifies this, base
      ensures Valid() && base.domainEvents == old(base.domainEvents)
      ensures r.Returned? <==> 0.0 <= profitMargin <= 100.0
      ensures r.Threw? ==> r.error == DomainException("Profit margin must be between 0 and 100")
      ensures r.Threw? ==> State() == old(State()) && base.updatedAt == old(base.updatedAt)
      ensures r.Returned? ==> State() == old(State()).(budget := budget, profitMargin := profitMargin) && base.updatedAt == now
    {
      var _ :- Guard.Against(profitMargin < 0.0 || profitMargin > 100.0, "Profit margin must be between 0 and 100");
      this.budget := budget;
      this.profitMargin := profitMargin;
      base.UpdateTimestamp(now);
      return Done;
    }

    method ChangeStatus(newStatus: ProjectStatus, now: Instant) returns (r: Outcome<()>)
      requires Valid()
      modifies this, base
      ensures Valid() && base.domainEvents == old(base.domainEvents)
      ensures r.Returned? <==> CanTransition(old(status), newStatus)
      ensures r.Threw? ==> r.error == ValidateStatusTransition(old(status), newStatus).error
      ensures r.Threw? ==> State() == old(State()) && base.updatedAt == old(base.updatedAt)
      ensures r.Returned? ==> State() == old(State()).(status := newStatus) && base.updatedAt == now
    {
      var _ :- ValidateStatusTransition(status, newStatus);
      status := newStatus;
      base.UpdateTimestamp(now);
      return Done;
    }

    /**
     * Books an employee onto the project: the checks of `CheckAssign`, then
     * those of the assignment's own constructor (this project's id and the
     * hourly rate), then one assignment and one event are appended.
     */
    method AssignEmployee(employeeId: Guid, role: string, allocationPercentage: int, assignmentPeriod: DateRange,
                          hourlyRate: real, newId: Guid, now: Instant)
      returns (r: Outcome<()>)
      requires Valid() && assignmentPeriod.Valid()
      modifies this, base
      ensures Valid()
      ensures CheckAssign(old(assignments), employeeId, role, allocationPercentage, assignmentPeriod).Threw? ==>
                r == Threw(CheckAssign(old(assignments), employeeId, role, allocationPercentage, assignmentPeriod).error)
      ensures r.Returned? <==> CheckAssign(old(assignments), employeeId, role, allocationPercentage, assignmentPeriod).Returned?
                               && base.id != EmptyGuid && hourlyRate >= 0.0
      ensures CheckAssign(old(assignments), employeeId, role, allocationPercentage, assignmentPeriod).Returned? && r.Threw? ==>
                r.error == ProjectAssignmentEntity.CheckNew(base.id, employeeId, role, allocationPercentage, hourlyRate).error
      ensures r.Threw? ==> State() == old(State()) && base.updatedAt == old(base.updatedAt)
                           && base.domainEvents == old(base.domainEvents)
      ensures r.Returned? ==>
                |assignments| == |old(assignments)| + 1 && assignments[..|old(assignments)|] == old(assignments)
                && State() == old(State()).(assignments := assignments)
                && fresh(assignments[|old(assignments)|])
                && assignments[|old(assignments)|].employeeId == employeeId
                && assignments[|old(assignments)|].role == role
                && assignments[|old(assignments)|].allocationPercentage == allocationPercentage
                && assignments[|old(assignments)|].period == assignmentPeriod
                && assignments[|old(assignments)|].hourlyRate == hourlyRate
                && base.domainEvents == old(base.domainEvents) + [EmployeeAssignedToProject(now, base.id, employeeId, role,
                                                                                            allocationPercentage, base.tenantId)]
                && base.updatedAt == now
    {
      var _ :- CheckAssign(assignments, employeeId, role, allocationPercentage, assignmentPeriod);
      var a :- ProjectAssignment.Create(newId, base.id, employeeId, role, allocationPercentage, assignmentPeriod, hourlyRate, now);
      AppendWithoutConflict(assignments, a);
      assignments := assignments + [a];
      base.AddDomainEvent(EmployeeAssignedToProject(now, base.id, employeeId, role, allocationPercentage, base.tenantId));
      base.UpdateTimestamp(now);
      return Done;
    }

    /**
     * Adds a milestone due inside the project period: the name, the window,
     * then the milestone's own checks (this project's id and the payment
     * percentage).
     */
    method AddMilestone(name: string, dueDate: Instant, description: Option<string>, paymentPercentage: real,
                        newId: Guid, now: Instant)
      returns (r: Outcome<()>)
      requires Valid()
      modifies this, base
      ensures Valid() && base.domainEvents == old(base.domainEvents)
      ensures IsBlank(name) ==> r == Threw(ArgumentException("name", "Value cannot be null or empty"))
      ensures !IsBlank(name) && CheckMilestoneWindow(period, dueDate).Threw? ==> r == Threw(CheckMilestoneWindow(period, dueDate).error)
      ensures r.Returned? <==> !IsBlank(name) && CheckMilestoneWindow(period, dueDate).Returned?
                               && ProjectMilestoneEntity.CheckNew(base.id, name, paymentPercentage).Returned?
      ensures !IsBlank(name) && CheckMilestoneWindow(period, dueDate).Returned? && r.Threw? ==>
                r.error == ProjectMilestoneEntity.CheckNew(base.id, name, paymentPercentage).error
      ensures r.Threw? ==> State() == old(State()) && base.updatedAt == old(base.updatedAt)
      ensures r.Returned? ==>
                |milestones| == |old(milestones)| + 1 && milestones[..|old(milestones)|] == old(milestones)
                && State() == old(State()).(milestones := milestones)
                && fresh(milestones[|old(milestones)|])
                && milestones[|old(milestones)|].name == name
                && milestones[|old(milestones)|].State() == MilestoneState(description, DateOf(dueDate), None,
                                                                           paymentPercentage, Pending, None)
                && base.updatedAt == now
    {
      var _ :- Guard.AgainstNullOrEmpty(Some(name), "name");
      var _ :- CheckMilestoneWindow(period, dueDate);
      var m :- ProjectMilestone.Create(newId, base.id, name, dueDate, description, paymentPercentage, now);
      milestones := milestones + [m];
      base.UpdateTimestamp(now);
      return Done;
    }

    /** Appends the technology unless one equal up to case is present; only an append touches the timestamp. */
    method AddTechnology(technology: string, now: Instant) returns (r: Outcome<()>)
      requires Valid()
      modifies this, base
      ensures Valid() && base.domainEvents == old(base.domainEvents)
      ensures r.Returned? <==> !IsBlank(technology)
      ensures r.Threw? ==> r.error == ArgumentException("technology", "Value cannot be null or empty")
      ensures r.Threw? ==> State() == old(State())
      ensures r.Returned? ==> State() == old(State()).(technologies := WithTechnology(old(technologies), technology))
      ensures base.updatedAt == (if r.Returned? && IndexOfTechnology(old(technologies), technology).None? then now
                                 else old(base.updatedAt))
    {
      var _ :- Guard.AgainstNullOrEmpty(Some(technology), "technology");
      AddKeepsDistinct(technologies, technology);
      if IndexOfTechnology(technologies, technology).None? {
        technologies := technologies + [technology];
        base.UpdateTimestamp(now);
      }
      return Done;
    }

    /** Removes the first technology equal up to case; no match changes nothing. */
    method RemoveTechnology(technology: string, now: Instant) returns (r: Outcome<()>)
      requires Valid()
      modifies this, base
      ensures Valid() && base.domainEvents == old(base.domainEvents)
      ensures r.Returned? <==> !IsBlank(technology)
      ensures r.Threw? ==> r.error == ArgumentException("technology", "Value cannot be null or empty")
      ensures r.Threw? ==> State() == old(State())
      ensures r.Returned? ==> State() == old(State()).(technologies := WithoutTechnology(old(technologies), technology))
      ensures base.updatedAt == (if r.Returned? && IndexOfTechnology(old(technologies), technology).Some? then now
                                 else old(base.updatedAt))
    {
      var _ :- Guard.AgainstNullOrEmpty(Some(technology), "technology");
      RemoveKeepsDistinct(technologies, technology);
      var i := IndexOfTechnology(technologies, technology);
      if i.Some? {
        technologies := technologies[..i.value] + technologies[i.value + 1..];
        base.UpdateTimestamp(now);
      }
      return Done;
    }

    /**
     * `CalculateEstimatedCost()`: the summed estimate in USD.  Building the
     * `Money` throws when the sum is negative, which an assignment starting
     * after today can cause.
     */
    function CalculateEstimatedCost(today: Day): (r: Outcome<Money>)
      reads this, assignments
      ensures r.Returned? <==> SumEstimatedCost(assignments, today) >= 0.0
      ensures r.Returned? ==> r.value == Money(SumEstimatedCost(assignments, today), USD)
      ensures r.Threw? ==> r.error == ArgumentException("amount", "Value cannot be negative")
    {
      assert ToUpper(USD) == USD;
      assert !IsWhiteSpace(USD[0]);
      MoneyValue.Create(SumEstimatedCost(assignments, today), USD)
    }

    /** `CalculateProgress()`: the completed share of the milestones, in percent. */
    function CalculateProgress(): (r: real)
      reads this, milestones
      ensures milestones == [] ==> r == 0.0
      ensures milestones != [] ==> r == CountCompleted(milestones) as real / |milestones| as real * 100.0
    {
      if milestones == [] then 0.0
      else CountCompleted(milestones) as real / |milestones| as real * 100.0
    }

    /** `IsOverBudget()`: the estimate exceeds the budget amount. */
    function IsOverBudget(today: Day): (r: Outcome<bool>)
      reads this, assignments
      ensures r.Threw? <==> CalculateEstimatedCost(today).Threw?
      ensures r.Returned? ==> (r.value <==> SumEstimatedCost(assignments, today) > budget.amount)
    {
      var cost :- CalculateEstimatedCost(today);
      Returned(cost.amount > Budget().amount)
    }
  }

  /** Progress is a percentage: it lies in [0,100], and is 100 exactly when every milestone is completed. */
  lemma ProgressBounds(p: Project)
    ensures 0.0 <= p.CalculateProgress() <= 100.0
    ensures p.milestones != [] ==> (p.CalculateProgress() == 100.0 <==> CountCompleted(p.milestones) == |p.milestones|)
  {
    if p.milestones != [] {
      Arith.FractionOfWhole(CountCompleted(p.milestones) as real, |p.milestones| as real);
    }
  }

  /** Once every assignment has started, the estimated cost can be built and compared with the budget. */
  lemma EstimatedCostDefinedOnceStarted(p: Project, today: Day)
    requires p.Valid()
    requires forall a :: a in p.assignments ==> a.period.startDate <= today
    ensures p.CalculateEstimatedCost(today).Returned?
    ensures p.IsOverBudget(today).Returned?
  {
    SumEstimatedCostNonNegative(p.assignments, today);
  }
}
