// The allocation of one employee to one project over a period, with an
// hourly rate and an integer-arithmetic cost estimate.
module ProjectAssignmentEntity {
  import opened Core
  import opened Text
  import opened Calendar
  import opened DateRangeValue
  import Guard

  const AllocationMessage: string := "Allocation percentage must be between 1 and 100"

  /**
   * The checks of the constructor, in order: both Guids, the role, the
   * allocation and the hourly rate.  (The period is a value here and cannot
   * be null.)
   */
  function CheckNew(projectId: Guid, employeeId: Guid, role: string, allocationPercentage: int, hourlyRate: real): (r: Outcome<()>)
    ensures r.Returned? <==> projectId != EmptyGuid && employeeId != EmptyGuid && !IsBlank(role)
                             && 1 <= allocationPercentage <= 100 && hourlyRate >= 0.0
    ensures projectId == EmptyGuid ==> r == Threw(ArgumentException("projectId", "Guid cannot be empty"))
    ensures projectId != EmptyGuid && employeeId == EmptyGuid ==> r == Threw(ArgumentException("employeeId", "Guid cannot be empty"))
    ensures projectId != EmptyGuid && employeeId != EmptyGuid && IsBlank(role) ==>
              r == Threw(ArgumentException("role", "Value cannot be null or empty"))
    ensures projectId != EmptyGuid && employeeId != EmptyGuid && !IsBlank(role) && !(1 <= allocationPercentage <= 100) ==>
              r == Threw(DomainException(AllocationMessage))
    ensures projectId != EmptyGuid && employeeId != EmptyGuid && !IsBlank(role) && 1 <= allocationPercentage <= 100
              && hourlyRate < 0.0 ==>
              r == Threw(ArgumentException("hourlyRate", "Value cannot be negative"))
  {
    var _ :- Guard.AgainstInvalidGuid(projectId, "projectId");
    var _ :- Guard.AgainstInvalidGuid(employeeId, "employeeId");
    var _ :- Guard.AgainstNullOrEmpty(Some(role), "role");
    var _ :- Guard.Against(allocationPercentage <= 0 || allocationPercentage > 100, AllocationMessage);
    Guard.AgainstNegative(hourlyRate, "hourlyRate")
  }

  /**
   * The estimate of `CalculateEstimatedCost` for a period of
   * `durationInDays`: nothing without a positive rate; otherwise five
   * working days in seven, eight hours a day, scaled by the allocation,
   * both divisions being C# `int` divisions.
   */
  function EstimatedCost(durationInDays: int, allocationPercentage: int, hourlyRate: real): real
  {
    if hourlyRate <= 0.0 then 0.0
    else
      var workingDays := TruncDiv(durationInDays * 5, 7);
      var estimatedTotalHours := TruncDiv(workingDays * 8 * allocationPercentage, 100);
      estimatedTotalHours as real * hourlyRate
  }

  /** Without a positive rate the estimate is zero. */
  lemma CostWithoutRateIsZero(durationInDays: int, allocationPercentage: int, hourlyRate: real)
    requires hourlyRate <= 0.0
    ensures EstimatedCost(durationInDays, allocationPercentage, hourlyRate) == 0.0
  {
  }

  /**
   * For a period that has started, the estimate lies between zero and the
   * cost of eight hours on every calendar day.
   */
  lemma {:induction false} CostBounds(durationInDays: int, allocationPercentage: int, hourlyRate: real)
    requires durationInDays >= 0 && 1 <= allocationPercentage <= 100
    ensures 0.0 <= EstimatedCost(durationInDays, allocationPercentage, hourlyRate)
    ensures EstimatedCost(durationInDays, allocationPercentage, hourlyRate) <= (durationInDays * 8) as real * (if hourlyRate > 0.0 then hourlyRate else 0.0)
  {
    if hourlyRate > 0.0 {
      var w := TruncDiv(durationInDays * 5, 7);
      assert 0 <= w <= durationInDays;
      var p := w * 8 * allocationPercentage;
      assert 0 <= p <= w * 8 * 100 by {
        assert w * 8 >= 0;
        MulMonotone(w * 8, allocationPercentage, 100);
      }
      var h := TruncDiv(p, 100);
      assert 0 <= h <= w * 8 <= durationInDays * 8;
      RealMulMonotone(h as real, (durationInDays * 8) as real, hourlyRate);
    }
  }

  lemma MulMonotone(a: int, b: int, c: int)
    requires a >= 0 && 0 <= b <= c
    ensures 0 <= a * b <= a * c
  {
  }

  lemma RealMulMonotone(a: real, b: real, k: real)
    requires 0.0 <= a <= b && k >= 0.0
    ensures 0.0 <= a * k <= b * k
  {
  }

  /**
   * An open-ended assignment that starts in the future has a negative
   * duration, and with it a negative estimate: six days ahead at full
   * allocation and a rate of 1 costs -32.
   */
  lemma FutureOpenAssignmentCostsNegative()
    ensures DateRange(10, None).DurationInDays(4) == -5
    ensures EstimatedCost(DateRange(10, None).DurationInDays(3), 100, 1.0) == -32.0
  {
  }

  class ProjectAssignment {
    const id: Guid
    const projectId: Guid
    const employeeId: Guid
    const role: string
    const period: DateRange
    const createdAt: Instant
    var allocationPercentage: int
    var hourlyRate: real

    /** The invariant every constructed assignment keeps. */
    predicate Valid()
      reads this
    {
      1 <= allocationPercentage <= 100 && hourlyRate >= 0.0 && period.Valid()
      && projectId != EmptyGuid && employeeId != EmptyGuid
    }

    /** The constructor once its checks have passed; `id` and `now` stand for `Guid.NewGuid()` and `UtcNow`. */
    constructor (id: Guid, projectId: Guid, employeeId: Guid, role: string, allocationPercentage: int,
                 period: DateRange, hourlyRate: real, now: Instant)
      requires CheckNew(projectId, employeeId, role, allocationPercentage, hourlyRate).Returned?
      requires period.Valid()
      ensures Valid()
      ensures this.id == id && this.projectId == projectId && this.employeeId == employeeId && this.role == role
      ensures this.allocationPercentage == allocationPercentage && this.period == period
      ensures this.hourlyRate == hourlyRate && createdAt == now
    {
      this.id := id;
      this.projectId := projectId;
      this.employeeId := employeeId;
      this.role := role;
      this.allocationPercentage := allocationPercentage;
      this.period := period;
      this.hourlyRate := hourlyRate;
      this.createdAt := now;
    }

    /** `new ProjectAssignment(...)`: throws the first failing check, else a fresh valid assignment. */
    static method Create(id: Guid, projectId: Guid, employeeId: Guid, role: string, allocationPercentage: int,
                         period: DateRange, hourlyRate: real, now: Instant)
      returns (r: Outcome<ProjectAssignment>)
      requires period.Valid()
      ensures r.Threw? <==> CheckNew(projectId, employeeId, role, allocationPercentage, hourlyRate).Threw?
      ensures r.Threw? ==> r.error == CheckNew(projectId, employeeId, role, allocationPercentage, hourlyRate).error
      ensures r.Returned? ==> fresh(r.value) && r.value.Valid()
      ensures r.Returned? ==> r.value.id == id && r.value.projectId == projectId && r.value.employeeId == employeeId
                              && r.value.role == role && r.value.allocationPercentage == allocationPercentage
                              && r.value.period == period && r.value.hourlyRate == hourlyRate
    {
      var _ :- CheckNew(projectId, employeeId, role, allocationPercentage, hourlyRate);
      var a := new ProjectAssignment(id, projectId, employeeId, role, allocationPercentage, period, hourlyRate, now);
      return Returned(a);
    }

    /** `IsActiveOn(date)`: the period contains the date. */
    predicate IsActiveOn(date: Instant)
    {
      period.Contains(date)
    }

    /** `CalculateEstimatedCost(estimatedHours)`; the argument plays no part in the result. */
    function CalculateEstimatedCost(today: Day, estimatedHours: int := 160): real
      reads this
    {
      EstimatedCost(period.DurationInDays(today), allocationPercentage, hourlyRate)
    }

    /** Accepts exactly allocations in 1..100; changes nothing else. */
    method UpdateAllocation(newAllocationPercentage: int) returns (r: Outcome<()>)
      modifies this
      ensures r.Returned? <==> 1 <= newAllocationPercentage <= 100
      ensures r.Threw? ==> r.error == DomainException(AllocationMessage) && allocationPercentage == old(allocationPercentage)
      ensures r.Returned? ==> allocationPercentage == newAllocationPercentage
      ensures hourlyRate == old(hourlyRate)
      ensures old(Valid()) ==> Valid()
    {
      var _ :- Guard.Against(newAllocationPercentage <= 0 || newAllocationPercentage > 100, AllocationMessage);
      allocationPercentage := newAllocationPercentage;
      return Done;
    }

    /** Accepts exactly non-negative rates; changes nothing else. */
    method UpdateRate(newHourlyRate: real) returns (r: Outcome<()>)
      modifies this
      ensures r.Returned? <==> newHourlyRate >= 0.0
      ensures r.Threw? ==> r.error == ArgumentException("newHourlyRate", "Value cannot be negative") && hourlyRate == old(hourlyRate)
      ensures r.Returned? ==> hourlyRate == newHourlyRate
      ensures allocationPercentage == old(allocationPercentage)
      ensures old(Valid()) ==> Valid()
    {
      var _ :- Guard.AgainstNegative(newHourlyRate, "newHourlyRate");
      hourlyRate := newHourlyRate;
      return Done;
    }
  }

  /** The estimate of an assignment does not depend on the `estimatedHours` argument. */
  lemma EstimatedHoursIgnored(a: ProjectAssignment, today: Day, h1: int, h2: int)
    ensures a.CalculateEstimatedCost(today, h1) == a.CalculateEstimatedCost(today, h2)
  {
  }

  /** `IsActiveOn` is exactly membership in the period. */
  lemma IsActiveOnIsContains(a: ProjectAssignment, date: Instant)
    ensures a.IsActiveOn(date) <==> a.period.startDate <= DateOf(date) && (a.period.endDate.None? || DateOf(date) <= a.period.endDate.value)
  {
  }
}
