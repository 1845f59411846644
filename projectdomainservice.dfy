// The project domain service: the rules that need more than one aggregate.
// The repositories it reads become parameters: a map from id to aggregate
// for each `GetByIdAsync`, and functions for the code-existence and
// hours-total queries.  Every public operation catches the exceptions of
// what it calls and reports them as a failed `Result`.
module ProjectDomainService {
  import opened Core
  import opened Text
  import opened Calendar
  import opened Enums
  import opened Results
  import opened DateRangeValue
  import opened MoneyValue
  import opened ProjectCodeValue
  import opened ProjectAssignmentEntity
  import opened ProjectMilestoneEntity
  import opened ProjectEntity
  import EmployeeEntity
  import Guard
  import Arith

  /** `GetTotalHoursByEmployeeAsync(employeeId, start, end, billableOnly)` of the time-entry repository. */
  type HoursQuery = (Guid, Instant, Instant, bool) -> real

  /** The `catch` block of a service call: an exception becomes a failure whose one error is `context` and the message. */
  function Caught<T>(context: string, o: Outcome<T>): (r: Result<T>)
    ensures o.Returned? ==> r == Success(o.value)
    ensures o.Threw? ==> r == Failure([context + o.error.Message()])
  {
    if o.Returned? then Succeed(o.value) else Fail(context + o.error.Message())
  }

  /** `whole > 0 ? (part / whole) * 100 : 0`, the shape of every rate the services report. */
  function PercentOf(part: real, whole: real): (r: real)
    ensures whole <= 0.0 ==> r == 0.0
    ensures whole > 0.0 ==> r * whole == part * 100.0
    ensures 0.0 <= part <= whole ==> 0.0 <= r <= 100.0
  {
    if whole > 0.0 then
      assert part / whole * whole == part;
      assert 0.0 <= part <= whole ==> part / whole <= 1.0;
      part / whole * 100.0
    else 0.0
  }

  /* ---------------- working days ---------------- */

  /** The Monday-to-Friday days from `first` to `last`, both included. */
  function WorkingDaysBetween(first: Day, last: Day): nat
    decreases last + 1 - first
  {
    if first > last then 0 else (if IsWeekend(first) then 0 else 1) + WorkingDaysBetween(first + 1, last)
  }

  /** `CalculateWorkingDays(startDate, endDate)`: walks the dates from start to end, counting the weekdays. */
  method CalculateWorkingDays(startDate: Instant, endDate: Instant) returns (days: int)
    ensures days == WorkingDaysBetween(DateOf(startDate), DateOf(endDate))
  {
    days := 0;
    var current: int := DateOf(startDate);
    var last := DateOf(endDate);
    while current <= last
      invariant current >= 0
      invariant days + WorkingDaysBetween(current, last) == WorkingDaysBetween(DateOf(startDate), last)
      decreases last + 1 - current
    {
      if !IsWeekend(current) {
        days := days + 1;
      }
      current := current + 1;
    }
  }

  /** No working days in an empty span, and never more than the calendar days of the span. */
  lemma {:induction false} WorkingDaysBounds(first: Day, last: Day)
    ensures last < first ==> WorkingDaysBetween(first, last) == 0
    ensures first <= last ==> WorkingDaysBetween(first, last) <= last - first + 1
    decreases last + 1 - first
  {
    if first <= last {
      WorkingDaysBounds(first + 1, last);
    }
  }

  /** Any seven consecutive days hold exactly five working days. */
  lemma FullWeekHasFiveWorkingDays(first: Day)
    ensures WorkingDaysBetween(first, first + 6) == 5
  {
    UnrollWeek(first);
    var w := DayOfWeek(first);
    DayOfWeekShift(first, 1);
    DayOfWeekShift(first, 2);
    DayOfWeekShift(first, 3);
    DayOfWeekShift(first, 4);
    DayOfWeekShift(first, 5);
    DayOfWeekShift(first, 6);
    assert w < 7;
  }

  lemma DayOfWeekShift(d: Day, k: nat)
    ensures DayOfWeek(d + k) == (DayOfWeek(d) + k) % 7
  {
  }

  /** Weekday flag of one day: 1 for Monday to Friday. */
  function Weekday(d: Day): nat
  {
    if IsWeekend(d) then 0 else 1
  }

  lemma UnrollWeek(first: Day)
    ensures WorkingDaysBetween(first, first + 6)
            == Weekday(first) + Weekday(first + 1) + Weekday(first + 2) + Weekday(first + 3)
               + Weekday(first + 4) + Weekday(first + 5) + Weekday(first + 6)
  {
    assert WorkingDaysBetween(first + 7, first + 6) == 0;
    assert WorkingDaysBetween(first + 6, first + 6) == Weekday(first + 6);
    assert WorkingDaysBetween(first + 5, first + 6) == Weekday(first + 5) + WorkingDaysBetween(first + 6, first + 6);
    assert WorkingDaysBetween(first + 4, first + 6) == Weekday(first + 4) + WorkingDaysBetween(first + 5, first + 6);
    assert WorkingDaysBetween(first + 3, first + 6) == Weekday(first + 3) + WorkingDaysBetween(first + 4, first + 6);
    assert WorkingDaysBetween(first + 2, first + 6) == Weekday(first + 2) + WorkingDaysBetween(first + 3, first + 6);
    assert WorkingDaysBetween(first + 1, first + 6) == Weekday(first + 1) + WorkingDaysBetween(first + 2, first + 6);
  }

  /* ---------------- unique project codes ---------------- */

  const CodeContext: string := "Error generating project code: "
  const TooManyCodesMessage: string := "Cannot generate unique project code. Too many projects for this month."

  /** The candidate tried after the `counter`-th collision: `PREFIX-YYYY-MM-NN`. */
  function SuffixedCandidate(prefix: string, targetDate: Instant, counter: nat): string
  {
    Candidate(prefix, targetDate) + "-" + FormatD2(counter)
  }

  /** What the retry loop yields from a given `counter` and current `code`; `taken` is `ExistsByCodeAsync`. */
  function RetryFrom(prefix: string, targetDate: Instant, taken: string -> bool, counter: nat, code: ProjectCode)
    : Result<ProjectCode>
    requires 1 <= counter <= 99
    decreases 99 - counter
  {
    if !taken(code.value) then Succeed(code)
    else
      var next := ProjectCodeValue.Create(SuffixedCandidate(prefix, targetDate, counter));
      if next.Threw? then Fail(CodeContext + next.error.Message())
      else if counter + 1 > 99 then Fail(TooManyCodesMessage)
      else RetryFrom(prefix, targetDate, taken, counter + 1, next.value)
  }

  /** The whole of `GenerateUniqueProjectCodeAsync`, as a value: prefix check, base code, then the retries. */
  function UniqueCodeResult(prefix: string, date: Option<Instant>, today: Day, taken: string -> bool)
    : Result<ProjectCode>
  {
    var guard := Guard.AgainstNullOrEmpty(Some(prefix), "prefix");
    if guard.Threw? then Fail(CodeContext + guard.error.Message())
    else
      var targetDate := if date.Some? then date.value else StartOf(today);
      var baseCode := Generate(prefix, targetDate);
      if baseCode.Threw? then Fail(CodeContext + baseCode.error.Message())
      else RetryFrom(prefix, targetDate, taken, 1, baseCode.value)
  }

  /** `GenerateUniqueProjectCodeAsync(prefix, date)`: the base code, retried with a counter while it is taken. */
  method GenerateUniqueProjectCode(prefix: string, date: Option<Instant>, today: Day, taken: string -> bool)
    returns (r: Result<ProjectCode>)
    ensures r == UniqueCodeResult(prefix, date, today, taken)
  {
    var guard := Guard.AgainstNullOrEmpty(Some(prefix), "prefix");
    if guard.Threw? {
      return Fail(CodeContext + guard.error.Message());
    }
    var targetDate := if date.Some? then date.value else StartOf(today);
    var baseCode := Generate(prefix, targetDate);
    if baseCode.Threw? {
      return Fail(CodeContext + baseCode.error.Message());
    }
    var counter := 1;
    var code := baseCode.value;
    while taken(code.value)
      invariant 1 <= counter <= 99
      invariant RetryFrom(prefix, targetDate, taken, counter, code) == UniqueCodeResult(prefix, date, today, taken)
      decreases 99 - counter
    {
      var next := ProjectCodeValue.Create(SuffixedCandidate(prefix, targetDate, counter));
      if next.Threw? {
        return Fail(CodeContext + next.error.Message());
      }
      code := next.value;
      counter := counter + 1;
      if counter > 99 {
        return Fail(TooManyCodesMessage);
      }
    }
    return Succeed(code);
  }

  /**
   * The retry never produces a code: the suffixed candidate does not match
   * the code pattern.  So the result is the base code when it is free, and
   * a failure naming the pattern when it is taken; no suffixed code is ever
   * returned.
   */
  lemma UniqueCodeIsBaseCodeOrFailure(prefix: string, date: Option<Instant>, today: Day, taken: string -> bool)
    requires !IsBlank(prefix)
    ensures var targetDate := if date.Some? then date.value else StartOf(today);
            var baseCode := Generate(prefix, targetDate);
            && (baseCode.Threw? ==> UniqueCodeResult(prefix, date, today, taken) == Fail(CodeContext + baseCode.error.Message()))
            && (baseCode.Returned? && !taken(baseCode.value.value) ==> UniqueCodeResult(prefix, date, today, taken) == Success(baseCode.value))
            && (baseCode.Returned? && taken(baseCode.value.value) ==>
                  UniqueCodeResult(prefix, date, today, taken) == Fail(CodeContext + PatternMessage))
  {
    var targetDate := if date.Some? then date.value else StartOf(today);
    SuffixedCodeNeverMatches(prefix, targetDate, 1);
    assert !IsBlank(SuffixedCandidate(prefix, targetDate, 1)) by {
      var s := SuffixedCandidate(prefix, targetDate, 1);
      assert s[|s| - 1] == FormatD2(1)[1];
    }
  }

  /** A successful generation returns a code that is not taken. */
  lemma {:induction false} RetryResultIsFree(prefix: string, targetDate: Instant, taken: string -> bool, counter: nat, code: ProjectCode)
    requires 1 <= counter <= 99
    ensures RetryFrom(prefix, targetDate, taken, counter, code).Success? ==>
              !taken(RetryFrom(prefix, targetDate, taken, counter, code).val.value)
    decreases 99 - counter
  {
    if taken(code.value) {
      var next := ProjectCodeValue.Create(SuffixedCandidate(prefix, targetDate, counter));
      if next.Returned? && counter + 1 <= 99 {
        RetryResultIsFree(prefix, targetDate, taken, counter + 1, next.value);
      }
    }
  }

  /* ---------------- assignment eligibility ---------------- */

  const AssignContext: string := "Error checking employee assignment: "

  /** The argument guards of `CanAssignEmployeeToProjectAsync`, in order. */
  function CheckAssignArguments(employeeId: Guid, projectId: Guid, period: Option<DateRange>, allocationPercentage: int)
    : (r: Outcome<()>)
    ensures r.Returned? <==> employeeId != EmptyGuid && projectId != EmptyGuid && period.Some? && 1 <= allocationPercentage <= 100
  {
    var _ :- Guard.AgainstInvalidGuid(employeeId, "employeeId");
    var _ :- Guard.AgainstInvalidGuid(projectId, "projectId");
    var _ :- Guard.AgainstNull(period, "period");
    Guard.Against(allocationPercentage <= 0 || allocationPercentage > 100, "Allocation percentage must be between 1 and 100")
  }

  /** `period.EndDate` as the `DateTime?` the employee query receives. */
  function EndInstant(period: DateRange): Option<Instant>
  {
    if period.endDate.Some? then Some(StartOf(period.endDate.value)) else None
  }

  /**
   * `CanAssignEmployeeToProjectAsync`: the first failing check, in the order
   * arguments, employee found, project found, employee Active, project open,
   * periods overlapping, enough free allocation; `Success(true)` otherwise.
   */
  method CanAssignEmployeeToProject(employeeId: Guid, projectId: Guid, period: Option<DateRange>, allocationPercentage: int,
                                    employees: map<Guid, EmployeeEntity.Employee>, projects: map<Guid, Project>)
    returns (r: Result<bool>)
    ensures r.Success? ==> r.val
    ensures CheckAssignArguments(employeeId, projectId, period, allocationPercentage).Threw? ==>
              r == Fail(AssignContext + CheckAssignArguments(employeeId, projectId, period, allocationPercentage).error.Message())
    ensures CheckAssignArguments(employeeId, projectId, period, allocationPercentage).Returned? ==>
              && (employeeId !in employees ==> r == Fail("Employee not found"))
              && (employeeId in employees && projectId !in projects ==> r == Fail("Project not found"))
              && (employeeId in employees && projectId in projects ==>
                    && (employees[employeeId].status != EmployeeStatus.Active ==> r == Fail("Employee is not active"))
                    && (employees[employeeId].status == EmployeeStatus.Active
                        && projects[projectId].status in {ProjectStatus.Completed, ProjectStatus.Cancelled} ==>
                          r == Fail("Cannot assign to completed or cancelled project"))
                    && (employees[employeeId].status == EmployeeStatus.Active
                        && projects[projectId].status !in {ProjectStatus.Completed, ProjectStatus.Cancelled}
                        && !projects[projectId].period.Overlaps(period.value) ==>
                          r == Fail("Assignment period does not overlap with project period"))
                    && (employees[employeeId].status == EmployeeStatus.Active
                        && projects[projectId].status !in {ProjectStatus.Completed, ProjectStatus.Cancelled}
                        && projects[projectId].period.Overlaps(period.value) ==>
                          var available := employees[employeeId].GetAvailableAllocation(StartOf(period.value.startDate), EndInstant(period.value));
                          && (available.Threw? ==> r == Fail(AssignContext + available.error.Message()))
                          && (available.Returned? && available.value < allocationPercentage ==>
                                r == Fail("Employee only has " + NatToString(available.value) + "% allocation available"))))
    ensures r.Success? <==>
              && CheckAssignArguments(employeeId, projectId, period, allocationPercentage).Returned?
              && employeeId in employees && projectId in projects
              && employees[employeeId].status == EmployeeStatus.Active
              && projects[projectId].status !in {ProjectStatus.Completed, ProjectStatus.Cancelled}
              && projects[projectId].period.Overlaps(period.value)
              && var available := employees[employeeId].GetAvailableAllocation(StartOf(period.value.startDate), EndInstant(period.value));
                 available.Returned? && available.value >= allocationPercentage
    ensures r.Success? ==> employees[employeeId].IsAvailableForProject(StartOf(period.value.startDate), EndInstant(period.value))
                           == Returned(true)
    ensures period.Some? && period.value.endDate == Some(period.value.startDate) ==> r.Failure?
  {
    var guards := CheckAssignArguments(employeeId, projectId, period, allocationPercentage);
    if guards.Threw? {
      return Fail(AssignContext + guards.error.Message());
    }
    if employeeId !in employees {
      return Fail("Employee not found");
    }
    if projectId !in projects {
      return Fail("Project not found");
    }
    var employee := employees[employeeId];
    var project := projects[projectId];
    if employee.status != EmployeeStatus.Active {
      return Fail("Employee is not active");
    }
    if project.status == ProjectStatus.Completed || project.status == ProjectStatus.Cancelled {
      return Fail("Cannot assign to completed or cancelled project");
    }
    if !project.period.Overlaps(period.value) {
      return Fail("Assignment period does not overlap with project period");
    }
    var start := StartOf(period.value.startDate);
    var end := EndInstant(period.value);
    var available := employee.GetAvailableAllocation(start, end);
    if available.Threw? {
      return Fail(AssignContext + available.error.Message());
    }
    if available.value < allocationPercentage {
      return Fail("Employee only has " + NatToString(available.value) + "% allocation available");
    }
    return Succeed(true);
  }

  /* ---------------- profitability ---------------- */

  const ProfitabilityContext: string := "Error calculating profitability: "

  /** What the service reports about a project's profitability. */
  datatype ProfitabilityReport = ProfitabilityReport(
    projectId: Guid, budget: Money, estimatedCosts: Money, actualCosts: Money, profitMargin: real,
    estimatedProfit: Money, actualProfit: Money, profitabilityPercentage: real, isOverBudget: bool,
    budgetUtilization: real)

  /** The billable hours booked by one assignment's employee over its period (an open period ends at `DateTime.MinValue`), times its rate. */
  function AssignmentActualCost(a: ProjectAssignment, hours: HoursQuery): real
    reads a
  {
    hours(a.employeeId, StartOf(a.period.startDate),
          if a.period.endDate.Some? then StartOf(a.period.endDate.value) else 0, true) * a.hourlyRate
  }

  /** The summed actual cost of a list of assignments. */
  function ActualCostOf(assignments: seq<ProjectAssignment>, hours: HoursQuery): real
    reads assignments
  {
    if assignments == [] then 0.0
    else ActualCostOf(assignments[..|assignments| - 1], hours) + AssignmentActualCost(assignments[|assignments| - 1], hours)
  }

  /** `CalculateActualProjectCostsAsync`: 0 for an unknown project, otherwise the assignments' costs added up one by one. */
  method CalculateActualProjectCosts(projectId: Guid, projects: map<Guid, Project>, hours: HoursQuery)
    returns (totalCost: real)
    ensures projectId !in projects ==> totalCost == 0.0
    ensures projectId in projects ==> totalCost == ActualCostOf(projects[projectId].assignments, hours)
  {
    if projectId !in projects {
      return 0.0;
    }
    var project := projects[projectId];
    var assignments := project.assignments;
    totalCost := 0.0;
    var i := 0;
    while i < |assignments|
      invariant 0 <= i <= |assignments|
      invariant totalCost == ActualCostOf(assignments[..i], hours)
    {
      var a := assignments[i];
      var totalHours := hours(a.employeeId, StartOf(a.period.startDate),
                              if a.period.endDate.Some? then StartOf(a.period.endDate.value) else 0, true);
      totalCost := totalCost + totalHours * a.hourlyRate;
      assert assignments[..i + 1][..i] == assignments[..i];
      i := i + 1;
    }
    assert assignments[..i] == assignments;
  }

  /** With non-negative hours and rates the actual cost is never negative. */
  lemma {:induction false} ActualCostNonNegative(assignments: seq<ProjectAssignment>, hours: HoursQuery)
    requires forall i :: 0 <= i < |assignments| ==> assignments[i].hourlyRate >= 0.0
    requires forall e, s, t, b :: hours(e, s, t, b) >= 0.0
    ensures ActualCostOf(assignments, hours) >= 0.0
  {
    if assignments != [] {
      var a := assignments[|assignments| - 1];
      ActualCostNonNegative(assignments[..|assignments| - 1], hours);
      var h := hours(a.employeeId, StartOf(a.period.startDate),
                     if a.period.endDate.Some? then StartOf(a.period.endDate.value) else 0, true);
      assert h >= 0.0 && a.hourlyRate >= 0.0;
      assert h * a.hourlyRate >= 0.0;
    }
  }

  /** `CalculateProfitabilityPercentage(budget, actualCosts)`: the share of the budget left, in percent; 0 for a zero budget. */
  function ProfitabilityPercentage(budget: real, actualCosts: real): real
  {
    if budget == 0.0 then 0.0 else (budget - actualCosts) / budget * 100.0
  }

  /**
   * The body of the `try` in `CalculateProjectProfitabilityAsync` once the
   * project is found: the estimate (which throws on a negative sum), the
   * actual cost as money in the budget's currency, and both profits, each
   * a `Money.Subtract` that throws when the cost exceeds the budget.
   */
  function ProfitabilityOf(projectId: Guid, project: Project, actualCosts: real, today: Day): Outcome<ProfitabilityReport>
    reads project, project.assignments
  {
    var estimatedCosts :- project.CalculateEstimatedCost(today);
    var budget := project.Budget();
    var actual :- MoneyValue.Create(actualCosts, budget.currency);
    var estimatedProfit :- budget.Subtract(estimatedCosts);
    var actualProfit :- budget.Subtract(actual);
    Returned(ProfitabilityReport(
      projectId, budget, estimatedCosts, actual, project.profitMargin, estimatedProfit, actualProfit,
      ProfitabilityPercentage(budget.amount, actualCosts), actualCosts > budget.amount,
      if budget.amount > 0.0 then actualCosts / budget.amount * 100.0 else 0.0))
  }

  /** `CalculateProjectProfitabilityAsync(projectId)`. */
  method CalculateProjectProfitability(projectId: Guid, projects: map<Guid, Project>, hours: HoursQuery, today: Day)
    returns (r: Result<ProfitabilityReport>)
    ensures projectId == EmptyGuid ==>
              r == Fail(ProfitabilityContext + ArgumentException("projectId", "Guid cannot be empty").Message())
    ensures projectId != EmptyGuid && projectId !in projects ==> r == Fail("Project not found")
    ensures projectId != EmptyGuid && projectId in projects ==>
              r == Caught(ProfitabilityContext,
                          ProfitabilityOf(projectId, projects[projectId], ActualCostOf(projects[projectId].assignments, hours), today))
  {
    var guard := Guard.AgainstInvalidGuid(projectId, "projectId");
    if guard.Threw? {
      return Fail(ProfitabilityContext + guard.error.Message());
    }
    if projectId !in projects {
      return Fail("Project not found");
    }
    var project := projects[projectId];
    var actualCosts := CalculateActualProjectCosts(projectId, projects, hours);
    r := Caught(ProfitabilityContext, ProfitabilityOf(projectId, project, actualCosts, today));
  }

  /**
   * Both profits are `Money.Subtract` results, so a report exists only when
   * neither cost exceeds the budget: over budget, the service fails, and a
   * report therefore never says `isOverBudget`.
   */
  lemma ProfitabilityFailsOverBudget(projectId: Guid, project: Project, actualCosts: real, today: Day)
    ensures var r := ProfitabilityOf(projectId, project, actualCosts, today);
            && (actualCosts > project.Budget().amount ==> r.Threw?)
            && (project.CalculateEstimatedCost(today).Returned? && project.CalculateEstimatedCost(today).value.amount > project.Budget().amount
                ==> r.Threw?)
            && (r.Returned? ==> !r.value.isOverBudget && 0.0 <= actualCosts <= r.value.budget.amount)
  {
  }

  /**
   * In a report on a positive budget the profitability percentage and the
   * budget utilization add up to 100; on a zero budget both are 0.
   */
  lemma ProfitabilityShares(projectId: Guid, project: Project, actualCosts: real, today: Day)
    requires ProfitabilityOf(projectId, project, actualCosts, today).Returned?
    ensures var rep := ProfitabilityOf(projectId, project, actualCosts, today).value;
            && (rep.budget.amount > 0.0 ==> rep.profitabilityPercentage + rep.budgetUtilization == 100.0)
            && (rep.budget.amount == 0.0 ==> rep.profitabilityPercentage == 0.0 && rep.budgetUtilization == 0.0)
            && 0.0 <= rep.budgetUtilization <= 100.0
  {
    var rep := ProfitabilityOf(projectId, project, actualCosts, today).value;
    var b := rep.budget.amount;
    if b > 0.0 {
      Arith.SharesAddUp(actualCosts, b);
      Arith.QuotientBounds(actualCosts, b);
    }
  }

  /* ---------------- resource utilization ---------------- */

  const UtilizationContext: string := "Error analyzing resource utilization: "

  /** One assigned employee's figures over the analysis period. */
  datatype EmployeeUtilization = EmployeeUtilization(
    employeeId: Guid, role: string, allocationPercentage: int, expectedHours: int,
    actualHours: real, billableHours: real, utilizationRate: real, billableRate: real)

  /** The figures of the loop body for one assignment: hours booked, hours expected from its allocation, and the two rates. */
  function UtilizationOf(a: ProjectAssignment, hours: HoursQuery, start: Instant, end: Instant): (u: EmployeeUtilization)
    reads a
    ensures u.employeeId == a.employeeId && u.allocationPercentage == a.allocationPercentage
    ensures u.actualHours == hours(a.employeeId, start, end, false) && u.billableHours == hours(a.employeeId, start, end, true)
    ensures u.expectedHours <= 0 ==> u.utilizationRate == 0.0
    ensures u.expectedHours > 0 ==> u.utilizationRate * u.expectedHours as real == u.actualHours * 100.0
    ensures u.actualHours <= 0.0 ==> u.billableRate == 0.0
    ensures u.actualHours > 0.0 ==> u.billableRate * u.actualHours == u.billableHours * 100.0
  {
    var totalHours := hours(a.employeeId, start, end, false);
    var billableHours := hours(a.employeeId, start, end, true);
    var workingDays := WorkingDaysBetween(DateOf(start), DateOf(end));
    var expectedHours := TruncDiv(workingDays * 8 * a.allocationPercentage, 100);
    EmployeeUtilization(a.employeeId, a.role, a.allocationPercentage, expectedHours, totalHours, billableHours,
                        PercentOf(totalHours, expectedHours as real), PercentOf(billableHours, totalHours))
  }

  /** The list the loop builds, one entry per assignment in order. */
  function UtilizationsOf(assignments: seq<ProjectAssignment>, hours: HoursQuery, start: Instant, end: Instant)
    : (us: seq<EmployeeUtilization>)
    reads assignments
    ensures |us| == |assignments|
    ensures forall i :: 0 <= i < |assignments| ==> us[i] == UtilizationOf(assignments[i], hours, start, end)
  {
    if assignments == [] then []
    else
      var n := |assignments| - 1;
      var front := assignments[..n];
      assert forall i :: 0 <= i < n ==> front[i] == assignments[i];
      UtilizationsOf(front, hours, start, end) + [UtilizationOf(assignments[n], hours, start, end)]
  }

  /** `Sum(e => f(e))`. */
  function SumOf(us: seq<EmployeeUtilization>, f: EmployeeUtilization -> real): real
  {
    if us == [] then 0.0 else f(us[0]) + SumOf(us[1..], f)
  }

  /** `Any() ? Average(e => f(e)) : 0`. */
  function MeanOf(us: seq<EmployeeUtilization>, f: EmployeeUtilization -> real): real
  {
    if us == [] then 0.0 else SumOf(us, f) / (|us| as real)
  }

  /** The analysis the service reports. */
  datatype UtilizationReport = UtilizationReport(
    projectId: Guid, analysisPeriod: DateRange, employeeUtilizations: seq<EmployeeUtilization>,
    averageUtilizationRate: real, averageBillableRate: real,
    totalExpectedHours: real, totalActualHours: real, totalBillableHours: real)

  function Summarize(projectId: Guid, period: DateRange, us: seq<EmployeeUtilization>): UtilizationReport
  {
    UtilizationReport(
      projectId, period, us,
      MeanOf(us, (u: EmployeeUtilization) => u.utilizationRate),
      MeanOf(us, (u: EmployeeUtilization) => u.billableRate),
      SumOf(us, (u: EmployeeUtilization) => u.expectedHours as real),
      SumOf(us, (u: EmployeeUtilization) => u.actualHours),
      SumOf(us, (u: EmployeeUtilization) => u.billableHours))
  }

  /** The analysis window: the given start, else the project start. */
  function AnalysisStart(project: Project, startDate: Option<Instant>): Instant
  {
    if startDate.Some? then startDate.value else StartOf(project.period.startDate)
  }

  /** The analysis window: the given end, else the project end, else today. */
  function AnalysisEnd(project: Project, endDate: Option<Instant>, today: Day): Instant
  {
    if endDate.Some? then endDate.value
    else if project.period.endDate.Some? then StartOf(project.period.endDate.value)
    else StartOf(today)
  }

  /** The `try` body once the project is found; the analysis period is built last, and throws unless the end is after the start. */
  function UtilizationReportOf(projectId: Guid, project: Project, start: Instant, end: Instant, hours: HoursQuery)
    : Outcome<UtilizationReport>
    reads project, project.assignments
  {
    var period :- DateRangeValue.Create(start, Some(end));
    Returned(Summarize(projectId, period, UtilizationsOf(project.assignments, hours, start, end)))
  }

  /** The `foreach` over the project's assignments, one entry per assignment. */
  method CollectUtilizations(assignments: seq<ProjectAssignment>, hours: HoursQuery, start: Instant, end: Instant)
    returns (utilizations: seq<EmployeeUtilization>)
    ensures utilizations == UtilizationsOf(assignments, hours, start, end)
  {
    utilizations := [];
    var i := 0;
    while i < |assignments|
      invariant 0 <= i <= |assignments|
      invariant utilizations == UtilizationsOf(assignments[..i], hours, start, end)
    {
      var a := assignments[i];
      var totalHours := hours(a.employeeId, start, end, false);
      var billableHours := hours(a.employeeId, start, end, true);
      var workingDays := CalculateWorkingDays(start, end);
      var expectedHours := TruncDiv(workingDays * 8 * a.allocationPercentage, 100);
      var u := EmployeeUtilization(
        a.employeeId, a.role, a.allocationPercentage, expectedHours, totalHours, billableHours,
        PercentOf(totalHours, expectedHours as real), PercentOf(billableHours, totalHours));
      assert u == UtilizationOf(a, hours, start, end);
      UtilizationsStep(assignments, i, hours, start, end);
      utilizations := utilizations + [u];
      i := i + 1;
    }
    assert assignments[..i] == assignments;
  }

  /** `AnalyzeProjectResourceUtilizationAsync(projectId, startDate, endDate)`. */
  method AnalyzeProjectResourceUtilization(projectId: Guid, startDate: Option<Instant>, endDate: Option<Instant>,
                                           projects: map<Guid, Project>, hours: HoursQuery, today: Day)
    returns (r: Result<UtilizationReport>)
    ensures projectId == EmptyGuid ==>
              r == Fail(UtilizationContext + ArgumentException("projectId", "Guid cannot be empty").Message())
    ensures projectId != EmptyGuid && projectId !in projects ==> r == Fail("Project not found")
    ensures projectId != EmptyGuid && projectId in projects ==>
              var p := projects[projectId];
              r == Caught(UtilizationContext,
                          UtilizationReportOf(projectId, p, AnalysisStart(p, startDate), AnalysisEnd(p, endDate, today), hours))
  {
    var guard := Guard.AgainstInvalidGuid(projectId, "projectId");
    if guard.Threw? {
      return Fail(UtilizationContext + guard.error.Message());
    }
    if projectId !in projects {
      return Fail("Project not found");
    }
    var project := projects[projectId];
    var start := AnalysisStart(project, startDate);
    var end := AnalysisEnd(project, endDate, today);
    var utilizations := CollectUtilizations(project.assignments, hours, start, end);
    var period := DateRangeValue.Create(start, Some(end));
    if period.Threw? {
      return Fail(UtilizationContext + period.error.Message());
    }
    return Succeed(Summarize(projectId, period.value, utilizations));
  }

  lemma UtilizationsStep(assignments: seq<ProjectAssignment>, i: nat, hours: HoursQuery, start: Instant, end: Instant)
    requires i < |assignments|
    ensures UtilizationsOf(assignments[..i + 1], hours, start, end)
            == UtilizationsOf(assignments[..i], hours, start, end) + [UtilizationOf(assignments[i], hours, start, end)]
  {
    assert assignments[..i + 1][..i] == assignments[..i];
  }

  /** A valid assignment expects between 0 and 8 hours per working day of the window. */
  lemma ExpectedHoursWithinCapacity(a: ProjectAssignment, hours: HoursQuery, start: Instant, end: Instant)
    requires a.Valid()
    ensures var u := UtilizationOf(a, hours, start, end);
            0 <= u.expectedHours <= 8 * WorkingDaysBetween(DateOf(start), DateOf(end))
  {
    var w := WorkingDaysBetween(DateOf(start), DateOf(end));
    var x := w * 8 * a.allocationPercentage;
    assert 0 <= x <= w * 8 * 100;
  }

  /** A sum of values that all lie in [lo, hi] lies in [n*lo, n*hi]. */
  lemma {:induction false} SumWithin(us: seq<EmployeeUtilization>, f: EmployeeUtilization -> real, lo: real, hi: real)
    requires forall i :: 0 <= i < |us| ==> lo <= f(us[i]) <= hi
    ensures (|us| as real) * lo <= SumOf(us, f) <= (|us| as real) * hi
  {
    if us != [] {
      assert forall i :: 0 <= i < |us| - 1 ==> us[1..][i] == us[i + 1];
      SumWithin(us[1..], f, lo, hi);
    }
  }

  /** An average of values that all lie in [lo, hi] lies in [lo, hi]. */
  lemma MeanWithin(us: seq<EmployeeUtilization>, f: EmployeeUtilization -> real, lo: real, hi: real)
    requires us != [] && forall i :: 0 <= i < |us| ==> lo <= f(us[i]) <= hi
    ensures lo <= MeanOf(us, f) <= hi
  {
    SumWithin(us, f, lo, hi);
    var n := |us| as real;
    var s := SumOf(us, f);
    assert n * lo <= s <= n * hi;
    assert s / n * n == s;
    if s / n < lo {
      assert s / n * n < lo * n;
    }
    if s / n > hi {
      assert s / n * n > hi * n;
    }
  }

  /**
   * When no employee's billable hours exceed their total hours, every
   * billable rate, and so the average billable rate, is a percentage.
   * Without assignments every average and total is 0.
   */
  lemma AverageBillableRateIsPercentage(projectId: Guid, period: DateRange, assignments: seq<ProjectAssignment>,
                                        hours: HoursQuery, start: Instant, end: Instant)
    requires forall e :: 0.0 <= hours(e, start, end, true) <= hours(e, start, end, false)
    ensures var rep := Summarize(projectId, period, UtilizationsOf(assignments, hours, start, end));
            0.0 <= rep.averageBillableRate <= 100.0
    ensures assignments == [] ==>
              Summarize(projectId, period, UtilizationsOf(assignments, hours, start, end))
              == UtilizationReport(projectId, period, [], 0.0, 0.0, 0.0, 0.0, 0.0)
  {
    var us := UtilizationsOf(assignments, hours, start, end);
    if us != [] {
      MeanWithin(us, (u: EmployeeUtilization) => u.billableRate, 0.0, 100.0);
    }
  }

  /* ---------------- completion assessment ---------------- */

  const AssessContext: string := "Error assessing project completion: "

  /**
   * `IsProjectOnSchedule(project)`: an open-ended or zero-length project is
   * on schedule; otherwise its progress may trail the elapsed share of its
   * period, in percent, by at most ten points.
   */
  predicate IsProjectOnSchedule(project: Project, today: Day)
    reads project, project.milestones
  {
    var period := project.period;
    if period.endDate.None? then true
    else
      var elapsed: int := today - period.startDate;
      var total: int := period.endDate.value - period.startDate;
      total == 0 || project.CalculateProgress() >= elapsed as real / total as real * 100.0 - 10.0
  }

  /**
   * A project is on schedule when it has no end date, before it starts, and
   * up to its end once every milestone is completed; and a project on
   * schedule on some day was on schedule on every earlier day.
   */
  lemma OnScheduleCases(p: Project, today: Day)
    ensures p.period.endDate.None? ==> IsProjectOnSchedule(p, today)
    ensures p.period.Valid() && today <= p.period.startDate ==> IsProjectOnSchedule(p, today)
    ensures p.period.Valid() && p.period.endDate.Some? && today <= p.period.endDate.value && p.CalculateProgress() == 100.0
            ==> IsProjectOnSchedule(p, today)
  {
    ProgressBounds(p);
    if p.period.Valid() && p.period.endDate.Some? {
      var elapsed: int := today - p.period.startDate;
      var total: int := p.period.endDate.value - p.period.startDate;
      if total != 0 {
        Arith.QuotientBounds(elapsed as real, total as real);
      }
    }
  }

  /** Being on schedule is kept when the day moves back. */
  lemma OnScheduleEarlier(p: Project, earlier: Day, later: Day)
    requires p.period.Valid() && earlier <= later
    ensures IsProjectOnSchedule(p, later) ==> IsProjectOnSchedule(p, earlier)
  {
    if p.period.endDate.Some? {
      var total: int := p.period.endDate.value - p.period.startDate;
      if total != 0 {
        var e1: int := earlier - p.period.startDate;
        var e2: int := later - p.period.startDate;
        Arith.QuotientMonotone(e1 as real, e2 as real, total as real);
      }
    }
  }

  /** `Milestones.Count(m => m.IsOverdue)`. */
  function CountOverdue(milestones: seq<ProjectMilestone>, today: Day): (n: nat)
    reads milestones
    ensures n <= |milestones|
  {
    if milestones == [] then 0
    else (if milestones[0].IsOverdue(today) then 1 else 0) + CountOverdue(milestones[1..], today)
  }

  /** An overdue milestone is never a completed one, so the two counts share the milestones. */
  lemma {:induction false} CompletedAndOverdueAreDisjoint(milestones: seq<ProjectMilestone>, today: Day)
    ensures CountCompleted(milestones) + CountOverdue(milestones, today) <= |milestones|
  {
    if milestones != [] {
      CompletedAndOverdueAreDisjoint(milestones[1..], today);
    }
  }

  const OverBudgetAdvice: string := "Project is over budget. " + "Consider cost optimization measures."
  const HighRiskAdvice: string := "High risk project requires " + "increased monitoring and risk mitigation."
  const BehindScheduleAdvice: string := "Project appears to be behind schedule. " + "Consider resource reallocation."

  /** The advice on overdue milestones, with their number. */
  function OverdueAdvice(overdue: nat): string
  {
    "There are " + NatToString(overdue) + " overdue milestones. Review project timeline."
  }

  /**
   * `GenerateProjectRecommendations(project)` from its four inputs: one piece
   * of advice for each problem, in the order over budget, overdue
   * milestones, high risk, behind schedule.
   */
  function Recommendations(overBudget: bool, overdue: nat, risk: RiskLevel, onSchedule: bool): (r: seq<string>)
    ensures |r| == (if overBudget then 1 else 0) + (if overdue > 0 then 1 else 0)
                   + (if risk == High then 1 else 0) + (if onSchedule then 0 else 1)
    ensures r == [] <==> !overBudget && overdue == 0 && risk != High && onSchedule
    ensures overBudget <==> |r| > 0 && r[0] == OverBudgetAdvice
    ensures !onSchedule <==> |r| > 0 && r[|r| - 1] == BehindScheduleAdvice
  {
    AdviceDistinct(overdue);
    (if overBudget then [OverBudgetAdvice] else [])
    + (if overdue > 0 then [OverdueAdvice(overdue)] else [])
    + (if risk == High then [HighRiskAdvice] else [])
    + (if onSchedule then [] else [BehindScheduleAdvice])
  }

  /** Each piece of advice appears exactly when its problem is present. */
  lemma AdviceMatchesProblems(overBudget: bool, overdue: nat, risk: RiskLevel, onSchedule: bool)
    ensures OverBudgetAdvice in Recommendations(overBudget, overdue, risk, onSchedule) <==> overBudget
    ensures overdue > 0 <==> OverdueAdvice(overdue) in Recommendations(overBudget, overdue, risk, onSchedule)
    ensures HighRiskAdvice in Recommendations(overBudget, overdue, risk, onSchedule) <==> risk == High
    ensures BehindScheduleAdvice in Recommendations(overBudget, overdue, risk, onSchedule) <==> !onSchedule
  {
    AdviceDistinct(overdue);
  }

  /** The four pieces of advice are pairwise different. */
  lemma AdviceDistinct(overdue: nat)
    ensures OverdueAdvice(overdue) !in {OverBudgetAdvice, HighRiskAdvice, BehindScheduleAdvice}
    ensures OverBudgetAdvice != HighRiskAdvice && OverBudgetAdvice != BehindScheduleAdvice
    ensures HighRiskAdvice != BehindScheduleAdvice
  {
    assert OverdueAdvice(overdue)[0] == 'T';
    assert OverBudgetAdvice[0] == 'P' && BehindScheduleAdvice[0] == 'P' && HighRiskAdvice[0] == 'H';
    assert OverBudgetAdvice[8] == 'i' && BehindScheduleAdvice[8] == 'a';
  }

  /** What the service reports about a project's chances of completion. */
  datatype CompletionAssessment = CompletionAssessment(
    projectId: Guid, currentStatus: ProjectStatus, progress: real, isOnSchedule: bool, isWithinBudget: bool,
    riskLevel: RiskLevel, completedMilestones: nat, totalMilestones: nat, overdueMilestones: nat,
    completionProbability: real, recommendations: seq<string>)

  /** The score of `CalculateCompletionProbability` before it is clamped. */
  function RawProbability(risk: RiskLevel, a: CompletionAssessment): real
  {
    50.0 + a.progress * 0.3
    + (if a.isOnSchedule then 20.0 else -15.0)
    + (if a.isWithinBudget then 15.0 else -20.0)
    - (risk.Ordinal() * 5) as real
    + (if a.totalMilestones > 0 then a.completedMilestones as real / a.totalMilestones as real * 15.0 else 0.0)
    - (a.overdueMilestones * 5) as real
  }

  /** `CalculateCompletionProbability(project, assessment)`: the raw score clamped to [0,100]. */
  function CompletionProbability(risk: RiskLevel, a: CompletionAssessment): (r: real)
    ensures 0.0 <= r <= 100.0
    ensures 0.0 <= RawProbability(risk, a) <= 100.0 ==> r == RawProbability(risk, a)
    ensures RawProbability(risk, a) < 0.0 ==> r == 0.0
    ensures RawProbability(risk, a) > 100.0 ==> r == 100.0
  {
    var raw := RawProbability(risk, a);
    if raw < 0.0 then 0.0 else if raw > 100.0 then 100.0 else raw
  }

  /** Whether `better` stands at least as well as `a` on every count the score looks at. */
  predicate StandsAtLeastAsWell(better: CompletionAssessment, a: CompletionAssessment)
  {
    better.progress >= a.progress
    && (a.isOnSchedule ==> better.isOnSchedule)
    && (a.isWithinBudget ==> better.isWithinBudget)
    && better.overdueMilestones <= a.overdueMilestones
    && better.totalMilestones == a.totalMilestones
    && better.completedMilestones >= a.completedMilestones
  }

  /** Standing better, or at a lower risk, never lowers the completion probability. */
  lemma BetterStandingNeverLowersProbability(riskA: RiskLevel, a: CompletionAssessment,
                                             riskB: RiskLevel, b: CompletionAssessment)
    requires StandsAtLeastAsWell(b, a) && riskB.Ordinal() <= riskA.Ordinal()
    ensures CompletionProbability(riskB, b) >= CompletionProbability(riskA, a)
  {
    if b.totalMilestones > 0 {
      Arith.QuotientMonotone(a.completedMilestones as real, b.completedMilestones as real, b.totalMilestones as real);
    }
    assert RawProbability(riskB, b) >= RawProbability(riskA, a);
  }

  /**
   * The `try` body of `AssessProjectCompletion(project)`.  The budget test is
   * the one step that can throw: the estimated cost cannot be built while
   * it is negative.
   */
  function AssessmentOf(project: Project, today: Day): (r: Outcome<CompletionAssessment>)
    reads project, project.assignments, project.milestones
    ensures r.Threw? <==> project.IsOverBudget(today).Threw?
    ensures r.Returned? ==> r.value.isWithinBudget == !project.IsOverBudget(today).value
    ensures r.Returned? ==> r.value.isOnSchedule == IsProjectOnSchedule(project, today)
    ensures r.Returned? ==> 0.0 <= r.value.progress <= 100.0 && 0.0 <= r.value.completionProbability <= 100.0
    ensures r.Returned? ==> r.value.completedMilestones + r.value.overdueMilestones <= r.value.totalMilestones
    ensures r.Returned? ==> (r.value.recommendations == [] <==>
              r.value.isWithinBudget && r.value.overdueMilestones == 0 && r.value.riskLevel != High && r.value.isOnSchedule)
  {
    var overBudget :- project.IsOverBudget(today);
    ProgressBounds(project);
    CompletedAndOverdueAreDisjoint(project.milestones, today);
    var onSchedule := IsProjectOnSchedule(project, today);
    var overdue := CountOverdue(project.milestones, today);
    var a := CompletionAssessment(
      project.base.id, project.status, project.CalculateProgress(), onSchedule, !overBudget,
      project.riskLevel, CountCompleted(project.milestones), |project.milestones|, overdue,
      0.0, Recommendations(overBudget, overdue, project.riskLevel, onSchedule));
    Returned(a.(completionProbability := CompletionProbability(project.riskLevel, a)))
  }

  /** `AssessProjectCompletion(project)`. */
  function AssessProjectCompletion(project: Project, today: Day): (r: Result<CompletionAssessment>)
    reads project, project.assignments, project.milestones
    ensures r.Success? <==> project.IsOverBudget(today).Returned?
    ensures r.Failure? ==> r == Fail(AssessContext + project.IsOverBudget(today).error.Message())
  {
    Caught(AssessContext, AssessmentOf(project, today))
  }

  /**
   * A valid project whose assignments have all started is always assessed,
   * and the assessment's probability agrees with its own figures.
   */
  lemma StartedProjectIsAssessed(p: Project, today: Day)
    requires p.Valid()
    requires forall a :: a in p.assignments ==> a.period.startDate <= today
    ensures AssessProjectCompletion(p, today).Success?
    ensures var a := AssessProjectCompletion(p, today).val;
            a.completionProbability == CompletionProbability(a.riskLevel, a.(completionProbability := 0.0))
  {
    EstimatedCostDefinedOnceStarted(p, today);
  }
}
