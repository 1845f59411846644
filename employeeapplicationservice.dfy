// The employee application service: the availability search and the
// performance figures of one employee over a period.  The repository
// queries become parameters (the candidate lists each search returns and
// the hour totals of the time-entry repository); the mapping of entities
// to transfer objects is not modelled, so the search returns the employees
// themselves.
module EmployeeApplicationService {
  import opened Core
  import opened Text
  import opened Calendar
  import opened Enums
  import opened Results
  import opened DateRangeValue
  import opened ProjectAssignmentEntity
  import opened EmployeeEntity
  import ProjectDomainService

  /* ---------------- availability ---------------- */

  const AvailableContext: string := "Error retrieving available employees: "

  /** The assignments of a list of employees, which the availability test reads. */
  function AssignmentsOf(es: seq<Employee>): set<ProjectAssignment>
    reads es
  {
    set i, a | 0 <= i < |es| && a in es[i].assignments :: a
  }

  /** Some employee of the list is Active, the only case in which the availability test builds a date range. */
  predicate AnyActive(es: seq<Employee>)
    reads es
  {
    exists i :: 0 <= i < |es| && es[i].status == EmployeeStatus.Active
  }

  /**
   * `employees.Where(e => e.IsAvailableForProject(startDate, endDate)).ToList()`:
   * the available employees in their order.  The test throws for an Active
   * employee when the period cannot be built, and the first throw ends the
   * whole filter.
   */
  function AvailableAmong(es: seq<Employee>, startDate: Instant, endDate: Option<Instant>): (r: Outcome<seq<Employee>>)
    reads es, AssignmentsOf(es)
    ensures r.Threw? <==> AnyActive(es) && DateRangeValue.Create(startDate, endDate).Threw?
    ensures r.Threw? ==> r.error == DateRangeValue.Create(startDate, endDate).error
    ensures r.Returned? ==> |r.value| <= |es|
    ensures r.Returned? ==> forall e :: e in r.value ==> e in es && e.IsAvailableForProject(startDate, endDate) == Returned(true)
    ensures r.Returned? ==> forall i :: 0 <= i < |es| && es[i].IsAvailableForProject(startDate, endDate) == Returned(true)
                                        ==> es[i] in r.value
  {
    if es == [] then Returned([])
    else
      assert AssignmentsOf(es[1..]) <= AssignmentsOf(es) by {
        forall a | a in AssignmentsOf(es[1..]) ensures a in AssignmentsOf(es) {
          var i :| 0 <= i < |es[1..]| && a in es[1..][i].assignments;
          assert es[i + 1] == es[1..][i];
        }
      }
      assert es[0].assignments == es[0].assignments;
      assert forall a | a in es[0].assignments :: a in AssignmentsOf(es) by {
        forall a | a in es[0].assignments ensures a in AssignmentsOf(es) {
          assert 0 <= 0 < |es| && a in es[0].assignments;
        }
      }
      assert AnyActive(es) <==> es[0].status == EmployeeStatus.Active || AnyActive(es[1..]) by {
        if AnyActive(es[1..]) {
          var i :| 0 <= i < |es[1..]| && es[1..][i].status == EmployeeStatus.Active;
          assert es[i + 1] == es[1..][i];
        }
        if AnyActive(es) && es[0].status != EmployeeStatus.Active {
          var i :| 0 <= i < |es| && es[i].status == EmployeeStatus.Active;
          assert es[1..][i - 1] == es[i];
        }
      }
      var keep :- es[0].IsAvailableForProject(startDate, endDate);
      var rest :- AvailableAmong(es[1..], startDate, endDate);
      assert forall i :: 1 <= i < |es| ==> es[i] == es[1..][i - 1];
      Returned(if keep then [es[0]] + rest else rest)
  }

  /**
   * `GetAvailableEmployeesAsync(startDate, endDate, requiredSkill, minSkillLevel)`:
   * with a required skill the candidates come from the skill query
   * (`bySkill`), otherwise from the period query (`byPeriod`); either way
   * only the employees available over the period are kept.
   */
  function GetAvailableEmployees(startDate: Instant, endDate: Option<Instant>, requiredSkill: Option<string>,
                                 bySkill: seq<Employee>, byPeriod: seq<Employee>): (r: Result<seq<Employee>>)
    reads bySkill, byPeriod, AssignmentsOf(bySkill), AssignmentsOf(byPeriod)
    ensures var candidates := if !IsNullOrEmpty(requiredSkill) then bySkill else byPeriod;
            r == ProjectDomainService.Caught(AvailableContext, AvailableAmong(candidates, startDate, endDate))
  {
    var candidates := if !IsNullOrEmpty(requiredSkill) then bySkill else byPeriod;
    ProjectDomainService.Caught(AvailableContext, AvailableAmong(candidates, startDate, endDate))
  }

  /**
   * The search fails only when an Active candidate meets a period that
   * cannot be built, and then with the range's message; otherwise it keeps
   * exactly the available candidates.
   */
  lemma AvailableSearchKeepsExactlyTheAvailable(startDate: Instant, endDate: Option<Instant>, requiredSkill: Option<string>,
                                                bySkill: seq<Employee>, byPeriod: seq<Employee>)
    ensures var candidates := if !IsNullOrEmpty(requiredSkill) then bySkill else byPeriod;
            var r := GetAvailableEmployees(startDate, endDate, requiredSkill, bySkill, byPeriod);
            && (r.Failure? <==> AnyActive(candidates) && (endDate.Some? && endDate.value <= startDate))
            && (r.Failure? ==> r.errorList == [AvailableContext + "End date must be after start date"])
            && (r.Success? ==> forall e :: e in r.val <==> e in candidates && e.IsAvailableForProject(startDate, endDate) == Returned(true))
  {
    var candidates := if !IsNullOrEmpty(requiredSkill) then bySkill else byPeriod;
    var o := AvailableAmong(candidates, startDate, endDate);
    if o.Returned? {
      forall e | e in candidates && e.IsAvailableForProject(startDate, endDate) == Returned(true)
        ensures e in o.value
      {
        var i :| 0 <= i < |candidates| && candidates[i] == e;
      }
    }
  }

  /* ---------------- performance ---------------- */

  /** `Math.Min` on decimals. */
  function MinOf(a: real, b: real): real
  {
    if a <= b then a else b
  }

  /** `Math.Min(totalHours / expectedHours, 1.2m) * 50`: at most 60 points. */
  function UtilizationScore(totalHours: real, expectedHours: real): (s: real)
    requires expectedHours != 0.0
    ensures s <= 60.0
    ensures totalHours >= 0.0 && expectedHours > 0.0 ==> 0.0 <= s
  {
    MinOf(totalHours / expectedHours, 1.2) * 50.0
  }

  /** `totalHours > 0 ? (billableHours / totalHours) * 40 : 0`: at most 40 points when no more hours are billable than booked. */
  function BillabilityScore(totalHours: real, billableHours: real): (s: real)
    ensures totalHours <= 0.0 ==> s == 0.0
    ensures 0.0 <= billableHours <= totalHours ==> 0.0 <= s <= 40.0
  {
    if totalHours > 0.0 then
      assert 0.0 <= billableHours <= totalHours ==> billableHours / totalHours <= 1.0;
      billableHours / totalHours * 40.0
    else 0.0
  }

  /** `CalculateEfficiencyScore(totalHours, billableHours, expectedHours)`. */
  function CalculateEfficiencyScore(totalHours: real, billableHours: real, expectedHours: real): (r: real)
    ensures expectedHours == 0.0 ==> r == 0.0
    ensures r <= 100.0
    ensures expectedHours != 0.0 ==>
              r == MinOf(UtilizationScore(totalHours, expectedHours) + BillabilityScore(totalHours, billableHours), 100.0)
  {
    if expectedHours == 0.0 then 0.0
    else MinOf(UtilizationScore(totalHours, expectedHours) + BillabilityScore(totalHours, billableHours), 100.0)
  }

  /**
   * For booked hours that make sense (none negative, no more billable than
   * booked) the two components never exceed 100 together, so the cap never
   * applies; the score is a percentage, and it is full exactly when the
   * employee booked at least 120% of the expected hours, all billable.
   */
  lemma EfficiencyScoreIsUncappedSum(totalHours: real, billableHours: real, expectedHours: real)
    requires expectedHours > 0.0 && 0.0 <= billableHours <= totalHours
    ensures CalculateEfficiencyScore(totalHours, billableHours, expectedHours)
            == UtilizationScore(totalHours, expectedHours) + BillabilityScore(totalHours, billableHours)
    ensures 0.0 <= CalculateEfficiencyScore(totalHours, billableHours, expectedHours) <= 100.0
    ensures CalculateEfficiencyScore(totalHours, billableHours, expectedHours) == 100.0
            <==> totalHours >= 1.2 * expectedHours && billableHours == totalHours
  {
    var u := UtilizationScore(totalHours, expectedHours);
    var b := BillabilityScore(totalHours, billableHours);
    if u + b == 100.0 {
      assert u == 60.0 && b == 40.0;
      assert totalHours / expectedHours >= 1.2;
      assert totalHours >= 1.2 * expectedHours;
      assert billableHours / totalHours == 1.0;
    }
    if totalHours >= 1.2 * expectedHours && billableHours == totalHours {
      assert totalHours / expectedHours >= 1.2;
      assert totalHours > 0.0;
    }
  }

  /** What the service reports about one employee over a period. */
  datatype EmployeePerformance = EmployeePerformance(
    employeeId: Guid, employeeName: string, startDate: Instant, endDate: Instant,
    totalHours: real, billableHours: real, nonBillableHours: real, expectedHours: int,
    averageHoursPerDay: real, utilizationRate: real, billableRate: real, efficiencyScore: real)

  /** The figures of `GetEmployeePerformanceAsync` once the employee is found; eight hours are expected per working day. */
  function PerformanceOf(employeeId: Guid, name: string, startDate: Instant, endDate: Instant,
                         totalHours: real, billableHours: real, averageHours: real): (p: EmployeePerformance)
    ensures p.nonBillableHours + p.billableHours == p.totalHours == totalHours
    ensures p.expectedHours == 8 * ProjectDomainService.WorkingDaysBetween(DateOf(startDate), DateOf(endDate))
    ensures p.expectedHours == 0 ==> p.utilizationRate == 0.0 && p.efficiencyScore == 0.0
    ensures p.expectedHours > 0 ==> p.utilizationRate * p.expectedHours as real == totalHours * 100.0
    ensures totalHours <= 0.0 ==> p.billableRate == 0.0
    ensures totalHours > 0.0 ==> p.billableRate * totalHours == billableHours * 100.0
  {
    var expected := ProjectDomainService.WorkingDaysBetween(DateOf(startDate), DateOf(endDate)) * 8;
    EmployeePerformance(
      employeeId, name, startDate, endDate, totalHours, billableHours, totalHours - billableHours, expected, averageHours,
      ProjectDomainService.PercentOf(totalHours, expected as real), ProjectDomainService.PercentOf(billableHours, totalHours),
      CalculateEfficiencyScore(totalHours, billableHours, expected as real))
  }

  /**
   * `GetEmployeePerformanceAsync(employeeId, startDate, endDate)`; `hours` is
   * the hour total of the time-entry repository, `averageHours` its average
   * per day.
   */
  method GetEmployeePerformance(employeeId: Guid, startDate: Instant, endDate: Instant, employees: map<Guid, Employee>,
                                hours: ProjectDomainService.HoursQuery, averageHours: (Guid, Instant, Instant) -> real)
    returns (r: Result<EmployeePerformance>)
    ensures employeeId !in employees ==> r == Fail("Employee not found")
    ensures employeeId in employees ==>
              r == Succeed(PerformanceOf(employeeId, employees[employeeId].name, startDate, endDate,
                                         hours(employeeId, startDate, endDate, false),
                                         hours(employeeId, startDate, endDate, true),
                                         averageHours(employeeId, startDate, endDate)))
  {
    if employeeId !in employees {
      return Fail("Employee not found");
    }
    var employee := employees[employeeId];
    var totalHours := hours(employeeId, startDate, endDate, false);
    var billableHours := hours(employeeId, startDate, endDate, true);
    var average := averageHours(employeeId, startDate, endDate);
    var workingDays := ProjectDomainService.CalculateWorkingDays(startDate, endDate);
    var expectedHours := workingDays * 8;
    var performance := EmployeePerformance(
      employeeId, employee.name, startDate, endDate, totalHours, billableHours, totalHours - billableHours,
      expectedHours, average,
      ProjectDomainService.PercentOf(totalHours, expectedHours as real), ProjectDomainService.PercentOf(billableHours, totalHours),
      CalculateEfficiencyScore(totalHours, billableHours, expectedHours as real));
    return Succeed(performance);
  }

  /**
   * With sensible hour totals every rate is a percentage-like figure: the
   * billable rate lies in [0,100], the efficiency score in [0,100], and the
   * expected hours never exceed eight per calendar day of the period.
   */
  lemma PerformanceRatesAreBounded(employeeId: Guid, name: string, startDate: Instant, endDate: Instant,
                                   totalHours: real, billableHours: real, averageHours: real)
    requires 0.0 <= billableHours <= totalHours
    ensures var p := PerformanceOf(employeeId, name, startDate, endDate, totalHours, billableHours, averageHours);
            && 0.0 <= p.billableRate <= 100.0
            && 0.0 <= p.efficiencyScore <= 100.0
            && 0.0 <= p.utilizationRate
            && 0 <= p.expectedHours <= 8 * (if DateOf(endDate) >= DateOf(startDate) then DateOf(endDate) - DateOf(startDate) + 1 else 0)
  {
    var p := PerformanceOf(employeeId, name, startDate, endDate, totalHours, billableHours, averageHours);
    ProjectDomainService.WorkingDaysBounds(DateOf(startDate), DateOf(endDate));
    if totalHours > 0.0 {
      assert billableHours / totalHours <= 1.0;
    }
    if p.expectedHours > 0 {
      EfficiencyScoreIsUncappedSum(totalHours, billableHours, p.expectedHours as real);
    }
  }
}
