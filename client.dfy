// A client company and the projects it has commissioned.  The update
// methods guard and assign fields; everything else is a derived figure over
// the client's projects: counts by status, budget sums, the importance
// grade, the success rate and the VIP and "new client" flags.
module ClientEntity {
  import opened Core
  import opened Text
  import opened Calendar
  import opened Enums
  import opened MoneyValue
  import opened Abstractions
  import opened DomainEvents
  import opened ProjectEntity
  import Guard
  import Arith

  /* ---------------- aggregates over a list of projects ---------------- */

  /** `Count(p => p.Status == status)`. */
  function CountStatus(ps: seq<Project>, status: ProjectStatus): (n: nat)
    reads ps
    ensures n <= |ps|
    ensures n == 0 <==> (forall i :: 0 <= i < |ps| ==> ps[i].status != status)
    ensures n == |ps| <==> (forall i :: 0 <= i < |ps| ==> ps[i].status == status)
  {
    if ps == [] then 0
    else
      assert forall i :: 0 < i < |ps| ==> ps[i] == ps[1..][i - 1];
      (if ps[0].status == status then 1 else 0) + CountStatus(ps[1..], status)
  }

  /** `Count(p => p.Status != status)`. */
  function CountOtherThan(ps: seq<Project>, status: ProjectStatus): (n: nat)
    reads ps
    ensures n <= |ps|
    ensures n == 0 <==> (forall i :: 0 <= i < |ps| ==> ps[i].status == status)
    ensures n == |ps| <==> (forall i :: 0 <= i < |ps| ==> ps[i].status != status)
  {
    if ps == [] then 0
    else
      assert forall i :: 0 < i < |ps| ==> ps[i] == ps[1..][i - 1];
      (if ps[0].status != status then 1 else 0) + CountOtherThan(ps[1..], status)
  }

  /** `Where(p => p.Status != Cancelled).Sum(p => p.Budget.Amount)`. */
  function NonCancelledBudget(ps: seq<Project>): (t: real)
    reads ps
    ensures BudgetsNonNegative(ps) ==> t >= 0.0
    ensures (forall i :: 0 <= i < |ps| ==> ps[i].status == ProjectStatus.Cancelled) ==> t == 0.0
  {
    if ps == [] then 0.0
    else
      assert forall i :: 0 < i < |ps| ==> ps[i] == ps[1..][i - 1];
      (if ps[0].status != ProjectStatus.Cancelled then ps[0].Budget().amount else 0.0) + NonCancelledBudget(ps[1..])
  }

  /** `Where(p => p.CreatedAt.Year == year && p.Status == Completed).Sum(p => p.Budget.Amount)`. */
  function CompletedBudgetIn(ps: seq<Project>, year: int): (t: real)
    reads ps
    ensures BudgetsNonNegative(ps) ==> t >= 0.0
    ensures (forall i :: 0 <= i < |ps| ==> ps[i].status != ProjectStatus.Completed) ==> t == 0.0
  {
    if ps == [] then 0.0
    else
      assert forall i :: 0 < i < |ps| ==> ps[i] == ps[1..][i - 1];
      (if YearOf(DateOf(ps[0].base.createdAt)) == year && ps[0].status == ProjectStatus.Completed
          then ps[0].Budget().amount else 0.0) + CompletedBudgetIn(ps[1..], year)
  }

  /** Every project's budget is a non-negative amount, as the `Money` constructor guarantees. */
  predicate BudgetsNonNegative(ps: seq<Project>)
    reads ps
  {
    forall i :: 0 <= i < |ps| ==> ps[i].budget.amount >= 0.0
  }

  /** Active or Planning: what the client counts as a running project. */
  predicate IsRunning(status: ProjectStatus)
  {
    status == ProjectStatus.Active || status == Planning
  }

  /** `Where(p => p.Status == Active || p.Status == Planning)`, in list order. */
  function RunningProjects(ps: seq<Project>): (r: seq<Project>)
    reads ps
    ensures |r| <= |ps|
    ensures forall i :: 0 <= i < |r| ==> r[i] in ps && IsRunning(r[i].status)
    ensures forall i :: 0 <= i < |ps| && IsRunning(ps[i].status) ==> ps[i] in r
    ensures multiset(r) <= multiset(ps)
  {
    if ps == [] then []
    else
      var rest := RunningProjects(ps[1..]);
      assert forall i :: 0 < i < |ps| ==> ps[i] == ps[1..][i - 1];
      assert ps == [ps[0]] + ps[1..];
      if IsRunning(ps[0].status) then [ps[0]] + rest else rest
  }

  /**
   * The position `OrderByDescending(p => p.CreatedAt).FirstOrDefault()`
   * picks: the latest creation time, and the first such project on a tie,
   * since the ordering is stable.
   */
  function LatestIndex(ps: seq<Project>): (k: nat)
    requires |ps| > 0
    ensures k < |ps|
    ensures forall j :: 0 <= j < |ps| ==> ps[j].base.createdAt <= ps[k].base.createdAt
    ensures forall j :: 0 <= j < k ==> ps[j].base.createdAt < ps[k].base.createdAt
  {
    if |ps| == 1 then 0
    else
      var k := LatestIndex(ps[1..]) + 1;
      assert forall j :: 0 < j < |ps| ==> ps[j] == ps[1..][j - 1];
      if ps[0].base.createdAt >= ps[k].base.createdAt then 0 else k
  }

  /** The position `OrderBy(p => p.CreatedAt).FirstOrDefault()` picks: the earliest creation time, first on a tie. */
  function EarliestIndex(ps: seq<Project>): (k: nat)
    requires |ps| > 0
    ensures k < |ps|
    ensures forall j :: 0 <= j < |ps| ==> ps[k].base.createdAt <= ps[j].base.createdAt
    ensures forall j :: 0 <= j < k ==> ps[k].base.createdAt < ps[j].base.createdAt
  {
    if |ps| == 1 then 0
    else
      var k := EarliestIndex(ps[1..]) + 1;
      assert forall j :: 0 < j < |ps| ==> ps[j] == ps[1..][j - 1];
      if ps[0].base.createdAt <= ps[k].base.createdAt then 0 else k
  }

  /** The grade of `GetClientImportance` for a project count and a non-cancelled budget. */
  function ImportanceOf(projectCount: nat, totalBudget: real): (g: string)
    ensures g == "High" <==> projectCount >= 5 || totalBudget >= 100000.0
    ensures g == "Low" <==> projectCount < 2 && totalBudget < 25000.0
    ensures g == "High" || g == "Medium" || g == "Low"
  {
    if projectCount >= 5 || totalBudget >= 100000.0 then "High"
    else if projectCount >= 2 || totalBudget >= 25000.0 then "Medium"
    else "Low"
  }

  /** The order of the grades: Low < Medium < High. */
  function ImportanceRank(grade: string): nat
  {
    if grade == "High" then 2 else if grade == "Medium" then 1 else 0
  }

  /* ---------------- the entity ---------------- */

  /** The client's own mutable fields. */
  datatype ClientState = ClientState(
    companyName: string, industry: Option<string>, contactPerson: Option<string>, contactEmail: Option<string>,
    contactPhone: Option<string>, address: Option<string>, contractValue: Option<real>, clientSize: Option<string>)

  class Client {
    const base: BaseEntity<DomainEvent>
    var companyName: string
    var industry: Option<string>
    var contactPerson: Option<string>
    var contactEmail: Option<string>
    var contactPhone: Option<string>
    var address: Option<string>
    var contractValue: Option<real>
    var clientSize: Option<string>
    /** The projects persistence loads for this client; no method of the client changes the list. */
    var projects: seq<Project>

    /** A named company, and a contract value that is never negative. */
    predicate Valid()
      reads this
    {
      !IsBlank(companyName) && (contractValue.Some? ==> contractValue.value >= 0.0)
    }

    function State(): ClientState
      reads this
    {
      ClientState(companyName, industry, contactPerson, contactEmail, contactPhone, address, contractValue, clientSize)
    }

    constructor (base: BaseEntity<DomainEvent>, companyName: string, industry: Option<string>)
      requires !IsBlank(companyName)
      ensures this.base == base && projects == []
      ensures State() == ClientState(companyName, industry, None, None, None, None, None, None)
      ensures Valid()
    {
      this.base := base;
      this.companyName := companyName;
      this.industry := industry;
      this.contactPerson := None;
      this.contactEmail := None;
      this.contactPhone := None;
      this.address := None;
      this.contractValue := None;
      this.clientSize := None;
      this.projects := [];
    }

    /** `new Client(tenantId, companyName, industry)`: the tenant check, then a non-blank company name. */
    static method Create(tenantId: string, id: Guid, now: Instant, companyName: string, industry: Option<string>)
      returns (r: Outcome<Client>)
      ensures CheckTenant(tenantId).Threw? ==> r == Threw(CheckTenant(tenantId).error)
      ensures CheckTenant(tenantId).Returned? ==> (r.Returned? <==> !IsBlank(companyName))
      ensures CheckTenant(tenantId).Returned? && r.Threw? ==>
                r.error == ArgumentException("companyName", "Value cannot be null or empty")
      ensures r.Returned? ==> fresh(r.value) && fresh(r.value.base) && r.value.Valid()
      ensures r.Returned? ==> r.value.base.id == id && r.value.base.tenantId == tenantId && r.value.base.domainEvents == []
      ensures r.Returned? ==> r.value.State() == ClientState(companyName, industry, None, None, None, None, None, None)
      ensures r.Returned? ==> r.value.projects == []
    {
      var b :- BaseEntity<DomainEvent>.Create(tenantId, id, now);
      var _ :- Guard.AgainstNullOrEmpty(Some(companyName), "companyName");
      var c := new Client(b, companyName, industry);
      return Returned(c);
    }

    /**
     * `UpdateContactInfo`: an e-mail address is validated only when it is
     * neither null nor empty; `emailIsValid` stands for the private
     * `IsValidEmail`, which parses with `System.Net.Mail.MailAddress`.
     */
    method UpdateContactInfo(contactPerson: Option<string>, contactEmail: Option<string>, contactPhone: Option<string>,
                             emailIsValid: string -> bool, now: Instant)
      returns (r: Outcome<()>)
      requires Valid()
      modifies this, base
      ensures Valid() && base.domainEvents == old(base.domainEvents) && projects == old(projects)
      ensures r.Threw? <==> !IsNullOrEmpty(contactEmail) && !emailIsValid(contactEmail.value)
      ensures r.Threw? ==> r.error == DomainException("Invalid email format")
      ensures r.Threw? ==> State() == old(State()) && base.updatedAt == old(base.updatedAt)
      ensures r.Returned? ==> State() == old(State()).(contactPerson := contactPerson, contactEmail := contactEmail,
                                                       contactPhone := contactPhone)
      ensures r.Returned? ==> base.updatedAt == now
    {
      if !IsNullOrEmpty(contactEmail) {
        var _ :- Guard.Against(!emailIsValid(contactEmail.value), "Invalid email format");
      }
      this.contactPerson := contactPerson;
      this.contactEmail := contactEmail;
      this.contactPhone := contactPhone;
      base.UpdateTimestamp(now);
      return Done;
    }

    /** `UpdateAddress`: stores the address unchecked. */
    method UpdateAddress(address: Option<string>, now: Instant)
      requires Valid()
      modifies this, base
      ensures Valid() && base.domainEvents == old(base.domainEvents) && projects == old(projects)
      ensures State() == old(State()).(address := address) && base.updatedAt == now
    {
      this.address := address;
      base.UpdateTimestamp(now);
    }

    /** `UpdateBasicInfo`: the company name must not be blank; industry and size are stored as given. */
    method UpdateBasicInfo(companyName: string, industry: Option<string>, clientSize: Option<string>, now: Instant)
      returns (r: Outcome<()>)
      requires Valid()
      modifies this, base
      ensures Valid() && base.domainEvents == old(base.domainEvents) && projects == old(projects)
      ensures r.Returned? <==> !IsBlank(companyName)
      ensures r.Threw? ==> r.error == ArgumentException("companyName", "Value cannot be null or empty")
      ensures r.Threw? ==> State() == old(State()) && base.updatedAt == old(base.updatedAt)
      ensures r.Returned? ==> State() == old(State()).(companyName := companyName, industry := industry,
                                                       clientSize := clientSize)
      ensures r.Returned? ==> base.updatedAt == now
    {
      var _ :- Guard.AgainstNullOrEmpty(Some(companyName), "companyName");
      this.companyName := companyName;
      this.industry := industry;
      this.clientSize := clientSize;
      base.UpdateTimestamp(now);
      return Done;
    }

    /** `SetContractValue`: a given value must not be negative; null clears the value. */
    method SetContractValue(contractValue: Option<real>, now: Instant) returns (r: Outcome<()>)
      requires Valid()
      modifies this, base
      ensures Valid() && base.domainEvents == old(base.domainEvents) && projects == old(projects)
      ensures r.Threw? <==> contractValue.Some? && contractValue.value < 0.0
      ensures r.Threw? ==> r.error == ArgumentException("contractValue", "Value cannot be negative")
      ensures r.Threw? ==> State() == old(State()) && base.updatedAt == old(base.updatedAt)
      ensures r.Returned? ==> State() == old(State()).(contractValue := contractValue) && base.updatedAt == now
    {
      if contractValue.Some? {
        var _ :- Guard.AgainstNegative(contractValue.value, "contractValue");
      }
      this.contractValue := contractValue;
      base.UpdateTimestamp(now);
      return Done;
    }

    /** `HasActiveProjects()`: some project is Active or Planning. */
    predicate HasActiveProjects(): (b: bool)
      reads this, projects
      ensures b <==> ActiveProjectsCount() + CountStatus(projects, Planning) > 0
    {
      RunningCounted(projects);
      exists i :: 0 <= i < |projects| && IsRunning(projects[i].status)
    }

    /** `GetProjectCountByStatus(status)`: the projects with that status; the rest have another. */
    function GetProjectCountByStatus(status: ProjectStatus): (n: nat)
      reads this, projects
      ensures n <= |projects|
      ensures n + CountOtherThan(projects, status) == |projects|
    {
      CountsByStatusPartition(projects);
      CountStatus(projects, status)
    }

    /** `GetTotalProjectBudget()`: the budgets of the projects that are not cancelled. */
    function GetTotalProjectBudget(): (t: real)
      reads this, projects
      ensures BudgetsNonNegative(projects) ==> t >= 0.0
      ensures CountOtherThan(projects, ProjectStatus.Cancelled) == 0 ==> t == 0.0
    {
      NoneRemainingSumsToZero(projects);
      NonCancelledBudget(projects)
    }

    /** `GetCompletedProjectsCount()`: never more than the projects past Planning. */
    function GetCompletedProjectsCount(): (n: nat)
      reads this, projects
      ensures n <= CountOtherThan(projects, Planning)
    {
      CompletedAmongStarted(projects);
      CountStatus(projects, ProjectStatus.Completed)
    }

    /** `GetActiveProjects()`: exactly the Active and Planning projects. */
    function GetActiveProjects(): (r: seq<Project>)
      reads this, projects
      ensures forall i :: 0 <= i < |r| ==> r[i] in projects && IsRunning(r[i].status)
      ensures forall i :: 0 <= i < |projects| && IsRunning(projects[i].status) ==> projects[i] in r
      ensures multiset(r) <= multiset(projects)
    {
      RunningProjects(projects)
    }

    /** `GetLatestProject()`: null without projects. */
    function GetLatestProject(): (r: Option<Project>)
      reads this, projects
      ensures r.None? <==> projects == []
      ensures r.Some? ==> r.value in projects
      ensures r.Some? ==> forall j :: 0 <= j < |projects| ==> projects[j].base.createdAt <= r.value.base.createdAt
    {
      if projects == [] then None else Some(projects[LatestIndex(projects)])
    }

    /** `GetRelationshipDurationInDays()`: whole days from the earliest project's creation date to today. */
    function GetRelationshipDurationInDays(today: Day): (d: int)
      reads this, projects
      ensures projects == [] ==> d == 0
      ensures projects != [] ==> exists i :: 0 <= i < |projects| && d == today - DateOf(projects[i].base.createdAt)
      ensures forall i :: 0 <= i < |projects| ==> d >= today - DateOf(projects[i].base.createdAt)
    {
      if projects == [] then 0
      else
        var k := EarliestIndex(projects);
        assert forall j :: 0 <= j < |projects| ==> DateOf(projects[k].base.createdAt) <= DateOf(projects[j].base.createdAt) by {
          forall j | 0 <= j < |projects| {
            DateOfMonotone(projects[k].base.createdAt, projects[j].base.createdAt);
          }
        }
        today - DateOf(projects[k].base.createdAt)
    }

    /** `CanBeDeleted()`: no project is Active or Planning. */
    predicate CanBeDeleted(): (b: bool)
      reads this, projects
      ensures b <==> ActiveProjectsCount() == 0 && CountStatus(projects, Planning) == 0
    {
      !HasActiveProjects()
    }

    /** `GetClientImportance()`: High, Medium or Low by the project count and the non-cancelled budget. */
    function GetClientImportance(): (g: string)
      reads this, projects
      ensures |projects| >= 5 ==> g == "High"
      ensures projects == [] ==> g == "Low"
      ensures g == "High" || g == "Medium" || g == "Low"
    {
      ImportanceOf(|projects|, GetTotalProjectBudget())
    }

    /** `GetAnnualRevenue(year)`: the budgets of the projects created in the year and completed. */
    function GetAnnualRevenue(year: int): (t: real)
      reads this, projects
      ensures BudgetsNonNegative(projects) ==> 0.0 <= t <= GetTotalProjectBudget()
    {
      if BudgetsNonNegative(projects) then BudgetSumsNonNegative(projects, year); CompletedBudgetIn(projects, year)
      else CompletedBudgetIn(projects, year)
    }

    /** `TotalProjectsCount`: every project, whatever its status. */
    function TotalProjectsCount(): (n: nat)
      reads this, projects
      ensures n == CountStatus(projects, Planning) + CountStatus(projects, ProjectStatus.Active) + CountStatus(projects, OnHold)
                   + CountStatus(projects, ProjectStatus.Completed) + CountStatus(projects, ProjectStatus.Cancelled)
    {
      CountsByStatusPartition(projects);
      |projects|
    }

    /** `ActiveProjectsCount`: the Active projects, which leave out the Planning ones. */
    function ActiveProjectsCount(): (n: nat)
      reads this, projects
      ensures n + CountStatus(projects, Planning) <= |projects|
    {
      CountsByStatusPartition(projects);
      CountStatus(projects, ProjectStatus.Active)
    }

    /** `SuccessRate`: completed projects as a percentage of the projects past Planning, 0 when there are none. */
    function SuccessRate(): (rate: real)
      reads this, projects
      ensures 0.0 <= rate <= 100.0
    {
      var started := CountOtherThan(projects, Planning);
      if started == 0 then 0.0
      else
        Arith.FractionOfWhole(GetCompletedProjectsCount() as real, started as real);
        (GetCompletedProjectsCount() as real) / (started as real) * 100.0
    }

    /** `AverageProjectBudget`: the mean budget of the non-cancelled projects, 0 when there are none. */
    function AverageProjectBudget(): (a: real)
      reads this, projects
      ensures BudgetsNonNegative(projects) ==> 0.0 <= a <= GetTotalProjectBudget()
    {
      var n := CountOtherThan(projects, ProjectStatus.Cancelled);
      if n == 0 then 0.0
      else if BudgetsNonNegative(projects) then
        MeanBounds(NonCancelledBudget(projects), n as real);
        NonCancelledBudget(projects) / (n as real)
      else NonCancelledBudget(projects) / (n as real)
    }

    /** `IsVipClient`: a High grade or a contract worth at least 50000. */
    predicate IsVipClient(): (b: bool)
      reads this, projects
      ensures |projects| >= 5 ==> b
      ensures contractValue.Some? && contractValue.value >= 50000.0 ==> b
    {
      GetClientImportance() == "High" || (contractValue.Some? && contractValue.value >= 50000.0)
    }

    /** `IsNewClient`: the relationship is at most 180 days old, so every project was created within 180 days. */
    predicate IsNewClient(today: Day): (b: bool)
      reads this, projects
      ensures b <==> forall i :: 0 <= i < |projects| ==> today - DateOf(projects[i].base.createdAt) <= 180
    {
      GetRelationshipDurationInDays(today) <= 180
    }
  }

  /* ---------------- properties ---------------- */

  /** Every completed project is past Planning, so the success rate is a percentage. */
  lemma SuccessRateIsPercentage(c: Client)
    ensures 0.0 <= c.SuccessRate() <= 100.0
    ensures c.SuccessRate() == 100.0 <==> CountOtherThan(c.projects, Planning) > 0
                                          && c.GetCompletedProjectsCount() == CountOtherThan(c.projects, Planning)
  {
    CompletedAmongStarted(c.projects);
    var done := c.GetCompletedProjectsCount() as real;
    var started := CountOtherThan(c.projects, Planning) as real;
    if started > 0.0 {
      Arith.FractionOfWhole(done, started);
    }
  }

  lemma {:induction false} CompletedAmongStarted(ps: seq<Project>)
    ensures CountStatus(ps, ProjectStatus.Completed) <= CountOtherThan(ps, Planning)
  {
    if ps != [] {
      CompletedAmongStarted(ps[1..]);
    }
  }

  /** Some project is Active or Planning exactly when the two counts are not both zero. */
  lemma {:induction false} RunningCounted(ps: seq<Project>)
    ensures (exists i :: 0 <= i < |ps| && IsRunning(ps[i].status))
            <==> CountStatus(ps, ProjectStatus.Active) + CountStatus(ps, Planning) > 0
  {
    if ps != [] {
      RunningCounted(ps[1..]);
      assert forall i :: 0 < i < |ps| ==> ps[i] == ps[1..][i - 1];
      if exists i :: 0 < i < |ps| && IsRunning(ps[i].status) {
        var i :| 0 < i < |ps| && IsRunning(ps[i].status);
        assert IsRunning(ps[1..][i - 1].status);
      }
      if exists i :: 0 <= i < |ps[1..]| && IsRunning(ps[1..][i].status) {
        var i :| 0 <= i < |ps[1..]| && IsRunning(ps[1..][i].status);
        assert IsRunning(ps[i + 1].status);
      }
    }
  }

  /** `HasActiveProjects` holds exactly when `GetActiveProjects` is non-empty, and `CanBeDeleted` exactly when it is empty. */
  lemma ActiveProjectsWitnessHasActive(c: Client)
    ensures c.HasActiveProjects() <==> c.GetActiveProjects() != []
    ensures c.CanBeDeleted() <==> c.GetActiveProjects() == []
  {
    var r := c.GetActiveProjects();
    if c.HasActiveProjects() {
      var i :| 0 <= i < |c.projects| && IsRunning(c.projects[i].status);
      assert c.projects[i] in r;
    }
    if r != [] {
      assert r[0] in c.projects && IsRunning(r[0].status);
      var i :| 0 <= i < |c.projects| && c.projects[i] == r[0];
    }
  }

  /** Every project has exactly one status, so the counts by status add up to the number of projects. */
  lemma {:induction false} CountsByStatusPartition(ps: seq<Project>)
    ensures CountStatus(ps, Planning) + CountStatus(ps, ProjectStatus.Active) + CountStatus(ps, OnHold)
            + CountStatus(ps, ProjectStatus.Completed) + CountStatus(ps, ProjectStatus.Cancelled) == |ps|
    ensures forall s :: CountStatus(ps, s) + CountOtherThan(ps, s) == |ps|
  {
    if ps != [] {
      CountsByStatusPartition(ps[1..]);
    }
  }

  /** Budget sums are never negative. */
  lemma {:induction false} BudgetSumsNonNegative(ps: seq<Project>, year: int)
    requires BudgetsNonNegative(ps)
    ensures NonCancelledBudget(ps) >= 0.0
    ensures 0.0 <= CompletedBudgetIn(ps, year) <= NonCancelledBudget(ps)
  {
    if ps != [] {
      assert BudgetsNonNegative(ps[1..]) by {
        assert forall i :: 0 < i < |ps| ==> ps[i] == ps[1..][i - 1];
      }
      BudgetSumsNonNegative(ps[1..], year);
    }
  }

  /**
   * The average budget is non-negative and never above the total, and the
   * total is 0 when every project is cancelled.
   */
  lemma AverageBudgetBounds(c: Client)
    requires BudgetsNonNegative(c.projects)
    ensures 0.0 <= c.AverageProjectBudget() <= c.GetTotalProjectBudget()
    ensures CountOtherThan(c.projects, ProjectStatus.Cancelled) == 0 ==>
              c.AverageProjectBudget() == 0.0 && c.GetTotalProjectBudget() == 0.0
  {
  }

  lemma MeanBounds(total: real, n: real)
    requires total >= 0.0 && n >= 1.0
    ensures 0.0 <= total / n <= total && total / n * n == total
  {
    var q := total / n;
    assert q * n == total;
    assert q >= 0.0;
    assert q * 1.0 <= q * n;
  }

  lemma {:induction false} NoneRemainingSumsToZero(ps: seq<Project>)
    ensures CountOtherThan(ps, ProjectStatus.Cancelled) == 0 ==> NonCancelledBudget(ps) == 0.0
  {
    if ps != [] {
      NoneRemainingSumsToZero(ps[1..]);
    }
  }

  /** The grade never drops when the project count or the budget grows. */
  lemma ImportanceMonotone(n1: nat, b1: real, n2: nat, b2: real)
    requires n1 <= n2 && b1 <= b2
    ensures ImportanceRank(ImportanceOf(n1, b1)) <= ImportanceRank(ImportanceOf(n2, b2))
  {
  }

  /** The non-cancelled budget of one more project is the old sum plus that project's share. */
  lemma {:induction false} NonCancelledBudgetAppend(ps: seq<Project>, p: Project)
    ensures NonCancelledBudget(ps + [p])
            == NonCancelledBudget(ps) + (if p.status != ProjectStatus.Cancelled then p.Budget().amount else 0.0)
  {
    if ps != [] {
      assert (ps + [p])[1..] == ps[1..] + [p];
      NonCancelledBudgetAppend(ps[1..], p);
    }
  }

  /** A client gaining a project with a non-negative budget never loses importance. */
  lemma AnotherProjectNeverLowersImportance(ps: seq<Project>, p: Project)
    requires p.budget.amount >= 0.0
    ensures ImportanceRank(ImportanceOf(|ps|, NonCancelledBudget(ps)))
            <= ImportanceRank(ImportanceOf(|ps + [p]|, NonCancelledBudget(ps + [p])))
  {
    NonCancelledBudgetAppend(ps, p);
    ImportanceMonotone(|ps|, NonCancelledBudget(ps), |ps + [p]|, NonCancelledBudget(ps + [p]));
  }

  /** Five projects, or a contract of 50000, make a VIP; a client with neither a high grade nor such a contract is not one. */
  lemma VipCharacterization(c: Client)
    ensures |c.projects| >= 5 ==> c.IsVipClient()
    ensures c.GetTotalProjectBudget() >= 100000.0 ==> c.IsVipClient()
    ensures c.IsVipClient() <==> ImportanceRank(c.GetClientImportance()) == 2
                                 || (c.contractValue.Some? && c.contractValue.value >= 50000.0)
  {
  }

  /** A client without projects is new, whatever the day. */
  lemma WithoutProjectsClientIsNew(c: Client, today: Day)
    requires c.projects == []
    ensures c.IsNewClient(today) && c.CanBeDeleted() && c.GetClientImportance() == "Low"
  {
  }
}
