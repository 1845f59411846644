// An employee of a tenant: personal data, an employment status machine, a
// leave balance, a set of skills unique per technology (compared without
// regard to case) and the project assignments loaded with the employee.
module EmployeeEntity {
  import opened Core
  import opened Text
  import opened Calendar
  import opened Enums
  import opened DateRangeValue
  import opened Abstractions
  import opened DomainEvents
  import opened EmployeeSkillEntity
  import opened ProjectAssignmentEntity
  import Guard

  /* ---------------- status machine ---------------- */

  /** The transition table of `ValidateStatusTransition`. */
  predicate CanTransition(from: EmployeeStatus, to: EmployeeStatus)
  {
    match from
    case Active => to == EmployeeStatus.Inactive || to == OnLeave || to == Terminated
    case Inactive => to == EmployeeStatus.Active || to == Terminated
    case OnLeave => to == EmployeeStatus.Active || to == Terminated
    case Terminated => false
  }

  /** Throws the business-rule violation for every pair outside the table. */
  function ValidateStatusTransition(from: EmployeeStatus, to: EmployeeStatus): (r: Outcome<()>)
    ensures r.Returned? <==> CanTransition(from, to)
    ensures r.Threw? ==> r.error == BusinessRuleViolation("INVALID_EMPLOYEE_STATUS_TRANSITION",
                                       "Cannot change employee status from " + from.Name() + " to " + to.Name())
  {
    if CanTransition(from, to) then Done
    else Threw(BusinessRuleViolation("INVALID_EMPLOYEE_STATUS_TRANSITION",
                                     "Cannot change employee status from " + from.Name() + " to " + to.Name()))
  }

  /**
   * The shape of the table: no status moves to itself, Terminated is final
   * and reachable from every other status, and only Inactive and OnLeave
   * lead back to Active.
   */
  lemma TransitionTableShape(s: EmployeeStatus, t: EmployeeStatus)
    ensures !CanTransition(s, s)
    ensures !CanTransition(Terminated, t)
    ensures CanTransition(s, Terminated) <==> s != Terminated
    ensures CanTransition(s, EmployeeStatus.Active) <==> s == EmployeeStatus.Inactive || s == OnLeave
    ensures CanTransition(s, t) && t != Terminated ==> (s == EmployeeStatus.Active <==> t != EmployeeStatus.Active)
  {
  }

  /* ---------------- leave balance ---------------- */

  /** The balance after `UseLeave(days)`; checks in order: days positive, employee Active, balance sufficient. */
  function LeaveAfterUse(balance: Int32, status: EmployeeStatus, days: Int32): (r: Outcome<Int32>)
    ensures days <= 0 ==> r == Threw(DomainException("Leave days must be positive"))
    ensures days > 0 && status != EmployeeStatus.Active ==> r == Threw(DomainException("Only active employees can use leave"))
    ensures days > 0 && status == EmployeeStatus.Active && balance < days ==> r == Threw(DomainException("Insufficient leave balance"))
    ensures r.Returned? <==> days > 0 && status == EmployeeStatus.Active && balance >= days
    ensures r.Returned? ==> r.value + days == balance && 0 <= r.value < balance
  {
    var _ :- Guard.Against(days <= 0, "Leave days must be positive");
    var _ :- Guard.Against(status != EmployeeStatus.Active, "Only active employees can use leave");
    var _ :- Guard.Against(balance < days, "Insufficient leave balance");
    Returned(balance - days)
  }

  /**
   * The balance after `AddLeave(days)`; any status may receive leave.  The
   * addition is unchecked C# `int` arithmetic, so a sum past `int.MaxValue`
   * wraps to a negative balance.
   */
  function LeaveAfterAdd(balance: Int32, days: Int32): (r: Outcome<Int32>)
    ensures r.Returned? <==> days > 0
    ensures r.Threw? ==> r.error == DomainException("Leave days must be positive")
    ensures r.Returned? ==> (r.value > balance <==> balance + days <= MaxInt32)
    ensures r.Returned? && balance + days <= MaxInt32 ==> r.value == balance + days
    ensures r.Returned? && balance + days > MaxInt32 ==> r.value < 0 && r.value == balance + days - 0x1_0000_0000
  {
    var _ :- Guard.Against(days <= 0, "Leave days must be positive");
    Returned(WrapInt32(balance + days))
  }

  /**
   * For an Active employee, adding `days` of leave and then using them
   * restores the balance, as long as the sum stays within `int`.
   */
  lemma AddThenUseLeaveRestores(balance: Int32, days: Int32)
    requires balance >= 0 && days > 0 && balance + days <= MaxInt32
    ensures LeaveAfterAdd(balance, days).Returned?
    ensures LeaveAfterUse(LeaveAfterAdd(balance, days).value, EmployeeStatus.Active, days) == Returned(balance)
  {
  }

  /**
   * Past `int.MaxValue` the round trip breaks: the wrapped balance is
   * negative, so the days just added cannot be used.
   */
  lemma AddPastMaxValueBlocksUse(balance: Int32, days: Int32)
    requires balance >= 0 && days > 0 && balance + days > MaxInt32
    ensures LeaveAfterAdd(balance, days).Returned? && LeaveAfterAdd(balance, days).value < 0
    ensures LeaveAfterUse(LeaveAfterAdd(balance, days).value, EmployeeStatus.Active, days)
            == Threw(DomainException("Insufficient leave balance"))
  {
  }

  /* ---------------- skills ---------------- */

  /** `_skills.FirstOrDefault(s => s.Technology equals technology, ignoring case)`, as an index. */
  function FindSkill(skills: seq<EmployeeSkill>, technology: string): (r: Option<nat>)
    ensures r.Some? ==> r.value < |skills| && EqualsIgnoreCase(skills[r.value].technology, technology)
    ensures r.Some? ==> forall k :: 0 <= k < r.value ==> !EqualsIgnoreCase(skills[k].technology, technology)
    ensures r.None? ==> forall k :: 0 <= k < |skills| ==> !EqualsIgnoreCase(skills[k].technology, technology)
  {
    if skills == [] then None
    else if EqualsIgnoreCase(skills[0].technology, technology) then Some(0)
    else
      var rest := FindSkill(skills[1..], technology);
      if rest.Some? then Some(rest.value + 1) else None
  }

  /** The technologies no two skills may share, up to case. */
  predicate DistinctTechnologies(skills: seq<EmployeeSkill>)
  {
    forall i, j :: 0 <= i < j < |skills| ==> !EqualsIgnoreCase(skills[i].technology, skills[j].technology)
  }

  /** `!string.IsNullOrEmpty(certification)`: a certification is to be recorded. */
  predicate CertificationGiven(certification: Option<string>)
  {
    !IsNullOrEmpty(certification)
  }

  /** A given certification that `AddCertification` rejects: non-empty but white space only. */
  predicate CertificationRejected(certification: Option<string>)
  {
    CertificationGiven(certification) && IsBlank(certification.value)
  }

  /** `PrimarySkills`: the technologies of the skills at Advanced level or above, in order. */
  function PrimaryTechnologies(skills: seq<EmployeeSkill>): (r: seq<string>)
    reads skills
    ensures |r| <= |skills|
    ensures forall t :: t in r <==> exists i :: 0 <= i < |skills| && skills[i].level.Ordinal() >= Advanced.Ordinal() && skills[i].technology == t
  {
    if skills == [] then []
    else
      var rest := PrimaryTechnologies(skills[1..]);
      assert forall i :: 0 < i < |skills| ==> skills[i] == skills[1..][i - 1];
      if skills[0].level.Ordinal() >= Advanced.Ordinal() then [skills[0].technology] + rest else rest
  }

  /* ---------------- assignments ---------------- */

  /** The summed allocation of the assignments whose period overlaps `period`. */
  function OverlapAllocation(assignments: seq<ProjectAssignment>, period: DateRange): int
    reads assignments
  {
    if assignments == [] then 0
    else (if assignments[0].period.Overlaps(period) then assignments[0].allocationPercentage else 0)
         + OverlapAllocation(assignments[1..], period)
  }

  lemma {:induction false} OverlapAllocationNonNegative(assignments: seq<ProjectAssignment>, period: DateRange)
    requires forall a :: a in assignments ==> a.Valid()
    ensures OverlapAllocation(assignments, period) >= 0
    decreases |assignments|
  {
    if assignments != [] {
      assert assignments[0] in assignments;
      OverlapAllocationNonNegative(assignments[1..], period);
    }
  }

  /** `_assignments.Where(a => a.IsActiveOn(date))`, keeping the order. */
  function ActiveOn(assignments: seq<ProjectAssignment>, date: Instant): (r: seq<ProjectAssignment>)
    ensures |r| <= |assignments|
    ensures forall i :: 0 <= i < |r| ==> r[i] in assignments && r[i].IsActiveOn(date)
    ensures forall i :: 0 <= i < |assignments| && assignments[i].IsActiveOn(date) ==> assignments[i] in r
    ensures multiset(r) <= multiset(assignments)
  {
    if assignments == [] then []
    else
      var rest := ActiveOn(assignments[1..], date);
      assert forall i :: 0 < i < |assignments| ==> assignments[i] == assignments[1..][i - 1];
      assert assignments == [assignments[0]] + assignments[1..];
      if assignments[0].IsActiveOn(date) then [assignments[0]] + rest else rest
  }

  /** `Sum(a => a.AllocationPercentage)`. */
  function SumAllocation(assignments: seq<ProjectAssignment>): int
    reads assignments
  {
    if assignments == [] then 0 else assignments[0].allocationPercentage + SumAllocation(assignments[1..])
  }

  /** Each valid assignment allocates 1 to 100 percent, so a sum over n of them lies in [n, 100 n]. */
  lemma {:induction false} SumAllocationBounds(assignments: seq<ProjectAssignment>)
    requires forall a :: a in assignments ==> a.Valid()
    ensures SumAllocation(assignments) >= |assignments|
    ensures SumAllocation(assignments) <= 100 * |assignments|
  {
    if assignments != [] {
      assert assignments[0] in assignments;
      assert forall a :: a in assignments[1..] ==> a in assignments;
      SumAllocationBounds(assignments[1..]);
    }
  }

  function Max(a: int, b: int): int
  {
    if a >= b then a else b
  }

  /* ---------------- the entity ---------------- */

  /** The employee's own mutable fields. */
  datatype EmployeeState = EmployeeState(
    name: string, email: string, hireDate: Day, status: EmployeeStatus,
    departmentId: Option<Guid>, managerId: Option<Guid>, position: Option<string>, salary: Option<real>,
    leaveBalance: Int32, skills: seq<EmployeeSkill>, assignments: seq<ProjectAssignment>)

  /** The checks of the constructor after the tenant check: name, then e-mail. */
  function CheckNewEmployee(name: string, email: string): (r: Outcome<()>)
    ensures r.Returned? <==> !IsBlank(name) && !IsBlank(email)
    ensures IsBlank(name) ==> r == Threw(ArgumentException("name", "Value cannot be null or empty"))
    ensures !IsBlank(name) && IsBlank(email) ==> r == Threw(ArgumentException("email", "Value cannot be null or empty"))
  {
    var _ :- Guard.AgainstNullOrEmpty(Some(name), "name");
    Guard.AgainstNullOrEmpty(Some(email), "email")
  }

  class Employee {
    const base: BaseEntity<DomainEvent>
    var name: string
    var email: string
    var hireDate: Day
    var status: EmployeeStatus
    var departmentId: Option<Guid>
    var managerId: Option<Guid>
    var position: Option<string>
    var salary: Option<real>
    var leaveBalance: Int32
    var skills: seq<EmployeeSkill>
    /** Loaded by persistence; no operation of the entity changes it. */
    var assignments: seq<ProjectAssignment>

    /**
     * The invariant the operations keep: never one's own manager, skills that are valid, belong to this employee and
     * have technologies distinct up to case, and valid assignments.
     */
    predicate Valid()
      reads this, skills, assignments
    {
      (managerId.Some? ==> managerId.value != base.id)
      && DistinctTechnologies(skills)
      && (forall s :: s in skills ==> s.Valid() && s.employeeId == base.id)
      && AssignmentsValid()
    }

    /** Every assignment of the employee allocates 1 to 100 percent of a valid period. */
    predicate AssignmentsValid()
      reads this, assignments
    {
      forall a :: a in assignments ==> a.Valid()
    }

    function State(): EmployeeState
      reads this
    {
      EmployeeState(name, email, hireDate, status, departmentId, managerId, position, salary, leaveBalance, skills, assignments)
    }

    constructor (base: BaseEntity<DomainEvent>, name: string, email: string, hireDate: Instant)
      ensures this.base == base
      ensures State() == EmployeeState(name, email, DateOf(hireDate), EmployeeStatus.Active, None, None, None, None, 0, [], [])
      ensures Valid()
    {
      this.base := base;
      this.name := name;
      this.email := email;
      this.hireDate := DateOf(hireDate);
      this.status := EmployeeStatus.Active;
      this.departmentId := None;
      this.managerId := None;
      this.position := None;
      this.salary := None;
      this.leaveBalance := 0;
      this.skills := [];
      this.assignments := [];
    }

    /** `new Employee(tenantId, name, email, hireDate)`: Active, hired on the date of `hireDate`, no leave. */
    static method Create(tenantId: string, id: Guid, now: Instant, name: string, email: string, hireDate: Instant)
      returns (r: Outcome<Employee>)
      ensures CheckTenant(tenantId).Threw? ==> r == Threw(CheckTenant(tenantId).error)
      ensures CheckTenant(tenantId).Returned? ==> (r.Threw? <==> CheckNewEmployee(name, email).Threw?)
      ensures CheckTenant(tenantId).Returned? && r.Threw? ==> r.error == CheckNewEmployee(name, email).error
      ensures r.Returned? ==> fresh(r.value) && fresh(r.value.base) && r.value.Valid()
      ensures r.Returned? ==> r.value.base.id == id && r.value.base.tenantId == tenantId && r.value.base.domainEvents == []
      ensures r.Returned? ==> r.value.State() == EmployeeState(name, email, DateOf(hireDate), EmployeeStatus.Active,
                                                               None, None, None, None, 0, [], [])
    {
      var b :- BaseEntity<DomainEvent>.Create(tenantId, id, now);
      var _ :- CheckNewEmployee(name, email);
      var e := new Employee(b, name, email, hireDate);
      return Returned(e);
    }

    method UpdatePersonalInfo(name: string, email: string, now: Instant) returns (r: Outcome<()>)
      requires Valid()
      modifies this, base
      ensures Valid() && base.domainEvents == old(base.domainEvents)
      ensures IsBlank(name) ==> r == Threw(ArgumentException("name", "Value cannot be null or empty"))
      ensures !IsBlank(name) && IsBlank(email) ==> r == Threw(ArgumentException("email", "Value cannot be null or empty"))
      ensures !IsBlank(name) && !IsBlank(email) && old(status) == Terminated ==>
                r == Threw(DomainException("Cannot update terminated employee information"))
      ensures r.Threw? ==> State() == old(State()) && base.updatedAt == old(base.updatedAt)
      ensures r.Returned? ==> State() == old(State()).(name := name, email := email) && base.updatedAt == now
    {
      var _ :- Guard.AgainstNullOrEmpty(Some(name), "name");
      var _ :- Guard.AgainstNullOrEmpty(Some(email), "email");
      var _ :- Guard.Against(status == Terminated, "Cannot update terminated employee information");
      this.name := name;
      this.email := email;
      base.UpdateTimestamp(now);
      return Done;
    }

    /**
     * Sets the position, then checks and sets the salary when one is given.
     * A negative salary throws after the position has already changed.
     */
    method UpdatePosition(position: Option<string>, salary: Option<real>, now: Instant) returns (r: Outcome<()>)
      requires Valid()
      modifies this, base
      ensures Valid() && base.domainEvents == old(base.domainEvents)
      ensures old(status) == Terminated ==> r == Threw(DomainException("Cannot update terminated employee position"))
      ensures old(status) == Terminated ==> State() == old(State()) && base.updatedAt == old(base.updatedAt)
      ensures old(status) != Terminated && salary.Some? && salary.value < 0.0 ==>
                r == Threw(ArgumentException("salary", "Value cannot be negative"))
                && State() == old(State()).(position := position) && base.updatedAt == old(base.updatedAt)
      ensures r.Returned? <==> old(status) != Terminated && (salary.None? || salary.value >= 0.0)
      ensures r.Returned? ==> State() == old(State()).(position := position, salary := if salary.Some? then salary else old(this.salary))
      ensures r.Returned? ==> base.updatedAt == now
    {
      var _ :- Guard.Against(status == Terminated, "Cannot update terminated employee position");
      this.position := position;
      if salary.Some? {
        var _ :- Guard.AgainstNegative(salary.value, "salary");
        this.salary := salary;
      }
      base.UpdateTimestamp(now);
      return Done;
    }

    /** Fails for a Terminated employee, an empty department or the employee as their own manager. */
    method AssignToDepartment(departmentId: Guid, managerId: Option<Guid>, now: Instant) returns (r: Outcome<()>)
      requires Valid()
      modifies this, base
      ensures Valid() && base.domainEvents == old(base.domainEvents)
      ensures old(status) == Terminated ==> r == Threw(DomainException("Cannot assign terminated employee to department"))
      ensures old(status) != Terminated && departmentId == EmptyGuid ==>
                r == Threw(ArgumentException("departmentId", "Guid cannot be empty"))
      ensures old(status) != Terminated && departmentId != EmptyGuid && managerId == Some(base.id) ==>
                r == Threw(DomainException("Employee cannot be their own manager"))
      ensures r.Returned? <==> old(status) != Terminated && departmentId != EmptyGuid && managerId != Some(base.id)
      ensures r.Threw? ==> State() == old(State()) && base.updatedAt == old(base.updatedAt)
      ensures r.Returned? ==> State() == old(State()).(departmentId := Some(departmentId), managerId := managerId)
      ensures r.Returned? ==> base.updatedAt == now
    {
      var _ :- Guard.Against(status == Terminated, "Cannot assign terminated employee to department");
      var _ :- Guard.AgainstInvalidGuid(departmentId, "departmentId");
      if managerId.Some? {
        var _ :- Guard.Against(managerId.value == base.id, "Employee cannot be their own manager");
      }
      this.departmentId := Some(departmentId);
      this.managerId := managerId;
      base.UpdateTimestamp(now);
      return Done;
    }

    /** The branch for a matching skill: level, years and last use change, then a given certification is added. */
    static method RefreshSkill(skill: EmployeeSkill, level: SkillLevel, yearsExperience: int,
                               certification: Option<string>, today: Day)
      returns (r: Outcome<()>)
      requires yearsExperience >= 0
      modifies skill
      ensures skill.Valid()
      ensures r.Threw? <==> CertificationRejected(certification)
      ensures r.Threw? ==> r.error == ArgumentException("certification", "Value cannot be null or empty")
      ensures skill.State() == old(skill.State()).(
                level := level, yearsExperience := yearsExperience, lastUsedDate := Some(today),
                certification := if CertificationGiven(certification) && r.Returned? then certification
                                 else old(skill.certification))
    {
      var updated := skill.UpdateSkill(level, yearsExperience, today);
      if CertificationGiven(certification) {
        var _ :- skill.AddCertification(certification.value);
      }
      return Done;
    }

    /** The branch for a new skill: it is created, and a given certification is added before it is kept. */
    static method NewSkill(id: Guid, employeeId: Guid, technology: string, level: SkillLevel, yearsExperience: int,
                           certification: Option<string>, today: Day, now: Instant)
      returns (r: Outcome<EmployeeSkill>)
      requires !IsBlank(technology) && yearsExperience >= 0
      ensures r.Threw? <==> employeeId == EmptyGuid || CertificationRejected(certification)
      ensures employeeId == EmptyGuid ==> r == Threw(ArgumentException("employeeId", "Guid cannot be empty"))
      ensures employeeId != EmptyGuid && r.Threw? ==> r.error == ArgumentException("certification", "Value cannot be null or empty")
      ensures r.Returned? ==> fresh(r.value) && r.value.Valid()
      ensures r.Returned? ==> r.value.technology == technology && r.value.employeeId == employeeId
      ensures r.Returned? ==> r.value.State() == SkillState(level, yearsExperience, Some(today),
                                                            if CertificationGiven(certification) then certification else None)
    {
      var skill :- EmployeeSkill.Create(id, employeeId, technology, level, yearsExperience, today, now);
      if CertificationGiven(certification) {
        var _ :- skill.AddCertification(certification.value);
      }
      return Returned(skill);
    }

    /**
     * Updates the skill whose technology matches without regard to case, or
     * appends a new one.  Only the skill list and the skills change.  A
     * white-space certification throws after a matched skill was updated,
     * but before a new skill is appended.
     */
    method AddOrUpdateSkill(technology: string, level: SkillLevel, yearsExperience: int, certification: Option<string>,
                            newSkillId: Guid, today: Day, now: Instant)
      returns (r: Outcome<()>)
      requires Valid()
      modifies this, base, skills
      ensures Valid() && base.domainEvents == old(base.domainEvents)
      ensures State() == old(State()).(skills := skills)
      ensures IsBlank(technology) ==> r == Threw(ArgumentException("technology", "Value cannot be null or empty"))
      ensures !IsBlank(technology) && yearsExperience < 0 ==> r == Threw(ArgumentException("yearsExperience", "Value cannot be negative"))
      ensures !IsBlank(technology) && yearsExperience >= 0 && old(status) == Terminated ==>
                r == Threw(DomainException("Cannot update skills for terminated employee"))
      ensures r.Threw? ==> base.updatedAt == old(base.updatedAt)
      ensures r.Returned? ==> base.updatedAt == now
      ensures IsBlank(technology) || yearsExperience < 0 || old(status) == Terminated ==>
                skills == old(skills) && unchanged(old(skills))
      // a matching skill is updated in place
      ensures !IsBlank(technology) && yearsExperience >= 0 && old(status) != Terminated && old(FindSkill(skills, technology)).Some? ==>
                var i := old(FindSkill(skills, technology)).value;
                skills == old(skills)
                && (forall k :: 0 <= k < |skills| && k != i ==> unchanged(skills[k]))
                && (r.Threw? <==> CertificationRejected(certification))
                && (r.Threw? ==> r.error == ArgumentException("certification", "Value cannot be null or empty"))
                && skills[i].State() == old(skills[i].State()).(
                     level := level, yearsExperience := yearsExperience, lastUsedDate := Some(today),
                     certification := if CertificationGiven(certification) && r.Returned? then certification
                                      else old(skills[i].certification))
      // otherwise exactly one skill is appended
      ensures !IsBlank(technology) && yearsExperience >= 0 && old(status) != Terminated && old(FindSkill(skills, technology)).None? ==>
                unchanged(old(skills))
                && (r.Threw? <==> base.id == EmptyGuid || CertificationRejected(certification))
                && (base.id == EmptyGuid ==> r == Threw(ArgumentException("employeeId", "Guid cannot be empty")))
                && (r.Threw? && base.id != EmptyGuid ==>
                      r.error == ArgumentException("certification", "Value cannot be null or empty"))
                && (r.Threw? ==> skills == old(skills))
                && (r.Returned? ==> |skills| == |old(skills)| + 1 && skills[..|old(skills)|] == old(skills)
                                    && fresh(skills[|old(skills)|])
                                    && skills[|old(skills)|].technology == technology
                                    && skills[|old(skills)|].employeeId == base.id
                                    && skills[|old(skills)|].State() == SkillState(level, yearsExperience, Some(today),
                                         if CertificationGiven(certification) then certification else None))
    {
      var _ :- Guard.AgainstNullOrEmpty(Some(technology), "technology");
      var _ :- Guard.AgainstNegativeInt(yearsExperience, "yearsExperience");
      var _ :- Guard.Against(status == Terminated, "Cannot update skills for terminated employee");
      r := PutSkill(technology, level, yearsExperience, certification, newSkillId, today, now);
    }

    /** `AddOrUpdateSkill` once its three checks have passed. */
    method PutSkill(technology: string, level: SkillLevel, yearsExperience: int, certification: Option<string>,
                    newSkillId: Guid, today: Day, now: Instant)
      returns (r: Outcome<()>)
      requires Valid() && !IsBlank(technology) && yearsExperience >= 0
      modifies this, base, skills
      ensures Valid() && base.domainEvents == old(base.domainEvents)
      ensures State() == old(State()).(skills := skills)
      ensures r.Threw? ==> base.updatedAt == old(base.updatedAt)
      ensures r.Returned? ==> base.updatedAt == now
      ensures old(FindSkill(skills, technology)).Some? ==>
                var i := old(FindSkill(skills, technology)).value;
                skills == old(skills)
                && (forall k :: 0 <= k < |skills| && k != i ==> unchanged(skills[k]))
                && (r.Threw? <==> CertificationRejected(certification))
                && (r.Threw? ==> r.error == ArgumentException("certification", "Value cannot be null or empty"))
                && skills[i].State() == old(skills[i].State()).(
                     level := level, yearsExperience := yearsExperience, lastUsedDate := Some(today),
                     certification := if CertificationGiven(certification) && r.Returned? then certification
                                      else old(skills[i].certification))
      ensures old(FindSkill(skills, technology)).None? ==>
                unchanged(old(skills))
                && (r.Threw? <==> base.id == EmptyGuid || CertificationRejected(certification))
                && (base.id == EmptyGuid ==> r == Threw(ArgumentException("employeeId", "Guid cannot be empty")))
                && (r.Threw? && base.id != EmptyGuid ==>
                      r.error == ArgumentException("certification", "Value cannot be null or empty"))
                && (r.Threw? ==> skills == old(skills))
                && (r.Returned? ==> |skills| == |old(skills)| + 1 && skills[..|old(skills)|] == old(skills)
                                    && fresh(skills[|old(skills)|])
                                    && skills[|old(skills)|].technology == technology
                                    && skills[|old(skills)|].employeeId == base.id
                                    && skills[|old(skills)|].State() == SkillState(level, yearsExperience, Some(today),
                                         if CertificationGiven(certification) then certification else None))
    {
      var found := FindSkill(skills, technology);
      if found.Some? {
        var _ :- RefreshSkill(skills[found.value], level, yearsExperience, certification, today);
      } else {
        var skill :- NewSkill(newSkillId, base.id, technology, level, yearsExperience, certification, today, now);
        skills := skills + [skill];
      }
      base.UpdateTimestamp(now);
      return Done;
    }

    /** Removes the first skill whose technology matches without regard to case; no match changes nothing. */
    method RemoveSkill(technology: string, now: Instant) returns (r: Outcome<()>)
      requires Valid()
      modifies this, base
      ensures Valid() && base.domainEvents == old(base.domainEvents)
      ensures IsBlank(technology) ==> r == Threw(ArgumentException("technology", "Value cannot be null or empty"))
      ensures !IsBlank(technology) && old(status) == Terminated ==> r == Threw(DomainException("Cannot update skills for terminated employee"))
      ensures r.Returned? <==> !IsBlank(technology) && old(status) != Terminated
      ensures r.Returned? && old(FindSkill(skills, technology)).Some? ==>
                var i := old(FindSkill(skills, technology)).value;
                State() == old(State()).(skills := old(skills)[..i] + old(skills)[i + 1..]) && base.updatedAt == now
      ensures r.Threw? || old(FindSkill(skills, technology)).None? ==>
                State() == old(State()) && base.updatedAt == old(base.updatedAt)
    {
      var _ :- Guard.AgainstNullOrEmpty(Some(technology), "technology");
      var _ :- Guard.Against(status == Terminated, "Cannot update skills for terminated employee");
      var found := FindSkill(skills, technology);
      if found.Some? {
        var i := found.value;
        skills := skills[..i] + skills[i + 1..];
        base.UpdateTimestamp(now);
      }
      return Done;
    }

    /**
     * Moves along the transition table.  The termination and reactivation
     * hooks of the entity are empty, so only the status and the timestamp change.
     */
    method ChangeStatus(newStatus: EmployeeStatus, now: Instant) returns (r: Outcome<()>)
      requires Valid()
      modifies this, base
      ensures Valid() && base.domainEvents == old(base.domainEvents)
      ensures r.Returned? <==> CanTransition(old(status), newStatus)
      ensures r.Threw? ==> r.error == ValidateStatusTransition(old(status), newStatus).error
      ensures r.Threw? ==> State() == old(State()) && base.updatedAt == old(base.updatedAt)
      ensures r.Returned? ==> State() == old(State()).(status := newStatus) && base.updatedAt == now
    {
      var _ :- ValidateStatusTransition(status, newStatus);
      status := newStatus;
      base.UpdateTimestamp(now);
      return Done;
    }

    method UpdateLeaveBalance(newBalance: Int32, now: Instant) returns (r: Outcome<()>)
      requires Valid()
      modifies this, base
      ensures Valid() && base.domainEvents == old(base.domainEvents)
      ensures newBalance < 0 ==> r == Threw(ArgumentException("newBalance", "Value cannot be negative"))
      ensures newBalance >= 0 && old(status) == Terminated ==>
                r == Threw(DomainException("Cannot update leave balance for terminated employee"))
      ensures r.Returned? <==> newBalance >= 0 && old(status) != Terminated
      ensures r.Threw? ==> State() == old(State()) && base.updatedAt == old(base.updatedAt)
      ensures r.Returned? ==> State() == old(State()).(leaveBalance := newBalance) && base.updatedAt == now
    {
      var _ :- Guard.AgainstNegativeInt(newBalance, "newBalance");
      var _ :- Guard.Against(status == Terminated, "Cannot update leave balance for terminated employee");
      leaveBalance := newBalance;
      base.UpdateTimestamp(now);
      return Done;
    }

    method UseLeave(days: Int32, now: Instant) returns (r: Outcome<()>)
      requires Valid()
      modifies this, base
      ensures Valid() && base.domainEvents == old(base.domainEvents)
      ensures r.Threw? <==> LeaveAfterUse(old(leaveBalance), old(status), days).Threw?
      ensures r.Threw? ==> r.error == LeaveAfterUse(old(leaveBalance), old(status), days).error
      ensures r.Threw? ==> State() == old(State()) && base.updatedAt == old(base.updatedAt)
      ensures r.Returned? ==> State() == old(State()).(leaveBalance := LeaveAfterUse(old(leaveBalance), old(status), days).value)
      ensures r.Returned? ==> base.updatedAt == now
    {
      leaveBalance :- LeaveAfterUse(leaveBalance, status, days);
      base.UpdateTimestamp(now);
      return Done;
    }

    method AddLeave(days: Int32, now: Instant) returns (r: Outcome<()>)
      requires Valid()
      modifies this, base
      ensures Valid() && base.domainEvents == old(base.domainEvents)
      ensures r.Threw? <==> LeaveAfterAdd(old(leaveBalance), days).Threw?
      ensures r.Threw? ==> r.error == LeaveAfterAdd(old(leaveBalance), days).error
      ensures r.Threw? ==> State() == old(State()) && base.updatedAt == old(base.updatedAt)
      ensures r.Returned? ==> State() == old(State()).(leaveBalance := LeaveAfterAdd(old(leaveBalance), days).value)
      ensures r.Returned? ==> base.updatedAt == now
    {
      leaveBalance :- LeaveAfterAdd(leaveBalance, days);
      base.UpdateTimestamp(now);
      return Done;
    }

    /**
     * `GetAvailableAllocation(start, end)`: 0 unless Active; otherwise the
     * range is built (and may throw) and the result is what the overlapping
     * assignments leave of 100 percent, never below 0.
     */
    function GetAvailableAllocation(startDate: Instant, endDate: Option<Instant>): (r: Outcome<int>)
      reads this, assignments
      ensures status != EmployeeStatus.Active ==> r == Returned(0)
      ensures status == EmployeeStatus.Active ==> (r.Threw? <==> DateRangeValue.Create(startDate, endDate).Threw?)
      ensures status == EmployeeStatus.Active && r.Returned? ==>
                r.value == Max(0, 100 - OverlapAllocation(assignments, DateRangeValue.Create(startDate, endDate).value))
      ensures r.Returned? ==> 0 <= r.value
    {
      if status != EmployeeStatus.Active then Returned(0)
      else
        var period :- DateRangeValue.Create(startDate, endDate);
        Returned(Max(0, 100 - OverlapAllocation(assignments, period)))
    }

    /** `IsAvailableForProject(start, end)`: Active, and the overlapping assignments sum below 100. */
    function IsAvailableForProject(startDate: Instant, endDate: Option<Instant>): (r: Outcome<bool>)
      reads this, assignments
      ensures status != EmployeeStatus.Active ==> r == Returned(false)
    {
      if status != EmployeeStatus.Active then Returned(false)
      else
        var period :- DateRangeValue.Create(startDate, endDate);
        Returned(OverlapAllocation(assignments, period) < 100)
    }

    /** `HasSkill(technology, minLevel)`: a matching skill exists, at `minLevel` or above when one is given. */
    function HasSkill(technology: string, minLevel: Option<SkillLevel>): (r: Outcome<bool>)
      reads this, skills
      ensures IsBlank(technology) ==> r == Threw(ArgumentException("technology", "Value cannot be null or empty"))
      ensures !IsBlank(technology) ==> r.Returned?
      ensures r.Returned? && r.value ==> exists i :: 0 <= i < |skills| && EqualsIgnoreCase(skills[i].technology, technology)
      ensures !IsBlank(technology) && minLevel.None? ==>
                (r.value <==> exists i :: 0 <= i < |skills| && EqualsIgnoreCase(skills[i].technology, technology))
      ensures !IsBlank(technology) && minLevel.Some? ==>
                (r.value <==> FindSkill(skills, technology).Some?
                              && skills[FindSkill(skills, technology).value].level.Ordinal() >= minLevel.value.Ordinal())
    {
      var _ :- Guard.AgainstNullOrEmpty(Some(technology), "technology");
      var found := FindSkill(skills, technology);
      if found.None? then Returned(false)
      else
        Returned(minLevel.None? || skills[found.value].level.Ordinal() >= minLevel.value.Ordinal())
    }

    /**
     * `GetYearsOfService()`: whole days from the hire date to the last update
     * of a Terminated employee, or to today, divided by 365 with C# `int`
     * division.
     */
    function GetYearsOfService(today: Day): (r: int)
      reads this, base
      ensures status != Terminated && hireDate <= today ==> r == (today - hireDate) / 365 && r >= 0
      ensures status != Terminated && hireDate > today ==> r == -((hireDate - today) / 365) && r <= 0
      ensures status == Terminated && StartOf(hireDate) <= base.updatedAt ==>
                r == (DateOf(base.updatedAt) - hireDate) / 365 && r >= 0
      ensures status == Terminated && base.updatedAt < StartOf(hireDate) ==>
                r == -(((StartOf(hireDate) - base.updatedAt) / TicksPerDay) / 365) && r <= 0
    {
      var endDate := if status == Terminated then base.updatedAt else StartOf(today);
      TruncDiv(SpanDays(endDate, StartOf(hireDate)), 365)
    }

    /** `GetActiveAssignments()`: the loaded assignments whose period contains today. */
    function GetActiveAssignments(today: Day): (r: seq<ProjectAssignment>)
      reads this
      ensures forall i :: 0 <= i < |r| ==> r[i] in assignments && r[i].period.ContainsDay(today)
      ensures forall i :: 0 <= i < |assignments| && assignments[i].period.ContainsDay(today) ==> assignments[i] in r
      ensures multiset(r) <= multiset(assignments)
    {
      ActiveOn(assignments, StartOf(today))
    }

    /** `GetCurrentTotalAllocation()`: the summed allocation of today's assignments. */
    function GetCurrentTotalAllocation(today: Day): (n: int)
      reads this, assignments
      ensures AssignmentsValid() ==> n >= |GetActiveAssignments(today)|
      ensures AssignmentsValid() ==> n <= 100 * |GetActiveAssignments(today)|
    {
      if AssignmentsValid() then
        SumAllocationBounds(GetActiveAssignments(today));
        SumAllocation(GetActiveAssignments(today))
      else SumAllocation(GetActiveAssignments(today))
    }

    /** `PrimarySkills`. */
    function PrimarySkills(): (r: seq<string>)
      reads this, skills
      ensures forall t :: t in r <==> exists i :: 0 <= i < |skills| && skills[i].level.Ordinal() >= Advanced.Ordinal() && skills[i].technology == t
    {
      PrimaryTechnologies(skills)
    }

    /** `IsOverallocated`: today's assignments add up to more than 100 percent. */
    predicate IsOverallocated(today: Day)
      reads this, assignments
    {
      GetCurrentTotalAllocation(today) > 100
    }

    /** `IsAssignable`: Active and not over-allocated. */
    predicate IsAssignable(today: Day)
      reads this, assignments
    {
      status == EmployeeStatus.Active && !IsOverallocated(today)
    }
  }

  /**
   * Over-allocation needs at least two assignments active on the day, since
   * each valid one allocates at most 100 percent; `IsAssignable` holds only
   * for an Active employee, and always for an Active one with at most one
   * assignment that day.
   */
  lemma AssignabilityByActiveCount(e: Employee, today: Day)
    ensures e.AssignmentsValid() && e.IsOverallocated(today) ==> |e.GetActiveAssignments(today)| >= 2
    ensures e.IsAssignable(today) ==> e.status == EmployeeStatus.Active
    ensures e.status == EmployeeStatus.Active && e.AssignmentsValid() && |e.GetActiveAssignments(today)| <= 1 ==>
              e.IsAssignable(today)
  {
  }

  /**
   * `GetAvailableAllocation` lies in [0,100], and `IsAvailableForProject`
   * holds exactly when some allocation is left: both throw on the same
   * arguments, and otherwise availability is a positive allocation.
   */
  lemma AvailabilityIsPositiveAllocation(e: Employee, startDate: Instant, endDate: Option<Instant>)
    requires e.Valid()
    ensures e.GetAvailableAllocation(startDate, endDate).Returned? ==> e.GetAvailableAllocation(startDate, endDate).value <= 100
    ensures e.IsAvailableForProject(startDate, endDate).Threw? <==> e.GetAvailableAllocation(startDate, endDate).Threw?
    ensures e.IsAvailableForProject(startDate, endDate).Returned? ==>
              (e.IsAvailableForProject(startDate, endDate).value <==> e.GetAvailableAllocation(startDate, endDate).value > 0)
  {
    var c := DateRangeValue.Create(startDate, endDate);
    if e.status == EmployeeStatus.Active && c.Returned? {
      OverlapAllocationNonNegative(e.assignments, c.value);
    }
  }
}


