// One technology an employee knows, with level, experience and an optional
// certification.  The technology is fixed when the skill is created.
module EmployeeSkillEntity {
  import opened Core
  import opened Text
  import opened Calendar
  import opened Enums
  import Guard

  /** The constructor checks, in order: the employee Guid, the technology, the years of experience. */
  function CheckNew(employeeId: Guid, technology: string, yearsExperience: int): (r: Outcome<()>)
    ensures r.Returned? <==> employeeId != EmptyGuid && !IsBlank(technology) && yearsExperience >= 0
    ensures employeeId == EmptyGuid ==> r == Threw(ArgumentException("employeeId", "Guid cannot be empty"))
    ensures employeeId != EmptyGuid && IsBlank(technology) ==> r == Threw(ArgumentException("technology", "Value cannot be null or empty"))
    ensures employeeId != EmptyGuid && !IsBlank(technology) && yearsExperience < 0 ==>
              r == Threw(ArgumentException("yearsExperience", "Value cannot be negative"))
  {
    var _ :- Guard.AgainstInvalidGuid(employeeId, "employeeId");
    var _ :- Guard.AgainstNullOrEmpty(Some(technology), "technology");
    Guard.AgainstNegativeInt(yearsExperience, "yearsExperience")
  }

  /** The mutable part of a skill. */
  datatype SkillState = SkillState(level: SkillLevel, yearsExperience: int, lastUsedDate: Option<Day>, certification: Option<string>)

  class EmployeeSkill {
    const id: Guid
    const employeeId: Guid
    const technology: string
    const createdAt: Instant
    var level: SkillLevel
    var yearsExperience: int
    var lastUsedDate: Option<Day>
    var certification: Option<string>

    predicate Valid()
      reads this
    {
      yearsExperience >= 0
    }

    function State(): SkillState
      reads this
    {
      SkillState(level, yearsExperience, lastUsedDate, certification)
    }

    constructor (id: Guid, employeeId: Guid, technology: string, level: SkillLevel, yearsExperience: int,
                 today: Day, now: Instant)
      requires CheckNew(employeeId, technology, yearsExperience).Returned?
      ensures Valid()
      ensures this.id == id && this.employeeId == employeeId && this.technology == technology && createdAt == now
      ensures State() == SkillState(level, yearsExperience, Some(today), None)
    {
      this.id := id;
      this.employeeId := employeeId;
      this.technology := technology;
      this.level := level;
      this.yearsExperience := yearsExperience;
      this.lastUsedDate := Some(today);
      this.certification := None;
      this.createdAt := now;
    }

    /** `new EmployeeSkill(employeeId, technology, level, years)`, last used today. */
    static method Create(id: Guid, employeeId: Guid, technology: string, level: SkillLevel, yearsExperience: int,
                         today: Day, now: Instant)
      returns (r: Outcome<EmployeeSkill>)
      ensures r.Threw? <==> CheckNew(employeeId, technology, yearsExperience).Threw?
      ensures r.Threw? ==> r.error == CheckNew(employeeId, technology, yearsExperience).error
      ensures r.Returned? ==> fresh(r.value) && r.value.Valid()
      ensures r.Returned? ==> r.value.id == id && r.value.employeeId == employeeId && r.value.technology == technology
      ensures r.Returned? ==> r.value.State() == SkillState(level, yearsExperience, Some(today), None)
    {
      var _ :- CheckNew(employeeId, technology, yearsExperience);
      var s := new EmployeeSkill(id, employeeId, technology, level, yearsExperience, today, now);
      return Returned(s);
    }

    /** Rejects negative years; otherwise sets level, years and last use, and nothing else. */
    method UpdateSkill(level: SkillLevel, yearsExperience: int, today: Day) returns (r: Outcome<()>)
      modifies this
      ensures r.Returned? <==> yearsExperience >= 0
      ensures r.Threw? ==> r.error == ArgumentException("yearsExperience", "Value cannot be negative") && State() == old(State())
      ensures r.Returned? ==> State() == old(State()).(level := level, yearsExperience := yearsExperience, lastUsedDate := Some(today))
      ensures old(Valid()) ==> Valid()
    {
      var _ :- Guard.AgainstNegativeInt(yearsExperience, "yearsExperience");
      this.level := level;
      this.yearsExperience := yearsExperience;
      lastUsedDate := Some(today);
      return Done;
    }

    /** Rejects blank text; otherwise records the certification, and nothing else. */
    method AddCertification(certification: string) returns (r: Outcome<()>)
      modifies this
      ensures r.Returned? <==> !IsBlank(certification)
      ensures r.Threw? ==> r.error == ArgumentException("certification", "Value cannot be null or empty") && State() == old(State())
      ensures r.Returned? ==> State() == old(State()).(certification := Some(certification))
      ensures old(Valid()) ==> Valid()
    {
      var _ :- Guard.AgainstNullOrEmpty(Some(certification), "certification");
      this.certification := Some(certification);
      return Done;
    }

    method MarkAsUsed(today: Day)
      modifies this
      ensures State() == old(State()).(lastUsedDate := Some(today))
      ensures old(Valid()) ==> Valid()
    {
      lastUsedDate := Some(today);
    }
  }
}
