# TechFlowERP domain core in Dafny

This project models the domain layer of TechFlowERP, a multi-tenant ERP for
IT-services companies, and proves properties of it. Its entities are
clients, projects, employees, project assignments, milestones, time entries,
invoices and their line items. Two services sit on top of them: the project
domain service and the employee application service.

- **Shared kernel.**
  - `Guard` is modelled as functions returning an `Outcome` (`Returned` or
    `Threw`), with the exact .NET exception and message of each guard.
  - `Result<T>` is its own datatype. Reading `Value` on a failure throws.
  - `BaseEntity` is a class that every aggregate holds as `base`. It carries
    the id, the tenant, the timestamps and the pending domain events.
- **Value objects.**
  - `DateRange` works on whole days, because the constructor keeps only
    `.Date`.
  - `Money` is an amount and an upper-cased currency.
  - `ProjectCode` is a string matching `^[A-Z]{2,4}-\d{4}-\d{2}$`.
- **C# `int`** is the subset type `Int32`. Unchecked addition wraps around,
  as it does in the leave balance.
- **Entities** are classes whose methods change fields in place. Each method
  states its whole new state through a `State()` snapshot and its error
  cases through the thrown exception. Each method also keeps the entity's
  `Valid()` invariant.
- **Services** take their repositories as parameters. A by-id lookup becomes
  a `map`; a query becomes a function such as "total hours of an employee in
  a window". Every modelled `try`/`catch` becomes `Caught`, which turns a thrown
  exception into `Failure([context + message])`.

DateTime is an `Instant`: ticks since 0001-01-01. Its `.Date` is a `Day`:
days since that date, which was a Monday. The calendar (year, month, day of
week) is computed from the day number. A `Guid` is a natural number, and 0
is `Guid.Empty`. The current time and date, new Guids, e-mail parsing and
repository results are parameters.

## Model

| member | source | states |
|---|---|---|
| Guard.Against | src/ERP.SharedKernel/Utilities/Guard.cs:8-12 | throws exactly when the condition holds, a DomainException with the given message |
| Guard.AgainstNull | src/ERP.SharedKernel/Utilities/Guard.cs:14-18 | throws ArgumentNullException(parameter) exactly for null |
| Guard.AgainstNullOrEmpty | src/ERP.SharedKernel/Utilities/Guard.cs:20-24 | passes exactly when the string is non-null and has a non-white-space character, otherwise ArgumentException "Value cannot be null or empty" |
| Guard.AgainstNegative | src/ERP.SharedKernel/Utilities/Guard.cs:26-30 | passes exactly for a decimal >= 0, otherwise ArgumentException "Value cannot be negative" |
| Guard.AgainstNegativeInt | src/ERP.SharedKernel/Utilities/Guard.cs:32-36 | passes exactly for an int >= 0, otherwise ArgumentException "Value cannot be negative" |
| Guard.AgainstEmpty | src/ERP.SharedKernel/Utilities/Guard.cs:38-42 | passes exactly for a non-null collection with an element |
| Guard.AgainstInvalidGuid | src/ERP.SharedKernel/Utilities/Guard.cs:44-48 | passes exactly for a Guid other than Guid.Empty |
| Results.Result.Value | src/ERP.SharedKernel/Utilities/Result.cs:40 | the value of a success; on a failure, InvalidOperationException "Cannot access value of failed result" |
| Results.Succeed | src/ERP.SharedKernel/Utilities/Result.cs:23 | a success with no errors whose Value is the given value |
| Results.Fail | src/ERP.SharedKernel/Utilities/Result.cs:24 | a failure whose errors are exactly the one message and whose Value throws |
| Results.FailAll | src/ERP.SharedKernel/Utilities/Result.cs:25 | a failure carrying the given errors, with null read as no errors (line 12) |
| Results.FromValue | src/ERP.SharedKernel/Utilities/Result.cs:42 | the implicit conversion is a success holding the value |
| Results.FailureIsNotSuccess | src/ERP.SharedKernel/Utilities/Result.cs:15-17 | IsFailure is the negation of IsSuccess; a success has no errors |
| Abstractions.CheckTenant | src/ERP.SharedKernel/Abstractions/BaseEntity.cs:21-25 | the tenant id is accepted exactly when it has a non-white-space character |
| Abstractions.BaseEntity.constructor | src/ERP.SharedKernel/Abstractions/BaseEntity.cs:14-25 | id and tenant set, both timestamps the creation instant, no events |
| Abstractions.BaseEntity.Create | src/ERP.SharedKernel/Abstractions/BaseEntity.cs:14-25 | throws the tenant guard's exception exactly for a blank tenant, otherwise a fresh entity as above |
| Abstractions.BaseEntity.AddDomainEvent | src/ERP.SharedKernel/Abstractions/BaseEntity.cs:39-42 | appends the event and leaves the timestamp alone |
| Abstractions.BaseEntity.ClearDomainEvents | src/ERP.SharedKernel/Abstractions/BaseEntity.cs:44-47 | empties the events and leaves the timestamp alone |
| Abstractions.BaseEntity.UpdateTimestamp | src/ERP.SharedKernel/Abstractions/BaseEntity.cs:49-52 | sets UpdatedAt to now and keeps the events |
| Abstractions.EqualsIsIdentityAndTenant | src/ERP.SharedKernel/Abstractions/BaseEntity.cs:54-63 | Equals holds iff ids and tenants agree; it is reflexive, symmetric and transitive, and false against null |
| DateRangeValue.Create | src/ERP.Domain/ValueObjects/DateRange.cs:12-19 | throws "End date must be after start date" exactly when an end is given that is not after the start; otherwise a valid range of the two dates |
| DateRangeValue.CreatedRangeContainsStart | src/ERP.Domain/ValueObjects/DateRange.cs:27-31 | every range that was built contains its own start instant |
| DateRangeValue.ContainsIff | src/ERP.Domain/ValueObjects/DateRange.cs:27-31 | Contains holds iff the date is on or after the start and, when there is an end, on or before it |
| DateRangeValue.SameDayRangeLastsOneDay | src/ERP.Domain/ValueObjects/DateRange.cs:12-25 | for any day, an end later on the same day is accepted, collapses to a one-day range and lasts 1 day |
| DateRangeValue.ClosedDurationAtLeastOne | src/ERP.Domain/ValueObjects/DateRange.cs:23-25 | a valid closed range lasts end - start + 1 >= 1 days |
| DateRangeValue.CompletedIsNotActive | src/ERP.Domain/ValueObjects/DateRange.cs:21-22 | IsCompleted is exactly the negation of IsActive |
| DateRangeValue.OpenRangeOverlapsAll | src/ERP.Domain/ValueObjects/DateRange.cs:33-41 | an open-ended range overlaps every range, in both directions |
| DateRangeValue.OverlapsSymmetric | src/ERP.Domain/ValueObjects/DateRange.cs:33-41 | Overlaps is symmetric |
| DateRangeValue.ClosedOverlapsIffCommonDay | src/ERP.Domain/ValueObjects/DateRange.cs:33-41 | two valid closed ranges overlap iff some day lies in both |
| MoneyValue.Create | src/ERP.Domain/ValueObjects/Money.cs:12-19 | throws for a negative amount, then for a blank currency; otherwise the amount with the currency upper-cased |
| MoneyValue.Zero | src/ERP.Domain/ValueObjects/Money.cs:21 | zero in the upper-cased currency, failing only for a blank currency |
| MoneyValue.ZeroUsd | src/ERP.Domain/ValueObjects/Money.cs:21 | Zero("USD") is 0 USD |
| MoneyValue.Money.Add | src/ERP.Domain/ValueObjects/Money.cs:23-27 | throws "Cannot add different currencies" on a currency mismatch, otherwise the sum in the same currency |
| MoneyValue.Money.Subtract | src/ERP.Domain/ValueObjects/Money.cs:29-34 | throws on a currency mismatch, then "Insufficient amount" when the result would be negative; otherwise the difference |
| MoneyValue.Money.Multiply | src/ERP.Domain/ValueObjects/Money.cs:36-40 | throws for a negative factor, otherwise the scaled amount in the same currency |
| MoneyValue.AddThenSubtract | src/ERP.Domain/ValueObjects/Money.cs:23-34 | adding then subtracting the same money gives back the original |
| MoneyValue.ZeroIsIdentity | src/ERP.Domain/ValueObjects/Money.cs:21-27 | zero of the same currency is a left and right identity of Add |
| MoneyValue.EqualityIsAmountAndCurrency | src/ERP.Domain/ValueObjects/Money.cs:42-46 | two Money values are equal iff amount and currency agree |
| ProjectCodeValue.Create | src/ERP.Domain/ValueObjects/ProjectCode.cs:15-22 | accepts exactly the strings matching the pattern, with `\d` read as an ASCII digit, and keeps them unchanged; blank gives the null-or-empty error, otherwise the pattern message |
| ProjectCodeValue.MatchUpperCase | src/ERP.Domain/ValueObjects/ProjectCode.cs:9-22 | a matching string is non-blank and already upper case, so ToUpperInvariant leaves it unchanged |
| ProjectCodeValue.Generate | src/ERP.Domain/ValueObjects/ProjectCode.cs:24-33 | blank prefix and a prefix length outside 2-4 throw the source's errors |
| ProjectCodeValue.GenerateSucceedsIff | src/ERP.Domain/ValueObjects/ProjectCode.cs:24-33 | generation succeeds iff the prefix is 2-4 characters whose upper-casing is all A-Z and the year has four digits; the code is PREFIX-YYYY-MM |
| ProjectCodeValue.CandidateMatchesIff | src/ERP.Domain/ValueObjects/ProjectCode.cs:9 | U-Y-M with a two-digit month matches iff the year has 4 digits and U is all upper-case letters |
| ProjectCodeValue.CodeShapeHyphens | src/ERP.Domain/ValueObjects/ProjectCode.cs:9 | a code of the pattern's shape has exactly two hyphens |
| ProjectCodeValue.SuffixedCodeNeverMatches | src/ERP.Domain/Services/ProjectDomainService.cs:109-112 | the retry code with a "-NN" suffix never matches the pattern |
| ProjectAssignmentEntity.CheckNew | src/ERP.Domain/Entities/ProjectAssignment.cs:12-31 | the constructor's checks in order (project Guid, employee Guid, role, allocation 1-100, rate >= 0), each with its exception, the last being ArgumentException "Value cannot be negative" for hourlyRate |
| ProjectAssignmentEntity.ProjectAssignment.constructor | src/ERP.Domain/Entities/ProjectAssignment.cs:12-31 | stores the arguments and establishes validity |
| ProjectAssignmentEntity.ProjectAssignment.Create | src/ERP.Domain/Entities/ProjectAssignment.cs:12-31 | throws exactly CheckNew's exception, otherwise a fresh valid assignment with the given fields |
| ProjectAssignmentEntity.CostWithoutRateIsZero | src/ERP.Domain/Entities/ProjectAssignment.cs:60-69 | without a positive hourly rate the estimated cost is 0 |
| ProjectAssignmentEntity.CostBounds | src/ERP.Domain/Entities/ProjectAssignment.cs:60-69 | for a non-negative duration the cost lies between 0 and 8 hours a day at the full rate |
| ProjectAssignmentEntity.FutureOpenAssignmentCostsNegative | src/ERP.Domain/Entities/ProjectAssignment.cs:60-69 | an open assignment that has not started has a negative duration and so a negative cost (-32 in the example) |
| ProjectAssignmentEntity.ProjectAssignment.UpdateAllocation | src/ERP.Domain/Entities/ProjectAssignment.cs:71-77 | accepts exactly 1-100, otherwise the allocation message and no change |
| ProjectAssignmentEntity.ProjectAssignment.UpdateRate | src/ERP.Domain/Entities/ProjectAssignment.cs:79-83 | accepts exactly a rate >= 0, otherwise ArgumentException and no change |
| ProjectAssignmentEntity.EstimatedHoursIgnored | src/ERP.Domain/Entities/ProjectAssignment.cs:60-69 | the estimatedHours argument does not affect the cost |
| ProjectAssignmentEntity.IsActiveOnIsContains | src/ERP.Domain/Entities/ProjectAssignment.cs:55-58 | IsActiveOn holds iff the date lies in the period |
| EmployeeSkillEntity.CheckNew | src/ERP.Domain/Entities/EmployeeSkill.cs:12-25 | the constructor's checks in order (employee Guid, technology, years >= 0) |
| EmployeeSkillEntity.EmployeeSkill.constructor | src/ERP.Domain/Entities/EmployeeSkill.cs:12-25 | a valid skill last used today with no certification |
| EmployeeSkillEntity.EmployeeSkill.Create | src/ERP.Domain/Entities/EmployeeSkill.cs:12-25 | throws exactly CheckNew's exception, otherwise the skill above |
| EmployeeSkillEntity.EmployeeSkill.UpdateSkill | src/ERP.Domain/Entities/EmployeeSkill.cs:43-50 | for years >= 0 sets level, years and last-used date, otherwise throws and changes nothing |
| EmployeeSkillEntity.EmployeeSkill.AddCertification | src/ERP.Domain/Entities/EmployeeSkill.cs:52-56 | a non-blank certification is stored, a blank one throws and changes nothing |
| EmployeeSkillEntity.EmployeeSkill.MarkAsUsed | src/ERP.Domain/Entities/EmployeeSkill.cs:58-61 | only the last-used date changes, to today |
| InvoiceLineItemEntity.CheckNew | src/ERP.Domain/Entities/InvoiceLineItem.cs:11-23 | the constructor's checks in order (invoice Guid, description, quantity > 0, price >= 0) |
| InvoiceLineItemEntity.InvoiceLineItem.constructor | src/ERP.Domain/Entities/InvoiceLineItem.cs:11-23 | stores the arguments and establishes validity |
| InvoiceLineItemEntity.InvoiceLineItem.Create | src/ERP.Domain/Entities/InvoiceLineItem.cs:11-23 | throws exactly CheckNew's exception, otherwise a fresh valid line |
| InvoiceLineItemEntity.InvoiceLineItem.Amount | src/ERP.Domain/Entities/InvoiceLineItem.cs:38 | quantity times price is never negative for a valid line |
| InvoiceLineItemEntity.NonNegativeProduct | src/ERP.Domain/Entities/InvoiceLineItem.cs:38 | a positive quantity times a non-negative price is non-negative |
| InvoiceLineItemEntity.InvoiceLineItem.UpdateQuantity | src/ERP.Domain/Entities/InvoiceLineItem.cs:43-47 | accepts exactly a positive quantity; other fields unchanged |
| InvoiceLineItemEntity.InvoiceLineItem.UpdateUnitPrice | src/ERP.Domain/Entities/InvoiceLineItem.cs:49-53 | accepts exactly a price >= 0; other fields unchanged |
| InvoiceLineItemEntity.InvoiceLineItem.UpdateDescription | src/ERP.Domain/Entities/InvoiceLineItem.cs:55-59 | accepts exactly a non-blank description; other fields unchanged |
| TimeEntryEntity.CheckNew | src/ERP.Domain/Entities/TimeEntry.cs:15-31 | the constructor's checks in order (employee, project, 0 < hours <= 24, not in the future) |
| TimeEntryEntity.TimeEntry.constructor | src/ERP.Domain/Entities/TimeEntry.cs:15-31 | an unapproved entry with the given hours, description and billability |
| TimeEntryEntity.TimeEntry.Create | src/ERP.Domain/Entities/TimeEntry.cs:15-31 | tenant check first, then CheckNew; on success the entry above dated on or before today |
| TimeEntryEntity.TimeEntry.UpdateHours | src/ERP.Domain/Entities/TimeEntry.cs:50-57 | an approved entry throws, hours outside (0, 24] throw; otherwise only the hours and timestamp change |
| TimeEntryEntity.TimeEntry.UpdateDescription | src/ERP.Domain/Entities/TimeEntry.cs:59-64 | succeeds exactly while unapproved and then changes only the description |
| TimeEntryEntity.TimeEntry.Approve | src/ERP.Domain/Entities/TimeEntry.cs:66-75 | an approved entry or an empty approver throws; otherwise approved by the approver at now |
| TimeEntryEntity.TimeEntry.Reject | src/ERP.Domain/Entities/TimeEntry.cs:77-85 | succeeds exactly while unapproved and leaves the entry unapproved with no approver |
| TimeEntryEntity.TimeEntry.SetBillable | src/ERP.Domain/Entities/TimeEntry.cs:87-92 | succeeds exactly while unapproved and then changes only billability |
| TimeEntryEntity.TimeEntry.CalculateCost | src/ERP.Domain/Entities/TimeEntry.cs:94-98 | a negative rate throws; otherwise hours times rate, between 0 and 24 times the rate |
| TimeEntryEntity.CostBound | src/ERP.Domain/Entities/TimeEntry.cs:94-98 | hours in (0, 24] at a non-negative rate cost between 0 and 24 times the rate |
| TimeEntryEntity.EditableOnlyByOwnerWhileUnapproved | src/ERP.Domain/Entities/TimeEntry.cs:100-104 | editable iff unapproved and the user is the entry's employee |
| ProjectMilestoneEntity.CheckNew | src/ERP.Domain/Entities/ProjectMilestone.cs:12-28 | the constructor's checks in order (project Guid, name, payment 0-100) |
| ProjectMilestoneEntity.ProjectMilestone.constructor | src/ERP.Domain/Entities/ProjectMilestone.cs:12-28 | a valid Pending milestone due on the due date's day |
| ProjectMilestoneEntity.ProjectMilestone.Create | src/ERP.Domain/Entities/ProjectMilestone.cs:12-28 | throws exactly CheckNew's exception, otherwise the milestone above |
| ProjectMilestoneEntity.OverdueCounters | src/ERP.Domain/Entities/ProjectMilestone.cs:51-71 | a completed milestone is never overdue and has 0 days until due; DaysOverdue is 0 unless overdue, and then it is minus DaysUntilDue |
| ProjectMilestoneEntity.ProjectMilestone.StartProgress | src/ERP.Domain/Entities/ProjectMilestone.cs:73-79 | Pending or Delayed move to InProgress; Completed and InProgress throw their own messages and change nothing |
| ProjectMilestoneEntity.ProjectMilestone.MarkAsCompleted | src/ERP.Domain/Entities/ProjectMilestone.cs:81-88 | throws exactly when already completed; otherwise Completed at now with the deliverables |
| ProjectMilestoneEntity.ProjectMilestone.MarkAsDelayed | src/ERP.Domain/Entities/ProjectMilestone.cs:90-99 | throws exactly when completed; otherwise Delayed, with a non-empty reason appended to the description |
| ProjectMilestoneEntity.DelayedDescription | src/ERP.Domain/Entities/ProjectMilestone.cs:95-97 | the new description ends with the reason |
| ProjectMilestoneEntity.ProjectMilestone.UpdateDescription | src/ERP.Domain/Entities/ProjectMilestone.cs:101-105 | throws exactly when completed; otherwise only the description changes |
| ProjectMilestoneEntity.ProjectMilestone.UpdateDueDate | src/ERP.Domain/Entities/ProjectMilestone.cs:107-119 | completed throws, then a due date not after today throws; otherwise the due date changes |
| ProjectMilestoneEntity.ProjectMilestone.UpdatePaymentPercentage | src/ERP.Domain/Entities/ProjectMilestone.cs:121-127 | completed throws, then a percentage outside 0-100 throws; otherwise only the percentage changes |
| ProjectMilestoneEntity.ProjectMilestone.Reset | src/ERP.Domain/Entities/ProjectMilestone.cs:129-136 | throws exactly when completed; otherwise Pending with no completion date or deliverables |
| ProjectMilestoneEntity.ProjectMilestone.CanBeCompleted | src/ERP.Domain/Entities/ProjectMilestone.cs:144-147 | true iff the milestone is neither Completed nor Delayed, although MarkAsCompleted also accepts a Delayed one |
| ProjectMilestoneEntity.ProjectMilestone.CalculatePaymentAmount | src/ERP.Domain/Entities/ProjectMilestone.cs:138-142 | a negative budget throws; otherwise the share times 100 is budget times percentage, and a valid share lies within the budget |
| ProjectMilestoneEntity.PaymentShare | src/ERP.Domain/Entities/ProjectMilestone.cs:141 | share times 100 equals budget times percentage, and lies in [0, budget] for a percentage in 0-100 |
| InvoiceEntity.CheckNewInvoice | src/ERP.Domain/Entities/Invoice.cs:17-33 | the constructor's checks in order (number, project, client, due date after today) |
| InvoiceEntity.Invoice.constructor | src/ERP.Domain/Entities/Invoice.cs:17-33 | a valid Draft USD invoice dated today with no lines and tax 0 |
| InvoiceEntity.Invoice.Create | src/ERP.Domain/Entities/Invoice.cs:17-33 | tenant check, then CheckNewInvoice; on success the invoice above, due after today |
| InvoiceEntity.SumAmounts | src/ERP.Domain/Entities/Invoice.cs:63 | the sum of valid lines is non-negative |
| InvoiceEntity.IndexOfLine | src/ERP.Domain/Entities/Invoice.cs:86 | the first line with the id, or none when no line has it |
| InvoiceEntity.Invoice.SubTotal | src/ERP.Domain/Entities/Invoice.cs:63 | the sum of the line amounts, as USD Money |
| InvoiceEntity.Invoice.TaxAmount | src/ERP.Domain/Entities/Invoice.cs:64 | the subtotal times the tax rate over 100 |
| InvoiceEntity.Invoice.TotalAmount | src/ERP.Domain/Entities/Invoice.cs:65 | the subtotal plus the tax |
| InvoiceEntity.TotalsOfValidInvoice | src/ERP.Domain/Entities/Invoice.cs:63-65 | for a valid invoice all three totals exist, and the total lies between the subtotal and twice the subtotal |
| InvoiceEntity.TotalsFromSum | src/ERP.Domain/Entities/Invoice.cs:63-65 | the same from a non-negative sum and a tax rate in 0-100 |
| InvoiceEntity.UsdMoneyIsValid | src/ERP.Domain/ValueObjects/Money.cs:12-19 | a non-negative USD amount is valid Money and is what the constructor builds |
| InvoiceEntity.Invoice.AddLineItem | src/ERP.Domain/Entities/Invoice.cs:69-79 | non-Draft throws, then the line's own checks; otherwise exactly one new line is appended |
| InvoiceEntity.Invoice.RemoveLineItem | src/ERP.Domain/Entities/Invoice.cs:81-91 | non-Draft throws; otherwise the first line with the id is removed, or nothing changes when there is none |
| InvoiceEntity.Invoice.Send | src/ERP.Domain/Entities/Invoice.cs:93-100 | only a Draft with lines becomes Sent; each other case throws its message |
| InvoiceEntity.Invoice.MarkAsPaid | src/ERP.Domain/Entities/Invoice.cs:102-111 | only a Sent invoice paid on or after its date becomes Paid, with payment date and method |
| InvoiceEntity.Invoice.Cancel | src/ERP.Domain/Entities/Invoice.cs:113-119 | any status but Paid becomes Cancelled; Paid throws |
| InvoiceEntity.Invoice.UpdateNotes | src/ERP.Domain/Entities/Invoice.cs:121-125 | only the notes and timestamp change |
| InvoiceEntity.Invoice.UpdateTaxRate | src/ERP.Domain/Entities/Invoice.cs:127-134 | non-Draft throws, a rate outside 0-100 throws; otherwise only the rate changes |
| InvoiceEntity.OverdueOnlyWhenSent | src/ERP.Domain/Entities/Invoice.cs:67 | an overdue invoice is Sent and past due; Paid, Cancelled and Draft invoices are never overdue |
| ProjectEntity.ValidateStatusTransition | src/ERP.Domain/Entities/Project.cs:203-220 | passes exactly for a transition in the table, otherwise INVALID_STATUS_TRANSITION |
| ProjectEntity.TransitionTableShape | src/ERP.Domain/Entities/Project.cs:205-212 | no self-transition, Completed and Cancelled are final, only Active completes, nothing returns to Planning |
| ProjectEntity.CheckAssign | src/ERP.Domain/Entities/Project.cs:118-130 | the argument checks in order, then the overlap check with its message |
| ProjectEntity.AppendWithoutConflict | src/ERP.Domain/Entities/Project.cs:124-134 | appending an assignment that passed the overlap check keeps "no employee is double-booked" |
| ProjectEntity.SumEstimatedCostNonNegative | src/ERP.Domain/Entities/Project.cs:179-187 | when all assignments have started the summed cost is non-negative |
| ProjectEntity.CountCompleted | src/ERP.Domain/Entities/Project.cs:193 | at most the number of milestones |
| ProjectEntity.CheckMilestoneWindow | src/ERP.Domain/Entities/Project.cs:145-147 | the due instant must lie between the start's and the end's midnight, with each side's message |
| ProjectEntity.LastDayAfterMidnightIsRejected | src/ERP.Domain/Entities/Project.cs:146-147 | a due time after midnight on the project's last day is rejected |
| ProjectEntity.IndexOfTechnology | src/ERP.Domain/Entities/Project.cs:169-170 | the first technology equal ignoring case, or none |
| ProjectEntity.WithTechnology | src/ERP.Domain/Entities/Project.cs:158-162 | unchanged when present ignoring case, otherwise appended |
| ProjectEntity.WithoutTechnology | src/ERP.Domain/Entities/Project.cs:169-176 | unchanged when absent; otherwise one element shorter, the removed element matches ignoring case, and the rest are kept as a multiset |
| ProjectEntity.AddTechnologyIdempotent | src/ERP.Domain/Entities/Project.cs:154-163 | after adding, the technology is present, and adding it again changes nothing |
| ProjectEntity.AddThenRemoveTechnology | src/ERP.Domain/Entities/Project.cs:154-177 | adding an absent technology and removing it restores the list |
| ProjectEntity.AddKeepsDistinct | src/ERP.Domain/Entities/Project.cs:154-163 | adding keeps the technologies distinct ignoring case |
| ProjectEntity.RemoveKeepsDistinct | src/ERP.Domain/Entities/Project.cs:165-177 | removing keeps the technologies distinct ignoring case |
| ProjectEntity.RemoveMakesAbsent | src/ERP.Domain/Entities/Project.cs:165-177 | in a list distinct up to case, no match for the technology is left after removing it |
| ProjectEntity.CheckNewProject | src/ERP.Domain/Entities/Project.cs:23-27 | the constructor's checks in order (name, client, manager) |
| ProjectEntity.EffectiveBudget | src/ERP.Domain/Entities/Project.cs:58-68 | the stored budget, with an empty currency read as USD |
| ProjectEntity.Project.Budget | src/ERP.Domain/Entities/Project.cs:58-68 | the stored amount; the stored budget itself unless its currency is empty, then USD, so the currency is never empty |
| ProjectEntity.Project.constructor | src/ERP.Domain/Entities/Project.cs:20-40 | a valid Planning, TimeAndMaterial, Medium-risk project |
| ProjectEntity.Project.Create | src/ERP.Domain/Entities/Project.cs:20-40 | tenant check, then the constructor's checks; on success the project above, which raised ProjectCreated |
| ProjectEntity.Project.UpdateBasicInfo | src/ERP.Domain/Entities/Project.cs:88-95 | a non-blank name changes name and description, otherwise throws and changes nothing |
| ProjectEntity.Project.UpdateBudget | src/ERP.Domain/Entities/Project.cs:97-106 | a margin in 0-100 sets budget and margin, otherwise throws |
| ProjectEntity.Project.ChangeStatus | src/ERP.Domain/Entities/Project.cs:108-113 | succeeds exactly for a transition in the table and changes only the status |
| ProjectEntity.Project.AssignEmployee | src/ERP.Domain/Entities/Project.cs:115-139 | throws CheckAssign's exception, then the assignment constructor's (empty project id, negative rate); otherwise appends one assignment and one EmployeeAssigned event, keeping no double-booking |
| ProjectEntity.Project.AddMilestone | src/ERP.Domain/Entities/Project.cs:141-152 | throws for a blank name, then for a due date outside the window, then the milestone constructor's exception (empty project id, payment percentage outside 0-100); otherwise one Pending milestone is appended |
| ProjectEntity.Project.AddTechnology | src/ERP.Domain/Entities/Project.cs:154-163 | blank throws; otherwise the list becomes WithTechnology, and the timestamp moves only when it grew |
| ProjectEntity.Project.RemoveTechnology | src/ERP.Domain/Entities/Project.cs:165-177 | blank throws; otherwise the list becomes WithoutTechnology, and the timestamp moves only when it shrank |
| ProjectEntity.Project.CalculateEstimatedCost | src/ERP.Domain/Entities/Project.cs:179-187 | USD Money of the summed costs, throwing when that sum is negative |
| ProjectEntity.Project.CalculateProgress | src/ERP.Domain/Entities/Project.cs:189-195 | 0 without milestones, otherwise completed over total times 100 |
| ProjectEntity.Project.IsOverBudget | src/ERP.Domain/Entities/Project.cs:197-201 | throws with the estimated cost; otherwise holds iff the cost exceeds the budget |
| ProjectEntity.ProgressBounds | src/ERP.Domain/Entities/Project.cs:189-195 | progress is in [0, 100] and is 100 iff every milestone is completed |
| ProjectEntity.EstimatedCostDefinedOnceStarted | src/ERP.Domain/Entities/Project.cs:179-201 | once all assignments have started, cost and over-budget are both defined |
| EmployeeEntity.ValidateStatusTransition | src/ERP.Domain/Entities/Employee.cs:302-318 | passes exactly for a transition in the table, otherwise INVALID_EMPLOYEE_STATUS_TRANSITION |
| EmployeeEntity.TransitionTableShape | src/ERP.Domain/Entities/Employee.cs:304-310 | no self-transition, Terminated is final and reachable from every other status, only Inactive and OnLeave return to Active |
| EmployeeEntity.LeaveAfterUse | src/ERP.Domain/Entities/Employee.cs:205-213 | the three guards in order; on success the balance drops by exactly the days and stays >= 0 |
| EmployeeEntity.LeaveAfterAdd | src/ERP.Domain/Entities/Employee.cs:218-224 | non-positive days throw; otherwise the balance grows by the days unless the sum passes int.MaxValue, when it wraps to a negative balance |
| EmployeeEntity.AddThenUseLeaveRestores | src/ERP.Domain/Entities/Employee.cs:205-224 | adding then using the same days restores the balance of an active employee when the sum stays within int |
| EmployeeEntity.AddPastMaxValueBlocksUse | src/ERP.Domain/Entities/Employee.cs:205-224 | when the sum passes int.MaxValue the wrapped balance is negative and using the added days throws "Insufficient leave balance" |
| EmployeeEntity.FindSkill | src/ERP.Domain/Entities/Employee.cs:124-125 | the first skill whose technology is equal ignoring case, or none |
| EmployeeEntity.PrimaryTechnologies | src/ERP.Domain/Entities/Employee.cs:344-347 | exactly the technologies of Advanced or Expert skills |
| EmployeeEntity.OverlapAllocationNonNegative | src/ERP.Domain/Entities/Employee.cs:234-238 | the allocation of overlapping valid assignments is non-negative |
| EmployeeEntity.ActiveOn | src/ERP.Domain/Entities/Employee.cs:323 | exactly the assignments active on the date, each kept at most as often as in the input (a sub-multiset) |
| EmployeeEntity.CheckNewEmployee | src/ERP.Domain/Entities/Employee.cs:19-20 | name, then e-mail, must be non-blank |
| EmployeeEntity.Employee.constructor | src/ERP.Domain/Entities/Employee.cs:16-27 | an Active employee hired on the day, with leave 0 and no skills |
| EmployeeEntity.Employee.Create | src/ERP.Domain/Entities/Employee.cs:16-27 | tenant check, then CheckNewEmployee; on success the employee above |
| EmployeeEntity.Employee.UpdatePersonalInfo | src/ERP.Domain/Entities/Employee.cs:69-78 | name, e-mail, then not Terminated; on success only name and e-mail change |
| EmployeeEntity.Employee.UpdatePosition | src/ERP.Domain/Entities/Employee.cs:83-94 | Terminated throws, a negative salary throws; otherwise the position, and the salary only when given |
| EmployeeEntity.Employee.AssignToDepartment | src/ERP.Domain/Entities/Employee.cs:99-113 | Terminated, empty department and self as manager each throw; otherwise department and manager are set |
| EmployeeEntity.Employee.RefreshSkill | src/ERP.Domain/Entities/Employee.cs:129-133 | the existing skill gets level, years and today, and the certification when one is given |
| EmployeeEntity.Employee.NewSkill | src/ERP.Domain/Entities/Employee.cs:137-141 | an empty employee id throws its Guid exception, then a white-space certification throws ArgumentException("certification"); otherwise a fresh skill for this employee, with the certification when one is given |
| EmployeeEntity.Employee.AddOrUpdateSkill | src/ERP.Domain/Entities/Employee.cs:118-145 | the guards in order; then the skill found ignoring case is updated in place, or a new one is appended; in either branch a white-space certification throws ArgumentException("certification"), and a new skill for an empty employee id throws its Guid exception |
| EmployeeEntity.Employee.PutSkill | src/ERP.Domain/Entities/Employee.cs:124-144 | the update-or-append step of AddOrUpdateSkill, with the same certification and Guid exceptions |
| EmployeeEntity.Employee.RemoveSkill | src/ERP.Domain/Entities/Employee.cs:150-163 | blank and Terminated throw; otherwise the first skill equal ignoring case is removed |
| EmployeeEntity.Employee.ChangeStatus | src/ERP.Domain/Entities/Employee.cs:168-188 | succeeds exactly for a transition in the table and changes only the status |
| EmployeeEntity.Employee.UpdateLeaveBalance | src/ERP.Domain/Entities/Employee.cs:193-200 | a negative balance throws, Terminated throws; otherwise the balance is set |
| EmployeeEntity.Employee.UseLeave | src/ERP.Domain/Entities/Employee.cs:205-213 | behaves as LeaveAfterUse on the balance |
| EmployeeEntity.Employee.AddLeave | src/ERP.Domain/Entities/Employee.cs:218-224 | behaves as LeaveAfterAdd on the balance, including the int wrap-around |
| EmployeeEntity.Employee.GetAvailableAllocation | src/ERP.Domain/Entities/Employee.cs:245-256 | 0 unless Active; otherwise max(0, 100 - overlapping allocation), throwing when the window is invalid |
| EmployeeEntity.Employee.IsAvailableForProject | src/ERP.Domain/Entities/Employee.cs:229-240 | false unless Active |
| EmployeeEntity.AvailabilityIsPositiveAllocation | src/ERP.Domain/Entities/Employee.cs:229-256 | available iff the available allocation is positive, and that allocation is at most 100 |
| EmployeeEntity.Employee.HasSkill | src/ERP.Domain/Entities/Employee.cs:261-271 | blank throws; without a minimum level, true iff some skill matches ignoring case; with one, true iff the first matching skill is at or above it |
| EmployeeEntity.Employee.GetYearsOfService | src/ERP.Domain/Entities/Employee.cs:276-280 | whole 365-day years from the hire date to today, or to the last update of a Terminated employee; never negative when that end is after hiring, and truncated toward zero (so at most 0) when it is before |
| EmployeeEntity.Employee.GetActiveAssignments | src/ERP.Domain/Entities/Employee.cs:285-288 | exactly the assignments whose period contains today, a sub-multiset of the assignments |
| EmployeeEntity.SumAllocationBounds | src/ERP.Domain/Entities/Employee.cs:293-296 | a sum over n valid assignments lies between n and 100 n percent |
| EmployeeEntity.Employee.GetCurrentTotalAllocation | src/ERP.Domain/Entities/Employee.cs:293-296 | with valid assignments, between the number of today's assignments and 100 times it |
| EmployeeEntity.AssignabilityByActiveCount | src/ERP.Domain/Entities/Employee.cs:352-357 | with valid assignments, over-allocation needs at least two assignments active today; only Active employees are assignable, and an Active one with at most one assignment today always is |
| EmployeeEntity.Employee.PrimarySkills | src/ERP.Domain/Entities/Employee.cs:344-347 | exactly the technologies of Advanced or Expert skills |
| ClientEntity.CountStatus | src/ERP.Domain/Entities/Client.cs:119-122 | at most the number of projects; 0 iff no project has the status, all of them iff every project has it |
| ClientEntity.CountOtherThan | src/ERP.Domain/Entities/Client.cs:242 | at most the number of projects; 0 iff every project has the status, all of them iff none has it |
| ClientEntity.NonCancelledBudget | src/ERP.Domain/Entities/Client.cs:127-131 | never negative for non-negative budgets, and 0 when every project is cancelled |
| ClientEntity.CompletedBudgetIn | src/ERP.Domain/Entities/Client.cs:197-202 | never negative for non-negative budgets, and 0 when no project is completed |
| ClientEntity.ImportanceOf | src/ERP.Domain/Entities/Client.cs:181-192 | High iff 5 projects or a budget of 100000; Low iff under 2 projects and under 25000; otherwise Medium |
| ClientEntity.RunningCounted | src/ERP.Domain/Entities/Client.cs:110-114 | some project is Active or Planning iff the Active and Planning counts are not both 0 |
| ClientEntity.Client.HasActiveProjects | src/ERP.Domain/Entities/Client.cs:110-114 | true iff the Active and Planning counts are not both 0 |
| ClientEntity.Client.GetProjectCountByStatus | src/ERP.Domain/Entities/Client.cs:119-122 | at most the number of projects, and with the count of other statuses adds up to it |
| ClientEntity.Client.GetTotalProjectBudget | src/ERP.Domain/Entities/Client.cs:127-131 | never negative for non-negative budgets, and 0 when every project is cancelled |
| ClientEntity.Client.GetCompletedProjectsCount | src/ERP.Domain/Entities/Client.cs:136-139 | at most the number of projects past Planning |
| ClientEntity.Client.GetActiveProjects | src/ERP.Domain/Entities/Client.cs:144-148 | exactly the Active and Planning projects, a sub-multiset of the projects |
| ClientEntity.Client.CanBeDeleted | src/ERP.Domain/Entities/Client.cs:172-176 | true iff no project is Active or Planning |
| ClientEntity.Client.GetClientImportance | src/ERP.Domain/Entities/Client.cs:181-192 | one of High, Medium, Low; High with 5 projects, Low with none |
| ClientEntity.Client.GetAnnualRevenue | src/ERP.Domain/Entities/Client.cs:197-202 | for non-negative budgets between 0 and the total non-cancelled budget |
| ClientEntity.Client.TotalProjectsCount | src/ERP.Domain/Entities/Client.cs:228 | the sum of the counts of the five statuses |
| ClientEntity.Client.ActiveProjectsCount | src/ERP.Domain/Entities/Client.cs:233 | with the Planning count at most the number of projects |
| ClientEntity.Client.SuccessRate | src/ERP.Domain/Entities/Client.cs:238-248 | a percentage in [0, 100] |
| ClientEntity.Client.AverageProjectBudget | src/ERP.Domain/Entities/Client.cs:253-262 | for non-negative budgets between 0 and the total non-cancelled budget |
| ClientEntity.Client.IsVipClient | src/ERP.Domain/Entities/Client.cs:267-268 | true with 5 projects or a contract of at least 50000 |
| ClientEntity.Client.IsNewClient | src/ERP.Domain/Entities/Client.cs:273 | true iff every project was created within 180 days of today |
| ClientEntity.RunningProjects | src/ERP.Domain/Entities/Client.cs:144-148 | exactly the Active and Planning projects, a sub-multiset of the projects |
| ClientEntity.LatestIndex | src/ERP.Domain/Entities/Client.cs:153-156 | the first project with the greatest creation instant |
| ClientEntity.EarliestIndex | src/ERP.Domain/Entities/Client.cs:163 | the first project with the least creation instant |
| ClientEntity.Client.constructor | src/ERP.Domain/Entities/Client.cs:15-23 | a valid client with only name and industry set |
| ClientEntity.Client.Create | src/ERP.Domain/Entities/Client.cs:15-23 | tenant check, then a non-blank name; on success the client above |
| ClientEntity.Client.UpdateContactInfo | src/ERP.Domain/Entities/Client.cs:57-69 | a non-empty invalid e-mail throws "Invalid email format"; otherwise the three contact fields are set |
| ClientEntity.Client.UpdateAddress | src/ERP.Domain/Entities/Client.cs:74-78 | only the address changes |
| ClientEntity.Client.UpdateBasicInfo | src/ERP.Domain/Entities/Client.cs:83-91 | a non-blank name sets name, industry and size, otherwise throws |
| ClientEntity.Client.SetContractValue | src/ERP.Domain/Entities/Client.cs:96-105 | a negative value throws; otherwise the value, or null, is stored |
| ClientEntity.Client.GetLatestProject | src/ERP.Domain/Entities/Client.cs:153-156 | none iff there are no projects, otherwise a project created no earlier than any other |
| ClientEntity.Client.GetRelationshipDurationInDays | src/ERP.Domain/Entities/Client.cs:161-167 | 0 without projects, otherwise the days since the earliest project's creation date |
| ClientEntity.SuccessRateIsPercentage | src/ERP.Domain/Entities/Client.cs:238-248 | the success rate is in [0, 100] |
| ClientEntity.CompletedAmongStarted | src/ERP.Domain/Entities/Client.cs:242-246 | completed projects are among the non-Planning ones |
| ClientEntity.ActiveProjectsWitnessHasActive | src/ERP.Domain/Entities/Client.cs:110-176 | HasActiveProjects iff GetActiveProjects is non-empty; CanBeDeleted iff it is empty |
| ClientEntity.CountsByStatusPartition | src/ERP.Domain/Entities/Client.cs:119-122 | the five status counts add up to the number of projects, and each count plus its complement does too |
| ClientEntity.BudgetSumsNonNegative | src/ERP.Domain/Entities/Client.cs:127-131 | with non-negative budgets the total is non-negative and a year's revenue is at most the total |
| ClientEntity.AverageBudgetBounds | src/ERP.Domain/Entities/Client.cs:253-262 | the average budget lies between 0 and the total; with no non-cancelled project both are 0 |
| ClientEntity.MeanBounds | src/ERP.Domain/Entities/Client.cs:260 | a mean of a non-negative total over n >= 1 lies in [0, total] |
| ClientEntity.NoneRemainingSumsToZero | src/ERP.Domain/Entities/Client.cs:127-131 | when every project is cancelled the total budget is 0 |
| ClientEntity.ImportanceMonotone | src/ERP.Domain/Entities/Client.cs:181-192 | more projects and more budget never lower the grade |
| ClientEntity.NonCancelledBudgetAppend | src/ERP.Domain/Entities/Client.cs:127-131 | the total of one more project adds its budget unless it is cancelled |
| ClientEntity.AnotherProjectNeverLowersImportance | src/ERP.Domain/Entities/Client.cs:181-192 | gaining a project never lowers the client's grade |
| ClientEntity.VipCharacterization | src/ERP.Domain/Entities/Client.cs:267-268 | VIP iff High importance or a contract of at least 50000; 5 projects or a 100000 budget suffice |
| ClientEntity.WithoutProjectsClientIsNew | src/ERP.Domain/Entities/Client.cs:161-192 | a client without projects is new, deletable and of Low importance |
| ProjectDomainService.Caught | src/ERP.Domain/Services/ProjectDomainService.cs:122-125 | a returned value becomes a success, a thrown exception a failure with the context and its message |
| ProjectDomainService.PercentOf | src/ERP.Domain/Services/ProjectDomainService.cs:220-221 | 0 for a non-positive whole, otherwise r times whole is part times 100, and in [0, 100] for a part within the whole |
| ProjectDomainService.CalculateWorkingDays | src/ERP.Domain/Services/ProjectDomainService.cs:310-325 | the loop counts the Monday-to-Friday days of the inclusive date range |
| ProjectDomainService.WorkingDaysBounds | src/ERP.Domain/Services/ProjectDomainService.cs:310-325 | 0 for an empty range, at most the number of days otherwise |
| ProjectDomainService.FullWeekHasFiveWorkingDays | src/ERP.Domain/Services/ProjectDomainService.cs:310-325 | every seven consecutive days hold five working days |
| ProjectDomainService.GenerateUniqueProjectCode | src/ERP.Domain/Services/ProjectDomainService.cs:94-126 | the retry loop computes the recursive definition of the result |
| ProjectDomainService.UniqueCodeIsBaseCodeOrFailure | src/ERP.Domain/Services/ProjectDomainService.cs:94-126 | the result is the base code when free; a taken base code always fails with the pattern message |
| ProjectDomainService.RetryResultIsFree | src/ERP.Domain/Services/ProjectDomainService.cs:109-120 | a successful retry returns a code that is not taken |
| ProjectDomainService.CheckAssignArguments | src/ERP.Domain/Services/ProjectDomainService.cs:40-44 | the four guards in order, each with its exception |
| ProjectDomainService.CanAssignEmployeeToProject | src/ERP.Domain/Services/ProjectDomainService.cs:31-89 | the guards, the two lookups, the status, availability and overlap checks in order with their messages; a throwing allocation query gives the caught message, a shortfall "Employee only has N% allocation available"; success always says true |
| ProjectDomainService.CalculateActualProjectCosts | src/ERP.Domain/Services/ProjectDomainService.cs:281-301 | 0 for an unknown project, otherwise hours times rate summed over its assignments |
| ProjectDomainService.ActualCostNonNegative | src/ERP.Domain/Services/ProjectDomainService.cs:281-301 | with non-negative hours and valid rates the actual cost is non-negative |
| ProjectDomainService.CalculateProjectProfitability | src/ERP.Domain/Services/ProjectDomainService.cs:131-172 | empty id and unknown project fail; otherwise the caught report built from the project |
| ProjectDomainService.ProfitabilityFailsOverBudget | src/ERP.Domain/Services/ProjectDomainService.cs:159-162 | costs above the budget make Subtract throw, so a report never says over budget |
| ProjectDomainService.ProfitabilityShares | src/ERP.Domain/Services/ProjectDomainService.cs:161-163 | on a positive budget profitability plus utilization is 100, on a zero budget both are 0 |
| ProjectDomainService.UtilizationOf | src/ERP.Domain/Services/ProjectDomainService.cs:199-223 | the hours queried for the employee, and the two rates as percentages of expected and actual hours |
| ProjectDomainService.UtilizationsOf | src/ERP.Domain/Services/ProjectDomainService.cs:199-223 | one entry per assignment, in order |
| ProjectDomainService.CollectUtilizations | src/ERP.Domain/Services/ProjectDomainService.cs:199-223 | the loop produces exactly UtilizationsOf |
| ProjectDomainService.AnalyzeProjectResourceUtilization | src/ERP.Domain/Services/ProjectDomainService.cs:177-243 | empty id and unknown project fail; otherwise the summary over the analysed window |
| ProjectDomainService.ExpectedHoursWithinCapacity | src/ERP.Domain/Services/ProjectDomainService.cs:208-209 | expected hours lie between 0 and 8 per working day |
| ProjectDomainService.AverageBillableRateIsPercentage | src/ERP.Domain/Services/ProjectDomainService.cs:225-235 | the average billable rate is in [0, 100], and without assignments the summary is all zeros |
| ProjectDomainService.OnScheduleCases | src/ERP.Domain/Services/ProjectDomainService.cs:327-339 | open-ended, not yet started, or fully complete before the end: on schedule |
| ProjectDomainService.OnScheduleEarlier | src/ERP.Domain/Services/ProjectDomainService.cs:327-339 | on schedule at a day implies on schedule at every earlier day |
| ProjectDomainService.CountOverdue | src/ERP.Domain/Services/ProjectDomainService.cs:264 | at most the number of milestones |
| ProjectDomainService.CompletedAndOverdueAreDisjoint | src/ERP.Domain/Services/ProjectDomainService.cs:262-264 | completed plus overdue is at most the total |
| ProjectDomainService.Recommendations | src/ERP.Domain/Services/ProjectDomainService.cs:341-367 | one advice per problem, in the source's order, and none iff there is no problem |
| ProjectDomainService.AdviceMatchesProblems | src/ERP.Domain/Services/ProjectDomainService.cs:341-367 | each advice appears iff its problem is present |
| ProjectDomainService.AdviceDistinct | src/ERP.Domain/Services/ProjectDomainService.cs:347-363 | the four advice texts are pairwise different |
| ProjectDomainService.CompletionProbability | src/ERP.Domain/Services/ProjectDomainService.cs:369-398 | the adjusted probability clamped to [0, 100] |
| ProjectDomainService.BetterStandingNeverLowersProbability | src/ERP.Domain/Services/ProjectDomainService.cs:369-398 | lower risk, more progress, on schedule and within budget never lower the probability |
| ProjectDomainService.AssessmentOf | src/ERP.Domain/Services/ProjectDomainService.cs:248-277 | throws exactly when IsOverBudget throws; otherwise the figures, with progress and probability in [0, 100] |
| ProjectDomainService.AssessProjectCompletion | src/ERP.Domain/Services/ProjectDomainService.cs:248-277 | succeeds exactly when the estimated cost is defined, otherwise the caught message |
| ProjectDomainService.StartedProjectIsAssessed | src/ERP.Domain/Services/ProjectDomainService.cs:248-277 | a valid project whose assignments have started is always assessed |
| EmployeeApplicationService.AvailableAmong | src/ERP.Application/Services/EmployeeApplicationService.cs:44 | exactly the candidates available for the window, throwing when an active candidate meets an invalid window |
| EmployeeApplicationService.GetAvailableEmployees | src/ERP.Application/Services/EmployeeApplicationService.cs:26-53 | the skill list when a skill is given, otherwise the period list; filtered and caught |
| EmployeeApplicationService.AvailableSearchKeepsExactlyTheAvailable | src/ERP.Application/Services/EmployeeApplicationService.cs:26-53 | fails iff an active candidate meets an end not after the start; otherwise exactly the available candidates |
| EmployeeApplicationService.UtilizationScore | src/ERP.Application/Services/EmployeeApplicationService.cs:122 | at most 60, and non-negative for non-negative hours |
| EmployeeApplicationService.BillabilityScore | src/ERP.Application/Services/EmployeeApplicationService.cs:123 | 0 without hours, otherwise in [0, 40] |
| EmployeeApplicationService.CalculateEfficiencyScore | src/ERP.Application/Services/EmployeeApplicationService.cs:118-126 | 0 without expected hours, otherwise the two scores added and capped at 100 |
| EmployeeApplicationService.EfficiencyScoreIsUncappedSum | src/ERP.Application/Services/EmployeeApplicationService.cs:118-126 | in [0, 100], and 100 iff hours reach 120% of expected and are all billable |
| EmployeeApplicationService.PerformanceOf | src/ERP.Application/Services/EmployeeApplicationService.cs:66-91 | billable plus non-billable is total, expected is 8 per working day, the rates are percentages of their bases |
| EmployeeApplicationService.GetEmployeePerformance | src/ERP.Application/Services/EmployeeApplicationService.cs:55-99 | "Employee not found" for an unknown id, otherwise the performance figures |
| EmployeeApplicationService.PerformanceRatesAreBounded | src/ERP.Application/Services/EmployeeApplicationService.cs:78-91 | billable rate and efficiency in [0, 100], utilization non-negative |

## Left out

- HTTP controllers, persistence, caching, AutoMapper and DTO mapping are not modelled. The repositories become maps and query functions.
- `async`/`await` and cancellation are not modelled: every repository call is a synchronous parameter.
- `DateTime.UtcNow`, `DateTime.Today` and `Guid.NewGuid()` are not modelled: they are parameters of the operations that read them.
- `MailAddress` parsing in `Client.IsValidEmail` becomes a function parameter. `OrdinalIgnoreCase` comparison and `ToUpper` use ASCII case mapping only.
- `ToString`, `GetHashCode` and the EF Core parameterless constructors are not modelled.
- DateTime's year-9999 limit is not modelled, and neither is `decimal` overflow: amounts are unbounded reals.
- ClientEntity.AverageBudgetBounds: amounts are exact reals, so .NET `decimal` rounding of quotients to 28-29 significant digits is not modelled. The lemma therefore does not claim that the average times the count gives back the total: with rounding, three projects totalling 100 give 33.333333333333333333333333333 times 3, which is 99.999999999999999999999999999. The same rounding is left out of every other division of amounts and rates (project cost and progress, invoice tax, milestone payment, the service's margins, utilization and efficiency figures).
- ProjectCodeValue.Create: `\d` in the code pattern is read as an ASCII digit. .NET without `RegexOptions.ECMAScript` also accepts other Unicode decimal digits, such as "AB-١٢٣٤-01", which the model rejects.
- `int` arithmetic other than the leave balance (allocation sums, working days, expected hours, counts) is unbounded: with each allocation at most 100 an allocation sum could only wrap with more than 21 million assignments, and the other figures stay below it for dates before year 10000. The largest, the allocation-weighted hours `workingDays * 8 * AllocationPercentage`, peaks at 2,086,890,400.
- ProjectDomainService.AnalyzeProjectResourceUtilization: the employee name read through the `Employee` navigation property is not modelled. The project repository loads that property with the assignment, so `Employee.Id` is the assignment's `EmployeeId`, and the model uses the latter for the hour queries.
- EmployeeEntity.Employee.ChangeStatus: `HandleTermination` and `HandleReactivation` are modelled as no-ops, because their bodies only compute an unused list and hold comments.
- DateRangeValue.DateRange.Overlaps: the `Guard.AgainstNull(other)` check is not modelled, because a `DateRange` value is never null.
- ProjectDomainService.AssessProjectCompletion: the `Guard.AgainstNull(project)` check is not modelled, because a Dafny reference parameter is never null.
- EmployeeApplicationService.GetEmployeePerformance: the `catch` block is not modelled, because nothing in its `try` body can throw in the model.
- EmployeeApplicationService.GetAvailableEmployees: the `minSkillLevel` filter is not modelled, because the repository applies it. The skill and period candidate lists are parameters.
- Domain events are kept as records in the entity's event list. Their dispatch is not part of the domain layer.
