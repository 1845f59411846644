// A closed or open-ended range of whole days.  Both bounds are stored
// truncated to the day; the end, when present, is never before the start.
module DateRangeValue {
  import opened Core
  import opened Calendar
  import Guard

  datatype DateRange = DateRange(startDate: Day, endDate: Option<Day>)
  {
    /** Every range built by `Create` satisfies this. */
    predicate Valid()
    {
      endDate.Some? ==> startDate <= endDate.value
    }

    /** `IsActive`: open-ended, or not yet past its end. */
    predicate IsActive(today: Day)
    {
      endDate.None? || today <= endDate.value
    }

    /** `IsCompleted`: closed and already past its end. */
    predicate IsCompleted(today: Day)
    {
      endDate.Some? && today > endDate.value
    }

    /** `DurationInDays`, inclusive of both ends; an open range runs to today. */
    function DurationInDays(today: Day): int
    {
      if endDate.Some? then endDate.value - startDate + 1 else today - startDate + 1
    }

    /** Day-level membership, the test `Contains` applies to `date.Date`. */
    predicate ContainsDay(d: Day)
    {
      startDate <= d && (endDate.None? || d <= endDate.value)
    }

    /** `Contains(date)`. */
    predicate Contains(date: Instant)
    {
      ContainsDay(DateOf(date))
    }

    /** `Overlaps(other)`: any open-ended range overlaps; closed ranges by inclusive intersection. */
    predicate Overlaps(other: DateRange)
    {
      if endDate.None? || other.endDate.None? then true
      else startDate <= other.endDate.value && other.startDate <= endDate.value
    }
  }

  /**
   * `new DateRange(startDate, endDate)`.  The end must be strictly after the
   * start, compared BEFORE both are truncated to the day, so two instants of
   * the same day give a one-day range.
   */
  function Create(startDate: Instant, endDate: Option<Instant>): (r: Outcome<DateRange>)
    ensures r.Threw? <==> endDate.Some? && endDate.value <= startDate
    ensures r.Threw? ==> r.error == DomainException("End date must be after start date")
    ensures r.Returned? ==> r.value.Valid()
    ensures r.Returned? ==> r.value.startDate == DateOf(startDate)
    ensures r.Returned? ==> (r.value.endDate.Some? <==> endDate.Some?)
    ensures r.Returned? && endDate.Some? ==> r.value.endDate.value == DateOf(endDate.value)
  {
    var _ :- Guard.Against(endDate.Some? && endDate.value <= startDate, "End date must be after start date");
    if endDate.Some? then
      DateOfMonotone(startDate, endDate.value);
      Returned(DateRange(DateOf(startDate), Some(DateOf(endDate.value))))
    else
      Returned(DateRange(DateOf(startDate), None))
  }

  /** Every range built by `Create` contains the instant it starts at. */
  lemma CreatedRangeContainsStart(startDate: Instant, endDate: Option<Instant>)
    requires Create(startDate, endDate).Returned?
    ensures Create(startDate, endDate).value.Contains(startDate)
  {
  }

  /** Membership unfolded: start <= date.Date and, for a closed range, date.Date <= end. */
  lemma ContainsIff(r: DateRange, date: Instant)
    ensures r.Contains(date) <==> r.startDate <= DateOf(date) && (r.endDate.None? || DateOf(date) <= r.endDate.value)
  {
  }

  /**
   * Truncation happens after the end-after-start guard: an end later the
   * same day passes it, and the range collapses to one day.
   */
  lemma SameDayRangeLastsOneDay(d: Day, k: nat, today: Day)
    requires 0 < k < TicksPerDay
    ensures Create(StartOf(d), Some(StartOf(d) + k)).Returned?
    ensures Create(StartOf(d), Some(StartOf(d) + k)).value == DateRange(d, Some(d))
    ensures Create(StartOf(d), Some(StartOf(d) + k)).value.DurationInDays(today) == 1
  {
    assert DateOf(StartOf(d) + k) == d;
    assert DateOf(StartOf(d)) == d;
  }

  /** A valid closed range lasts at least one day. */
  lemma ClosedDurationAtLeastOne(r: DateRange, today: Day)
    requires r.Valid() && r.endDate.Some?
    ensures r.DurationInDays(today) >= 1
    ensures r.DurationInDays(today) == r.endDate.value - r.startDate + 1
  {
  }

  /** For a fixed day, a range is completed exactly when it is not active. */
  lemma CompletedIsNotActive(r: DateRange, today: Day)
    ensures r.IsCompleted(today) <==> !r.IsActive(today)
  {
  }

  /** An open-ended range overlaps every range, in either order. */
  lemma OpenRangeOverlapsAll(r: DateRange, other: DateRange)
    requires r.endDate.None?
    ensures r.Overlaps(other) && other.Overlaps(r)
  {
  }

  /** `Overlaps` is symmetric. */
  lemma OverlapsSymmetric(a: DateRange, b: DateRange)
    ensures a.Overlaps(b) <==> b.Overlaps(a)
  {
  }

  /**
   * For valid closed ranges `Overlaps` is exactly "some day lies in both":
   * the inclusive interval-intersection test.
   */
  lemma ClosedOverlapsIffCommonDay(a: DateRange, b: DateRange)
    requires a.Valid() && b.Valid() && a.endDate.Some? && b.endDate.Some?
    ensures a.Overlaps(b) <==> exists d :: a.ContainsDay(d) && b.ContainsDay(d)
  {
    if a.Overlaps(b) {
      var d := if a.startDate <= b.startDate then b.startDate else a.startDate;
      assert a.ContainsDay(d) && b.ContainsDay(d);
    }
  }
}
