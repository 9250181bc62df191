/** An availability window of a post and the two parsers the availability filter calls. */
module AvailabilityRanges {
  import opened Common
  import opened Dates

  /** A window given by two instant strings, either of which may be null. */
  datatype AvailabilityRange = AvailabilityRange(start: Option<string>, end: Option<string>)

  /** The calendar day (UTC) of a bound, or None when it is null, empty or unparseable. */
  function ParseBound(bound: Option<string>): Option<Date>
  {
    if NullOrEmpty(bound) then None else ParseInstantDate(bound.value)
  }

  /** `parseStartDateForFiltering()`: null for a null, empty or unparseable start. */
  function ParseStartDateForFiltering(r: AvailabilityRange): (d: Option<Date>)
    ensures NullOrEmpty(r.start) ==> d.None?
    ensures !NullOrEmpty(r.start) ==> d == ParseInstantDate(r.start.value)
    ensures d.Some? ==> ValidDate(d.value) && d == ParseInstantDate(r.start.value)
  {
    ParseBound(r.start)
  }

  /** `parseEndDateForFiltering()`: the same rule applied to the end. */
  function ParseEndDateForFiltering(r: AvailabilityRange): (d: Option<Date>)
    ensures NullOrEmpty(r.end) ==> d.None?
    ensures !NullOrEmpty(r.end) ==> d == ParseInstantDate(r.end.value)
    ensures d.Some? ==> ValidDate(d.value) && d == ParseInstantDate(r.end.value)
  {
    ParseBound(r.end)
  }

  /** The window contains the day: both bounds parse and start <= day <= end. */
  predicate Covers(r: AvailabilityRange, day: Date)
  {
    var s, e := ParseStartDateForFiltering(r), ParseEndDateForFiltering(r);
    s.Some? && e.Some? && DateLe(s.value, day) && DateLe(day, e.value)
  }

  /** The window written as midnight of day a to midnight of day b. */
  function MidnightWindow(a: Date, b: Date): AvailabilityRange
    requires ValidDate(a) && 0 <= a.year <= 9999
    requires ValidDate(b) && 0 <= b.year <= 9999
  {
    AvailabilityRange(Some(FormatDate(a) + "T00:00:00Z"), Some(FormatDate(b) + "T00:00:00Z"))
  }

  /** A window from midnight of a to midnight of b covers exactly the days a..b inclusive. */
  lemma MidnightWindowCovers(a: Date, b: Date, day: Date)
    requires ValidDate(a) && 0 <= a.year <= 9999
    requires ValidDate(b) && 0 <= b.year <= 9999
    ensures Covers(MidnightWindow(a, b), day) <==> DateLe(a, day) && DateLe(day, b)
  {
    ParseInstantOfMidnight(a);
    ParseInstantOfMidnight(b);
  }

  /** The window 2024-07-01..2024-07-10 covers 2024-07-05 and neither 2024-07-11 nor 2024-06-30. */
  lemma JulyWindowExample()
    ensures Covers(MidnightWindow(Date(2024, 7, 1), Date(2024, 7, 10)), Date(2024, 7, 5))
    ensures !Covers(MidnightWindow(Date(2024, 7, 1), Date(2024, 7, 10)), Date(2024, 7, 11))
    ensures !Covers(MidnightWindow(Date(2024, 7, 1), Date(2024, 7, 10)), Date(2024, 6, 30))
  {
    MidnightWindowCovers(Date(2024, 7, 1), Date(2024, 7, 10), Date(2024, 7, 5));
    MidnightWindowCovers(Date(2024, 7, 1), Date(2024, 7, 10), Date(2024, 7, 11));
    MidnightWindowCovers(Date(2024, 7, 1), Date(2024, 7, 10), Date(2024, 6, 30));
  }
}
