/** The due-date filter options of the task list (`src/utils/dateFilters.ts`):
    each option becomes an optional start day, an optional end day or the
    "no due date" flag, computed from today's calendar date. */
module DateFilters {
  import opened Wrappers
  import opened Text
  import opened CivilDate

  /** `{ startDate?, endDate?, noDueDate? }`. */
  datatype DateRange = DateRange(startDate: Option<string>, endDate: Option<string>, noDueDate: bool)

  /** The day after the last day of the month of d: `new Date(y, m + 1, 1)`
      with month 12 rolling over into January of the next year. */
  function FirstOfNextMonth(d: Date): (r: Date)
    requires Valid(d)
    ensures Valid(r) && DateLess(d, r)
  {
    if d.month < 12 then Date(d.year, d.month + 1, 1) else Date(d.year + 1, 1, 1)
  }

  /** `new Date(y, m + 1, 0)`: day 0 of the next month is the day before its
      first day. */
  function EndOfMonth(d: Date): (r: Date)
    requires Valid(d)
    ensures Valid(r)
  {
    var next := FirstOfNextMonth(d);
    DayNumberMonotone(d, next);
    AddDays(next, -1)
  }

  /** The month's end is its last calendar day, so February ends on the 29th
      exactly in leap years. */
  lemma EndOfMonthIsLastDay(d: Date)
    requires Valid(d)
    ensures EndOfMonth(d) == Date(d.year, d.month, DaysInMonth(d.year, d.month))
    ensures d.month == 2 ==> (EndOfMonth(d).day == 29 <==> IsLeapYear(d.year))
  {
    var last := Date(d.year, d.month, DaysInMonth(d.year, d.month));
    var next := FirstOfNextMonth(d);
    assert NextDate(last) == next;
    NextDayNumber(last);
    DayNumberOrder(EndOfMonth(d), last);
  }

  function FilterRange(option: string, today: Date): (r: Option<DateRange>)
    requires Valid(today) && today.year >= 2
  {
    var day := YmdString(today);
    if option == "pastDue" then Some(DateRange(None, Some(day), false))
    else if option == "dueToday" then Some(DateRange(Some(day), Some(day), false))
    else if option == "dueThisWeek" then
      var sunday := SundayOf(today);
      var saturday := AddDays(sunday, 6);
      Some(DateRange(Some(YmdString(sunday)), Some(YmdString(saturday)), false))
    else if option == "dueThisMonth" then
      Some(DateRange(Some(YmdString(Date(today.year, today.month, 1))), Some(YmdString(EndOfMonth(today))), false))
    else if option == "noDueDate" then Some(DateRange(None, None, true))
    else None
  }

  const KnownOptions: seq<string> := ["all", "pastDue", "dueToday", "dueThisWeek", "dueThisMonth", "noDueDate"]

  /** `all` and every unknown option give no range; only `noDueDate` sets the
      flag; the day ranges never set it; only `pastDue` leaves the start open. */
  lemma FilterRangeShape(option: string, today: Date)
    requires Valid(today) && today.year >= 2
    ensures FilterRange(option, today).None? <==> option == "all" || option !in KnownOptions
    ensures FilterRange(option, today).Some? ==>
      (FilterRange(option, today).value.noDueDate <==> option == "noDueDate")
    ensures FilterRange(option, today).Some? && option != "noDueDate" ==>
      FilterRange(option, today).value.endDate.Some? &&
      (FilterRange(option, today).value.startDate.None? <==> option == "pastDue")
    ensures option == "pastDue" || option == "dueToday" ==>
      FilterRange(option, today).value.endDate == Some(YmdString(today))
    ensures option == "dueToday" ==> FilterRange(option, today).value.startDate == Some(YmdString(today))
  {
  }

  /** This week runs from the Sunday on or before today to the Saturday six
      days later, and today lies inside it; on a Sunday it starts today. */
  lemma WeekRangeCorrect(today: Date)
    requires Valid(today) && today.year >= 2
    ensures var sunday := SundayOf(today);
      var saturday := AddDays(sunday, 6);
      FilterRange("dueThisWeek", today) == Some(DateRange(Some(YmdString(sunday)), Some(YmdString(saturday)), false)) &&
      Weekday(sunday) == 0 && Weekday(saturday) == 6 &&
      DayNumber(sunday) <= DayNumber(today) <= DayNumber(saturday) &&
      DayNumber(saturday) == DayNumber(sunday) + 6 &&
      (Weekday(today) == 0 ==> sunday == today)
  {
    var sunday := SundayOf(today);
    SundayOfCorrect(today);
    var saturday := AddDays(sunday, 6);
    WeekdayShift(sunday, saturday, 6);
  }

  /** This month runs from its first day to its last, and today lies inside. */
  lemma MonthRangeCorrect(today: Date)
    requires Valid(today) && today.year >= 2
    ensures var last := Date(today.year, today.month, DaysInMonth(today.year, today.month));
      FilterRange("dueThisMonth", today) ==
        Some(DateRange(Some(YmdString(Date(today.year, today.month, 1))), Some(YmdString(last)), false)) &&
      Valid(last) && !DateLess(today, Date(today.year, today.month, 1)) && !DateLess(last, today)
  {
    EndOfMonthIsLastDay(today);
  }

  /** The label shown for an option; anything unknown reads "All". */
  function FilterLabel(option: string): (r: string)
    ensures option !in KnownOptions ==> r == "All"
  {
    if option == "all" then "All"
    else if option == "pastDue" then "Past Due"
    else if option == "dueToday" then "Due Today"
    else if option == "dueThisWeek" then "Due this Week"
    else if option == "dueThisMonth" then "Due this Month"
    else if option == "noDueDate" then "No Due Date"
    else "All"
  }

  /** Distinct known options have distinct labels, so a label names its
      option; only `all` shares its label with the unknown options. */
  lemma FilterLabelsDistinct(a: string, b: string)
    requires a in KnownOptions && b in KnownOptions && a != b
    ensures FilterLabel(a) != FilterLabel(b)
  {
  }
}
