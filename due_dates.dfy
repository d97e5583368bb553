/** The due-date badge and label the task widgets share
    (`getDueDateBadgeClass` and `formatDueDate`, written out identically in
    `MITTaskList.tsx`, `TopLITTasks.tsx` and `ScheduledTasks.tsx`). Both
    compare ISO day strings `YYYY-MM-DD`; the day count comes from the two
    days' UTC midnights, so it is an exact difference of day numbers. */
module DueDates {
  import opened Text
  import opened CivilDate

  datatype Badge = OverdueBadge | TodayBadge | UpcomingBadge

  /** `getDueDateBadgeClass`: plain string comparison of the two ISO days. */
  function BadgeClass(due: string, today: string): (b: Badge)
    ensures b == OverdueBadge <==> StrLess(due, today)
    ensures b == TodayBadge <==> due == today
  {
    StrLessIrreflexive(due);
    if StrLess(due, today) then OverdueBadge
    else if due == today then TodayBadge
    else UpcomingBadge
  }

  /** Which text `formatDueDate` chooses: "Today", the days overdue, or the
      locale's rendering of a later date. */
  datatype DueText = Today | Overdue(days: nat) | Later

  predicate Displayable(d: Date)
  {
    Valid(d) && d.year <= 9999
  }

  function DueLabel(due: Date, today: Date): (r: DueText)
    requires Displayable(due) && Displayable(today)
  {
    var d, t := IsoDay(due), IsoDay(today);
    if d == t then Today
    else if StrLess(d, t) then
      IsoDayOrder(due, today);
      DayNumberMonotone(due, today);
      Overdue(DayNumber(today) - DayNumber(due))
    else Later
  }

  /** The label tells the days apart as the calendar does: "Today" exactly
      on the due day, overdue exactly before it, by the exact number of days
      (at least one), and the date itself afterwards. */
  lemma DueLabelCorrect(due: Date, today: Date)
    requires Displayable(due) && Displayable(today)
    ensures DueLabel(due, today) == Today <==> due == today
    ensures DueLabel(due, today).Overdue? <==> DateLess(due, today)
    ensures DueLabel(due, today).Later? <==> DateLess(today, due)
    ensures DueLabel(due, today).Overdue? ==>
      DueLabel(due, today).days >= 1 && DayNumber(due) + DueLabel(due, today).days == DayNumber(today)
  {
    IsoDayOrder(due, today);
    IsoDayOrder(today, due);
    DayNumberOrder(due, today);
    if IsoDay(due) != IsoDay(today) && !StrLess(IsoDay(due), IsoDay(today)) {
      StrLessTrichotomy(IsoDay(due), IsoDay(today));
    }
  }

  /** The badge and the label agree on the due day and on overdue days. */
  lemma BadgeMatchesLabel(due: Date, today: Date)
    requires Displayable(due) && Displayable(today)
    ensures BadgeClass(IsoDay(due), IsoDay(today)) == OverdueBadge <==> DueLabel(due, today).Overdue?
    ensures BadgeClass(IsoDay(due), IsoDay(today)) == TodayBadge <==> DueLabel(due, today) == Today
  {
  }

  const DaySuffix := " day"
  const OverdueSuffix := " overdue"

  /** The text shown; `localized` stands for `toLocaleDateString()`. An
      overdue text is the day count followed by " day overdue", or by
      " days overdue" for a count above one. */
  function DueLabelText(t: DueText, localized: string): (s: string)
    ensures t.Today? ==> s == "Today"
    ensures t.Later? ==> s == localized
    ensures t.Overdue? ==>
      (Numbered(s, t.days, DaySuffix + OverdueSuffix) <==> t.days <= 1) &&
      (Numbered(s, t.days, DaySuffix + "s" + OverdueSuffix) <==> t.days > 1)
  {
    match t
    case Today => "Today"
    case Overdue(n) =>
      var rest := DaySuffix + (if n > 1 then "s" else "") + OverdueSuffix;
      NumberedRendering(n, rest);
      assert (DaySuffix + "s" + OverdueSuffix)[4] != (DaySuffix + OverdueSuffix)[4];
      NatToString(n) + rest
    case Later => localized
  }

  /** On a label the page can show, the text is singular exactly when the
      task was due the day before today. */
  lemma {:induction false} OverdueTextSingular(due: Date, today: Date, localized: string)
    requires Displayable(due) && Displayable(today)
    requires DueLabel(due, today).Overdue?
    ensures DueLabelText(DueLabel(due, today), localized) == "1" + DaySuffix + OverdueSuffix
      <==> DayNumber(due) + 1 == DayNumber(today)
  {
    DueLabelCorrect(due, today);
    var n := DueLabel(due, today).days;
    var s := DueLabelText(DueLabel(due, today), localized);
    assert NatToString(1) == "1";
    if s == "1" + DaySuffix + OverdueSuffix && n > 1 {
      assert false;
    }
  }

  /** One day overdue is singular, two are plural. */
  lemma OverdueTextExamples(localized: string)
    ensures DueLabelText(Overdue(1), localized) == "1" + DaySuffix + OverdueSuffix
    ensures DueLabelText(Overdue(2), localized) == "2" + DaySuffix + "s" + OverdueSuffix
  {
    assert NatToString(1) == "1";
    assert NatToString(2) == "2";
  }
}
