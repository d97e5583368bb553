/** The task overview widget (`src/components/TaskOverviewSummary.tsx`). It
    shows the number of open tasks, how many of them are overdue, and how
    many tasks were completed since this week's Monday. Today's date is an
    input, and ISO days are taken as calendar days (no time zone). */
module TaskOverviewSummary {
  import opened Wrappers
  import opened Text
  import opened Seqs
  import opened CivilDate
  import opened Tasks

  /** `getWeekDateRange`: this week's Monday and today, as ISO days. */
  datatype WeekRange = WeekRange(weekStart: string, today: string)

  function WeekDateRange(now: Date): WeekRange
    requires Valid(now) && 2 <= now.year <= 9999
  {
    var monday := MondayOf(now);
    DayNumberOrder(now, monday);
    WeekRange(IsoDay(monday), IsoDay(now))
  }

  /** The week starts on the Monday on or before today, at most six days
      back (six on a Sunday). It never sorts after today. */
  lemma WeekDateRangeCorrect(now: Date)
    requires Valid(now) && 2 <= now.year <= 9999
    ensures var r := WeekDateRange(now);
      ParseIsoDay(r.today) == Some(now) &&
      ParseIsoDay(r.weekStart).Some? &&
      Weekday(ParseIsoDay(r.weekStart).value) == 1 &&
      DayNumber(now) - 6 <= DayNumber(ParseIsoDay(r.weekStart).value) <= DayNumber(now) &&
      (Weekday(now) == 0 ==> DayNumber(now) - DayNumber(ParseIsoDay(r.weekStart).value) == 6) &&
      StrLessEq(r.weekStart, r.today)
  {
    var monday := MondayOf(now);
    MondayOfCorrect(now);
    DayNumberOrder(now, monday);
    DayNumberOrder(monday, now);
    ParseIsoDayRoundTrip(monday);
    ParseIsoDayRoundTrip(now);
    IsoDayOrder(monday, now);
  }

  datatype Summary = Summary(totalOpen: nat, overdueCount: nat, completedThisWeek: nat)

  /** `task.dueDate && task.dueDate < today`, on the strings. */
  function OverdueBy(today: string): Task -> bool
  {
    (t: Task) => t.dueDate.Some? && t.dueDate.value != "" && StrLess(t.dueDate.value, today)
  }

  const MidnightSuffix := "T00:00:00"

  /** `task.completedDate && task.completedDate >= weekStart + 'T00:00:00'`. */
  function CompletedSince(weekStart: string): Task -> bool
  {
    (t: Task) => t.completedDate.Some? && t.completedDate.value != "" &&
      StrLessEq(weekStart + MidnightSuffix, t.completedDate.value)
  }

  /** The counts `fetchTaskSummary` stores from the open tasks and the
      completed tasks the server returned. */
  function Summarize(open: seq<Task>, completed: seq<Task>, r: WeekRange): Summary
  {
    Summary(|open|, Count(open, OverdueBy(r.today)), Count(completed, CompletedSince(r.weekStart)))
  }

  /** The counts are bounded by the lists they come from; an open task is
      counted overdue exactly when it has a due date sorting before today. */
  lemma SummarizeCorrect(open: seq<Task>, completed: seq<Task>, r: WeekRange)
    ensures var s := Summarize(open, completed, r);
      s.totalOpen == |open| && s.overdueCount <= s.totalOpen && s.completedThisWeek <= |completed| &&
      (s.overdueCount == 0 <==> forall t :: t in open ==> !OverdueBy(r.today)(t)) &&
      (s.overdueCount == s.totalOpen <==> forall t :: t in open ==> OverdueBy(r.today)(t))
  {
    FilterMembers(open, OverdueBy(r.today));
    FilterKeepsAll(open, OverdueBy(r.today));
    if Count(open, OverdueBy(r.today)) == 0 {
      forall t | t in open ensures !OverdueBy(r.today)(t) {
        assert t !in Filter(open, OverdueBy(r.today));
      }
    } else {
      var x := Filter(open, OverdueBy(r.today))[0];
      assert x in Filter(open, OverdueBy(r.today));
    }
  }

  /** For an ISO due day, the string test is the calendar test. */
  lemma OverdueByIsCalendar(t: Task, due: Date, now: Date)
    requires Valid(due) && due.year <= 9999 && Valid(now) && now.year <= 9999
    requires t.dueDate == Some(IsoDay(due))
    ensures OverdueBy(IsoDay(now))(t) <==> DateLess(due, now)
  {
    IsoDayOrder(due, now);
  }

  const LoadError := "Failed to load task summary"

  /** What the widget shows. Only the error view has a retry button. */
  datatype View = LoadingView | ErrorView(message: string) | SummaryView(summary: Summary)

  class TaskOverviewWidget {
    var summary: Summary
    var isLoading: bool
    var error: Option<string>

    /** The mount effect's call to `fetchTaskSummary` sits inside a line
        comment, so mounting fetches nothing: the widget starts, and stays,
        on the loading view until something calls `FetchTaskSummary`. */
    constructor ()
      ensures summary == Summary(0, 0, 0) && isLoading && error == None
      ensures CurrentView() == LoadingView
    {
      summary := Summary(0, 0, 0);
      isLoading := true;
      error := None;
    }

    /** The mount the comment evidently meant to make: the widget starts,
        runs `fetchTaskSummary` once, and leaves the loading view. */
    constructor Mounted(open: Option<seq<Task>>, completed: Option<seq<Task>>, now: Date)
      requires Valid(now) && 2 <= now.year <= 9999
      ensures open.Some? && completed.Some? ==>
        summary == Summarize(open.value, completed.value, WeekDateRange(now)) &&
        CurrentView() == SummaryView(summary)
      ensures !(open.Some? && completed.Some?) ==>
        summary == Summary(0, 0, 0) && CurrentView() == ErrorView(LoadError)
      ensures CurrentView() != LoadingView
    {
      summary := Summary(0, 0, 0);
      isLoading := true;
      error := None;
      new;
      FetchTaskSummary(open, completed, now);
    }

    function CurrentView(): (v: View)
      reads this
      ensures v == LoadingView <==> isLoading
      ensures v.ErrorView? <==> !isLoading && error.Some?
    {
      if isLoading then LoadingView
      else if error.Some? then ErrorView(error.value)
      else SummaryView(summary)
    }

    /** `fetchTaskSummary` with the two answers of its `Promise.all`
        (`None`: that request failed, which fails the pair). */
    method FetchTaskSummary(open: Option<seq<Task>>, completed: Option<seq<Task>>, now: Date)
      requires Valid(now) && 2 <= now.year <= 9999
      modifies this
      ensures open.Some? && completed.Some? ==>
        summary == Summarize(open.value, completed.value, WeekDateRange(now)) && error == None &&
        CurrentView() == SummaryView(summary)
      ensures !(open.Some? && completed.Some?) ==>
        summary == old(summary) && error == Some(LoadError) && CurrentView() == ErrorView(LoadError)
      ensures !isLoading
    {
      isLoading := true;
      error := None;
      var r := WeekDateRange(now);
      if open.Some? && completed.Some? {
        summary := Summarize(open.value, completed.value, r);
      } else {
        error := Some(LoadError);
      }
      isLoading := false;
    }
  }
}
