/** The upcoming-tasks widget (`src/components/UpcomingTasksList.tsx`): the
    due-day flags and text of each row, the five-row cap with its "+n more"
    footer, the standard retry policy and the edit dialog. */
module UpcomingTasksList {
  import opened Wrappers
  import opened CivilDate
  import opened Seqs
  import opened Tasks
  import opened Retry

  /** What `formatDueDate` returns, with the locale text left abstract:
      `LocaleDate(withYear)` is `toLocaleDateString` showing the year only
      when it is not this year's. */
  datatype DueText = TodayText | TomorrowText | LocaleDate(withYear: bool)

  datatype DueInfo = DueInfo(text: DueText, isOverdue: bool, isToday: bool, isTomorrow: bool)

  /** The three flags compare the start of the due day with the start of
      today and of tomorrow. */
  function FormatDueDate(due: Date, today: Date): DueInfo
    requires Valid(due) && Valid(today)
  {
    var tomorrow := AddDays(today, 1);
    var isOverdue := DateLess(due, today);
    var isToday := due == today;
    var isTomorrow := due == tomorrow;
    var text := if isToday then TodayText
      else if isTomorrow then TomorrowText
      else LocaleDate(due.year != today.year);
    DueInfo(text, isOverdue, isToday, isTomorrow)
  }

  /** The flags are the day counts' order, at most one of them holds, and
      the text is "Today" or "Tomorrow" exactly with its flag. */
  lemma FormatDueDateCorrect(due: Date, today: Date)
    requires Valid(due) && Valid(today)
    ensures var f := FormatDueDate(due, today);
      (f.isOverdue <==> DayNumber(due) < DayNumber(today)) &&
      (f.isToday <==> DayNumber(due) == DayNumber(today)) &&
      (f.isTomorrow <==> DayNumber(due) == DayNumber(today) + 1) &&
      !(f.isOverdue && f.isToday) && !(f.isOverdue && f.isTomorrow) && !(f.isToday && f.isTomorrow) &&
      (f.text == TodayText <==> f.isToday) && (f.text == TomorrowText <==> f.isTomorrow) &&
      (f.text.LocaleDate? ==> (f.text.withYear <==> due.year != today.year))
  {
    var tomorrow := AddDays(today, 1);
    DayNumberOrder(due, today);
    DayNumberOrder(due, tomorrow);
  }

  /** At most five rows render. */
  const MaxRows: nat := 5

  function ShownRows(ts: seq<Task>): seq<Task>
  {
    Take(ts, MaxRows)
  }

  /** `+{n - 5} more upcoming tasks` under the list, only past five. */
  function MoreCount(ts: seq<Task>): (r: Option<nat>)
    ensures r.Some? <==> |ts| > MaxRows
  {
    if |ts| > MaxRows then Some(|ts| - MaxRows) else None
  }

  /** The rows are the list's first five, and the footer counts exactly the
      ones left out. */
  lemma RowsAndFooter(ts: seq<Task>)
    ensures |ShownRows(ts)| <= MaxRows && ShownRows(ts) == ts[..|ShownRows(ts)|]
    ensures MoreCount(ts).Some? ==> |ShownRows(ts)| + MoreCount(ts).value == |ts|
    ensures MoreCount(ts).None? ==> ShownRows(ts) == ts
  {
  }

  const TooManyAttempts := "Failed to load upcoming tasks after multiple attempts"
  const FallbackError := "Failed to load upcoming tasks"

  class UpcomingWidget {
    /** The list, its loading state and the retry count. */
    const loader: Loader<seq<Task>>
    var selected: Option<Task>
    var editModalOpen: bool

    constructor ()
      ensures fresh(loader) && loader.policy == Standard && loader.data == [] && loader.isLoading
      ensures loader.tooManyMessage == TooManyAttempts && loader.fallbackMessage == FallbackError
      ensures selected == None && !editModalOpen
    {
      loader := new Loader(Standard, TooManyAttempts, FallbackError, []);
      selected := None;
      editModalOpen := false;
    }

    method HandleTaskClick(t: Task)
      modifies this
      ensures selected == Some(t) && editModalOpen
    {
      selected := Some(t);
      editModalOpen := true;
    }

    method HandleCloseModal()
      modifies this
      ensures selected == None && !editModalOpen
    {
      editModalOpen := false;
      selected := None;
    }

    /** `handleSaveTask`: after a successful update or create the list is
        loaded again, the modal closes and the selection clears; a failed
        save is only logged. */
    method HandleSaveTask(saved: bool, answers: seq<Answer<seq<Task>>>)
      returns (requests: nat, delays: seq<nat>)
      modifies this, loader
      ensures !saved ==>
        selected == old(selected) && editModalOpen == old(editModalOpen) &&
        loader.data == old(loader.data) && loader.isLoading == old(loader.isLoading) &&
        loader.error == old(loader.error) && loader.retryCount == old(loader.retryCount)
      ensures saved ==> selected == None && !editModalOpen
      ensures !saved ==> requests == 0 && delays == []
      ensures saved ==> loader.Settled(answers, old(loader.data), requests, delays)
    {
      if !saved { return 0, []; }
      requests, delays := loader.Load(answers);
      editModalOpen := false;
      selected := None;
    }
  }
}
