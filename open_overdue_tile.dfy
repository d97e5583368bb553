/** The open/overdue tile (`src/components/OpenOverdueTile.tsx`). It counts
    the open tasks and those whose due day is before today, loads them with
    the standard retry policy, and picks its summary line. */
module OpenOverdueTile {
  import opened Wrappers
  import opened Text
  import opened Seqs
  import opened CivilDate
  import opened Tasks
  import opened Retry

  datatype TaskCounts = TaskCounts(openTasks: nat, overdueTasks: nat)

  /** The day `new Date(task.dueDate)` stands for, when the due date is an
      ISO day; an unreadable date compares false, so it is never overdue. */
  function DueDay(t: Task): Option<Date>
  {
    if t.dueDate.Some? && t.dueDate.value != "" then ParseIsoDay(t.dueDate.value) else None
  }

  /** Due strictly before the start of today. */
  function IsOverdue(today: Date): Task -> bool
  {
    (t: Task) => DueDay(t).Some? && DateLess(DueDay(t).value, today)
  }

  /** The tile counts every task it was sent as open, and never more
      overdue tasks than open ones. */
  function CountTasks(open: seq<Task>, today: Date): (c: TaskCounts)
    ensures c.openTasks == |open| && c.overdueTasks <= c.openTasks
  {
    TaskCounts(|open|, Count(open, IsOverdue(today)))
  }

  /** A task without a due date, or due today or later, is not overdue; a
      task due on an earlier ISO day is. */
  lemma IsOverdueCases(t: Task, due: Date, today: Date)
    requires Valid(due) && due.year <= 9999 && Valid(today)
    ensures t.dueDate.None? ==> !IsOverdue(today)(t)
    ensures t.dueDate == Some(IsoDay(due)) ==>
      (IsOverdue(today)(t) <==> DayNumber(due) < DayNumber(today))
  {
    ParseIsoDayRoundTrip(due);
    DayNumberOrder(due, today);
  }

  const TooManyAttempts := "Failed to load task data after multiple attempts"
  const FallbackError := "Failed to load task data"

  /** The tile's loader: the standard policy, starting empty and loading. */
  method NewTile() returns (tile: Loader<TaskCounts>)
    ensures fresh(tile) && tile.policy == Standard
    ensures tile.tooManyMessage == TooManyAttempts && tile.fallbackMessage == FallbackError
    ensures tile.data == TaskCounts(0, 0) && tile.isLoading && tile.error == None && tile.retryCount == 0
  {
    tile := new Loader(Standard, TooManyAttempts, FallbackError, TaskCounts(0, 0));
  }

  /** What one request yields for the tile, given today. */
  function CountsAnswer(a: Answer<seq<Task>>, today: Date): Answer<TaskCounts>
  {
    MapAnswer(a, (ts: seq<Task>) => CountTasks(ts, today))
  }

  /** The summary line: the overdue count and the open count when something
      is overdue, otherwise the open count and "none overdue". */
  datatype SummaryLine = OverdueSummary(overdue: nat, open: nat) | NoneOverdue(open: nat)

  function Summary(c: TaskCounts): (s: SummaryLine)
    ensures s.OverdueSummary? <==> c.overdueTasks > 0
    ensures s.open == c.openTasks
  {
    if c.overdueTasks > 0 then OverdueSummary(c.overdueTasks, c.openTasks) else NoneOverdue(c.openTasks)
  }

  /** "Focus on overdue tasks" shows with the overdue summary only. */
  predicate ShowsWarning(c: TaskCounts)
  {
    c.overdueTasks > 0
  }

  /** For counts taken from a list, the tile says "none overdue" exactly
      when no task of the list is overdue, and warns otherwise. */
  lemma SummaryOfCounts(open: seq<Task>, today: Date)
    ensures var c := CountTasks(open, today);
      (Summary(c).NoneOverdue? <==> forall t :: t in open ==> !IsOverdue(today)(t)) &&
      (ShowsWarning(c) <==> Summary(c).OverdueSummary?)
  {
    FilterMembers(open, IsOverdue(today));
    if Count(open, IsOverdue(today)) > 0 {
      assert Filter(open, IsOverdue(today))[0] in Filter(open, IsOverdue(today));
    }
  }

  function SummaryText(s: SummaryLine): string
  {
    match s
    case OverdueSummary(o, n) => NatToString(o) + " overdue, " + NatToString(n) + " total open"
    case NoneOverdue(n) => NatToString(n) + " open tasks, none overdue"
  }

  /** `renderContent`: the spinner while loading, else the error view (with
      "Attempt n/3" once a retry has been counted), else the counts and their
      summary line. */
  datatype TileBody = Spinner | ErrorView(attempt: Option<nat>) | CountsView(counts: TaskCounts, summary: SummaryLine)

  function RenderContent(isLoading: bool, error: Option<string>, retryCount: nat, c: TaskCounts): (b: TileBody)
    ensures b.Spinner? <==> isLoading
    ensures b.ErrorView? <==> !isLoading && error.Some?
    ensures b.ErrorView? ==> b.attempt == if retryCount > 0 then Some(retryCount) else None
    ensures b.CountsView? ==> b.counts == c && (b.summary.OverdueSummary? <==> c.overdueTasks > 0)
  {
    if isLoading then Spinner
    else if error.Some? then ErrorView(if retryCount > 0 then Some(retryCount) else None)
    else CountsView(c, Summary(c))
  }
}
