/** The scheduled-tasks widget (`src/components/ScheduledTasks.tsx`): open
    tasks with a due date, grouped into overdue, due today and due within
    the next seven days by plain string comparison of the due date with
    today's and next week's ISO days, each group ordered by due date. */
module ScheduledTasks {
  import opened Wrappers
  import opened Text
  import opened Seqs
  import opened CivilDate
  import opened Tasks

  /** `task.dueDate && task.status !== 'Completed'`: an empty due date is
      falsy. */
  function Scheduled(): Task -> bool
  {
    (t: Task) => t.dueDate.Some? && t.dueDate.value != "" && t.status != Completed
  }

  function DueBefore(today: string): Task -> bool
  {
    (t: Task) => StrLess(DueOf(t), today)
  }

  function DueOn(today: string): Task -> bool
  {
    (t: Task) => DueOf(t) == today
  }

  function DueWithin(today: string, nextWeek: string): Task -> bool
  {
    (t: Task) => StrLess(today, DueOf(t)) && StrLessEq(DueOf(t), nextWeek)
  }

  datatype Grouped = Grouped(overdue: seq<Task>, today: seq<Task>, thisWeek: seq<Task>)

  /** The grouping `fetchScheduledTasks` stores, for today's ISO day and the
      ISO day a week later. */
  function Group(all: seq<Task>, today: string, nextWeek: string): Grouped
  {
    var withDue := Filter(all, Scheduled());
    Grouped(
      SortByDueDate(Filter(withDue, DueBefore(today))),
      SortByDueDate(Filter(withDue, DueOn(today))),
      SortByDueDate(Filter(withDue, DueWithin(today, nextWeek))))
  }

  function TotalTasks(g: Grouped): nat
  {
    |g.overdue| + |g.today| + |g.thisWeek|
  }

  /** A sorted group built with test f holds exactly the scheduled tasks
      that pass f, each as often as the task list does, ordered by due date. */
  lemma GroupMembers(all: seq<Task>, f: Task -> bool)
    ensures var g := SortByDueDate(Filter(Filter(all, Scheduled()), f));
      DueSorted(g) && multiset(g) == multiset(Filter(Filter(all, Scheduled()), f)) &&
      forall t :: t in g <==> t in all && Scheduled()(t) && f(t)
  {
    var withDue := Filter(all, Scheduled());
    var g := SortByDueDate(Filter(withDue, f));
    SortByDueDateCorrect(Filter(withDue, f));
    FilterMembers(all, Scheduled());
    FilterMembers(withDue, f);
    forall t ensures t in g <==> t in all && Scheduled()(t) && f(t) {
      assert t in g <==> t in multiset(g);
      assert t in Filter(withDue, f) <==> t in multiset(Filter(withDue, f));
    }
  }

  /** Each group holds exactly the scheduled tasks that pass its test, as
      often as the task list holds them, ordered by due date; no task is in
      two groups, and together they hold at most the scheduled tasks. */
  lemma GroupCorrect(all: seq<Task>, today: string, nextWeek: string)
    ensures var g := Group(all, today, nextWeek);
      var withDue := Filter(all, Scheduled());
      (forall t :: t in g.overdue <==> t in all && Scheduled()(t) && StrLess(DueOf(t), today)) &&
      (forall t :: t in g.today <==> t in all && Scheduled()(t) && DueOf(t) == today) &&
      (forall t :: t in g.thisWeek <==>
        t in all && Scheduled()(t) && StrLess(today, DueOf(t)) && StrLessEq(DueOf(t), nextWeek)) &&
      multiset(g.overdue) == multiset(Filter(withDue, DueBefore(today))) &&
      multiset(g.today) == multiset(Filter(withDue, DueOn(today))) &&
      multiset(g.thisWeek) == multiset(Filter(withDue, DueWithin(today, nextWeek))) &&
      DueSorted(g.overdue) && DueSorted(g.today) && DueSorted(g.thisWeek) &&
      (forall t :: !(t in g.overdue && t in g.today) && !(t in g.overdue && t in g.thisWeek) &&
        !(t in g.today && t in g.thisWeek)) &&
      TotalTasks(g) <= |Filter(all, Scheduled())|
  {
    var withDue := Filter(all, Scheduled());
    GroupMembers(all, DueBefore(today));
    GroupMembers(all, DueOn(today));
    GroupMembers(all, DueWithin(today, nextWeek));
    forall t ensures !(DueBefore(today)(t) && DueOn(today)(t)) && !(DueBefore(today)(t) && DueWithin(today, nextWeek)(t)) &&
      !(DueOn(today)(t) && DueWithin(today, nextWeek)(t))
    {
      StrLessIrreflexive(today);
      if StrLess(DueOf(t), today) && StrLess(today, DueOf(t)) {
        StrLessTransitive(DueOf(t), today, DueOf(t));
        StrLessIrreflexive(DueOf(t));
      }
    }
    DisjointFilters(withDue, DueBefore(today), DueOn(today), DueWithin(today, nextWeek));
  }

  /** For ISO days the string tests are the calendar tests: a task is in
      this week's group exactly when it falls after today and at most seven
      days later, and overdue exactly when it falls before today. */
  lemma GroupsAreDays(due: Date, today: Date, nextWeek: Date)
    requires Valid(due) && Valid(today) && Valid(nextWeek)
    requires due.year <= 9999 && today.year <= 9999 && nextWeek.year <= 9999
    requires DayNumber(nextWeek) == DayNumber(today) + 7
    ensures StrLess(IsoDay(due), IsoDay(today)) <==> DayNumber(due) < DayNumber(today)
    ensures StrLess(IsoDay(today), IsoDay(due)) && StrLessEq(IsoDay(due), IsoDay(nextWeek)) <==>
      DayNumber(today) < DayNumber(due) <= DayNumber(today) + 7
  {
    IsoDayOrder(due, today);
    IsoDayOrder(today, due);
    IsoDayOrder(due, nextWeek);
    DayNumberOrder(due, today);
    DayNumberOrder(today, due);
    DayNumberOrder(due, nextWeek);
  }

  /** A rendered group: its heading `${title} (${count})` and its tasks. */
  datatype GroupView = GroupView(heading: string, tasks: seq<Task>)

  /** `renderTaskGroup`: an empty group renders nothing. */
  function RenderGroup(title: string, ts: seq<Task>): (r: Option<GroupView>)
    ensures r.None? <==> |ts| == 0
    ensures r.Some? ==> r.value.tasks == ts
  {
    if |ts| == 0 then None else Some(GroupView(title + " (" + NatToString(|ts|) + ")", ts))
  }

  /** The body: the empty state exactly when no group has a task, else the
      three groups in order, skipping the empty ones. */
  datatype Body = EmptyState | Groups(views: seq<GroupView>)

  function Render(g: Grouped): (b: Body)
    ensures b == EmptyState <==> |g.overdue| == 0 && |g.today| == 0 && |g.thisWeek| == 0
    ensures b.Groups? ==> 1 <= |b.views| <= 3
  {
    if TotalTasks(g) == 0 then EmptyState
    else
      var o, t, w := RenderGroup("Overdue", g.overdue), RenderGroup("Due Today", g.today), RenderGroup("This Week", g.thisWeek);
      Groups((if o.Some? then [o.value] else []) + (if t.Some? then [t.value] else []) + (if w.Some? then [w.value] else []))
  }

  /** The footer: the number of tasks in the three groups followed by
      "scheduled task", with an "s" unless the number is one. */
  function FooterText(g: Grouped): (s: string)
    ensures s == "1 scheduled task" <==> TotalTasks(g) == 1
    ensures |NatToString(TotalTasks(g))| < |s|
    ensures AllDigits(s[..|NatToString(TotalTasks(g))|]) && DecimalValue(s[..|NatToString(TotalTasks(g))|]) == TotalTasks(g)
  {
    var n := TotalTasks(g);
    Counted(n, "scheduled task")
  }

  const LoadError := "Failed to load scheduled tasks"

  class ScheduledWidget {
    var grouped: Grouped
    var isLoading: bool
    var error: Option<string>
    var dialogOpen: bool
    var selected: Option<Task>

    constructor ()
      ensures grouped == Grouped([], [], []) && isLoading && error == None && !dialogOpen && selected == None
    {
      grouped := Grouped([], [], []);
      isLoading := true;
      error := None;
      dialogOpen := false;
      selected := None;
    }

    /** `fetchScheduledTasks` with the server's answer (`None`: it failed). */
    method FetchScheduledTasks(answer: Option<seq<Task>>, today: string, nextWeek: string)
      modifies this
      ensures answer.Some? ==> grouped == Group(answer.value, today, nextWeek) && error == None
      ensures answer.None? ==> grouped == old(grouped) && error == Some(LoadError)
      ensures !isLoading && dialogOpen == old(dialogOpen) && selected == old(selected)
    {
      isLoading := true;
      error := None;
      if answer.Some? {
        grouped := Group(answer.value, today, nextWeek);
      } else {
        error := Some(LoadError);
      }
      isLoading := false;
    }

    method HandleTaskClick(t: Task)
      modifies this
      ensures selected == Some(t) && dialogOpen
      ensures grouped == old(grouped) && isLoading == old(isLoading) && error == old(error)
    {
      selected := Some(t);
      dialogOpen := true;
    }

    /** `handleSaveTask`: a successful save starts a reload and closes the
        dialog; a failed one is only logged. */
    method HandleSaveTask(saved: bool, reloaded: Option<seq<Task>>, today: string, nextWeek: string)
      modifies this
      ensures !saved ==>
        grouped == old(grouped) && error == old(error) && isLoading == old(isLoading) &&
        dialogOpen == old(dialogOpen) && selected == old(selected)
      ensures saved ==> !dialogOpen && selected == None && !isLoading
      ensures saved && reloaded.Some? ==> grouped == Group(reloaded.value, today, nextWeek) && error == None
      ensures saved && reloaded.None? ==> grouped == old(grouped) && error == Some(LoadError)
    {
      if !saved { return; }
      FetchScheduledTasks(reloaded, today, nextWeek);
      dialogOpen := false;
      selected := None;
    }
  }
}
